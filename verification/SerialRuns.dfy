/**
  Which runs are runs of a system where every publication is one step, and what keeps
  a publication from committing.
 */
module SerialRuns {
  import opened Results
  import opened Tables
  import opened QueueSpec
  import opened QueueInvariant
  import opened QueueFrames
  import opened Publication
  import opened PublishTransaction
  import opened ImportSystem
  import opened PublicationRefinement
  import opened SystemRuns

  /** A system with no sessions, locks or snapshots: every publication is one step. */
  datatype AtomicStep =
    | Stutter
    | AtomicOp(op: Op, now: Time)
    | AtomicMaster(master: Master)
    | AtomicEnter(key: FactKey, fact: Fact)
    | AtomicPublish(k: AttemptKey, token: Token, master: Master, maximum: nat, started: Time, finished: Time)

  ghost predicate AtomicNext(db: Db, step: AtomicStep, d: Db) {
    match step
    case Stutter => d == db
    case AtomicOp(op, now) => Enabled(db, op, now) && d == After(db, Perform(db, op, now))
    case AtomicMaster(master) => d == db.(master := master)
    case AtomicEnter(key, fact) => key !in db.facts && d == db.(facts := db.facts[key := fact])
    case AtomicPublish(k, token, master, maximum, started, finished) =>
      PublishOnce(db, k, token, master, maximum, started, finished) == Ok(d)
  }

  function Abstraction(s: System, step: Step): AtomicStep {
    match step
    case Transact(op, now) => AtomicOp(op, now)
    case EditMaster(master) => AtomicMaster(master)
    case EnterFact(key, fact) => AtomicEnter(key, fact)
    case Commit(w, maximum, finished) =>
      if InTransaction(s, w) then
        var session := s.sessions[w];
        AtomicPublish(session.k, session.token, session.txn.value.snapshot.master, maximum, session.txn.value.started,
                      finished)
      else Stutter
    case _ => Stutter
  }

  /** A commit of rows one of which had no fact in the snapshot, and now meets a different one. */
  predicate MeetsNewConflict(s: System, step: Step) {
    && step.Commit? && InTransaction(s, step.w) && s.sessions[step.w].k in s.db.staged
    && var session := s.sessions[step.w];
       var before := session.txn.value.snapshot;
       AnyConflictAppears(s.db.staged[session.k], session.source, before.master, before.facts, s.db.facts)
  }

  lemma StepRefines(s: System, step: Step, t: System)
    requires SystemInv(s) && Next(s, step, t)
    ensures AtomicNext(s.db, Abstraction(s, step), t.db) <==> !MeetsNewConflict(s, step)
  {
    hide SystemInv, Perform, Enabled, SnapshotOutcome, Install, Collides, Bump, HoldsLease, Locked, PublishOnce,
         AnyConflictAppears;
    if step.Commit? {
      CommitRefinesExactly(s, t, step.w, step.maximum, step.finished);
    }
  }

  /**
    The master data that a publication uses is that of a state in which the worker
    already had the lock of its source.
   */
  ghost predicate MasterOf(states: seq<System>, i: nat, h: nat, w: Worker, master: Master)
    requires i < |states|
  {
    && h < i && states[h].db.master == master && w in states[i].sessions
    && forall g | h <= g <= i :: w in states[g].sessions && states[g].sessions[w].source == states[i].sessions[w].source
  }

  /**
    Every interleaving of workers that publish, crash, stall and retry, with
    operators, master-data edits and facts entered by hand in between, is step by
    step a run of the serial system, except for exactly the commits that meet a new
    conflict. A publication uses the master data of an earlier state, since which it
    has had the lock of its source.
   */
  lemma RunRefinesSerial(states: seq<System>, steps: seq<Step>, i: nat)
    requires IsRun(states, steps) && SystemInv(states[0]) && (forall w :: !InTransaction(states[0], w)) && i < |steps|
    ensures AtomicNext(states[i].db, Abstraction(states[i], steps[i]), states[i + 1].db)
            <==> !MeetsNewConflict(states[i], steps[i])
    ensures steps[i].Commit? ==>
              var step := Abstraction(states[i], steps[i]);
              step.AtomicPublish? && exists h :: MasterOf(states, i, h, steps[i].w, step.master)
  {
    hide SystemInv, AtomicNext, Evolves, MeetsNewConflict;
    RunSafe(states, steps, i, i);
    StepRefines(states[i], steps[i], states[i + 1]);
    if steps[i].Commit? {
      assert Next(states[i], steps[i], states[i + 1]);
      var h := SnapshotWasCurrent(states, steps, i, steps[i].w);
      assert MasterOf(states, i, h, steps[i].w, Abstraction(states[i], steps[i]).master);
    }
  }

  // ----- Facts entered by hand -----

  /** Under the lock of a source, only its holder and the administration add facts of that source. */
  lemma StepAddsFact(s: System, step: Step, t: System, w: Worker, f: FactKey)
    requires SystemInv(s) && Next(s, step, t) && w in s.sessions && s.sessions[w].source == f.source
    requires f !in s.db.facts && f in t.db.facts && !(step.Commit? && step.w == w)
    ensures step.EnterFact? && step.key == f
  {
    hide Perform, Enabled, SnapshotOutcome, Install, Collides, Bump, Inv, HoldsLease, Locked, SessionInv, SameJob,
         Evolves;
    match step
    case Transact(op, now) => PerformKeeps(s.db, op, now);
    case Commit(v, maximum, finished) => CommitSafe(s, t, v, maximum, finished);
    case _ =>
  }

  ghost predicate EnteredBetween(steps: seq<Step>, h: nat, i: nat, f: FactKey)
    requires h <= i <= |steps|
  {
    exists g | h <= g < i :: steps[g].EnterFact? && steps[g].key == f
  }

  /**
    While a worker has the lock of a source and does not commit, a fact of the source
    appears exactly when it is entered by hand.
   */
  lemma {:induction false} FactAppears(states: seq<System>, steps: seq<Step>, h: nat, i: nat, w: Worker, f: FactKey)
    requires IsRun(states, steps) && SystemInv(states[0]) && h <= i < |states| && f !in states[h].db.facts
    requires forall g | h <= g < i :: w in states[g].sessions && states[g].sessions[w].source == f.source
    requires forall g | h <= g < i :: !(steps[g].Commit? && steps[g].w == w)
    ensures f in states[i].db.facts <==> EnteredBetween(steps, h, i, f)
    decreases i
  {
    hide SystemInv, Next, JobEvolves, UsedGrow;
    if h < i {
      FactAppears(states, steps, h, i - 1, w, f);
      RunSafe(states, steps, i - 1, i);
      if steps[i - 1].EnterFact? && steps[i - 1].key == f {
        EntryAdds(states[i - 1], steps[i - 1], states[i], f);
      }
      if f !in states[i - 1].db.facts && f in states[i].db.facts {
        StepAddsFact(states[i - 1], steps[i - 1], states[i], w, f);
      }
    }
  }

  lemma EntryAdds(s: System, step: Step, t: System, f: FactKey)
    requires Next(s, step, t) && step.EnterFact? && step.key == f
    ensures f in t.db.facts
  {
  }

  /**
    The unique constraint on facts stops a locked publication exactly when a fact
    that its plan inserts was entered by hand since its snapshot.
   */
  lemma CollidesExactly(states: seq<System>, steps: seq<Step>, i: nat, w: Worker, maximum: nat, finished: Time)
    returns (h: nat)
    requires IsRun(states, steps) && SystemInv(states[0]) && !InTransaction(states[0], w) && i < |states|
    requires InTransaction(states[i], w) && states[i].sessions[w].txn.value.locked && maximum >= 1
    requires SnapshotOutcome(states[i].sessions[w], maximum, finished).Ok?
    ensures SystemInv(states[i]) && h < i && states[h].db == states[i].sessions[w].txn.value.snapshot
    ensures var plan := SnapshotPlan(states[i], w, maximum);
            Collides(states[i].db, states[h].db, SnapshotOutcome(states[i].sessions[w], maximum, finished).value)
            <==> plan.PublishPlan? && exists f | f in plan.inserted :: EnteredBetween(steps, h, i, f)
  {
    hide SystemInv, Next, Evolves, SnapshotOutcome, Collides, PlanFits, ApplyPlan, Install, PlanOf, EnteredBetween,
         FactsGrow, RowsUnique, InRowOrder;
    RunSafe(states, steps, i, i);
    h := SnapshotWasCurrent(states, steps, i, w);
    CommitApplies(states[i], w, maximum, finished);
    LockedAttempt(states[i], w);
    var plan, session := SnapshotPlan(states[i], w, maximum), states[i].sessions[w];
    if plan.PublishPlan? {
      FittingInserts(states[i].db.staged[session.k], session.source, states[h].db.facts, plan);
      forall f | f in plan.inserted ensures f in states[i].db.facts <==> EnteredBetween(steps, h, i, f) {
        FactAppears(states, steps, h, i, w, f);
      }
    }
  }

  /**
    A commit meets a new conflict only if a fact under one of its record ids was entered
    by hand since its snapshot.
   */
  lemma NewConflictEntered(states: seq<System>, steps: seq<Step>, i: nat) returns (h: nat, r: StagedRow)
    requires IsRun(states, steps) && SystemInv(states[0]) && i < |steps| && MeetsNewConflict(states[i], steps[i])
    requires !InTransaction(states[0], steps[i].w)
    ensures var session := states[i].sessions[steps[i].w];
            && h < i && states[h].db == session.txn.value.snapshot && r in states[i].db.staged[session.k]
            && EnteredBetween(steps, h, i, Key(session.source, r))
  {
    hide SystemInv, Next, Evolves, EnteredBetween;
    var w := steps[i].w;
    h := SnapshotWasCurrent(states, steps, i, w);
    var session := states[i].sessions[w];
    var before := session.txn.value.snapshot;
    r :| r in states[i].db.staged[session.k]
    && ConflictAppears(r, session.source, before.master, before.facts, states[i].db.facts);
    FactAppears(states, steps, h, i, w, Key(session.source, r));
  }
}
