/** What a publication in several steps has to do with a publication in one step, and exactly when the two agree. */
module PublicationRefinement {
  import opened Results
  import opened Tables
  import opened QueueSpec
  import opened QueueInvariant
  import opened QueueSafety
  import IssueCollection
  import opened ReferenceValidation
  import opened Publication
  import opened PublishTransaction
  import opened ImportSystem

  /** The atomic publication that a commit stands for: master data as of its snapshot, everything else as of now. */
  ghost function AtomicPublication(s: System, w: Worker, maximum: nat, finished: Time): QueueSpec.Commit
    requires InTransaction(s, w)
  {
    var session := s.sessions[w];
    var txn := session.txn.value;
    PublishOnce(s.db, session.k, session.token, txn.snapshot.master, maximum, txn.started, finished)
  }

  /** A row without a fact in the snapshot that resolves, and now has a fact that differs from it. */
  predicate ConflictAppears(r: StagedRow, source: Source, m: Master, before: Facts, now: Facts) {
    && Key(source, r) !in before && Resolves(r, m)
    && (ResolvesFacts(r, m); Conflicts(Resolve(r, m), source, now))
  }

  predicate AnyConflictAppears(rows: seq<StagedRow>, source: Source, m: Master, before: Facts, now: Facts) {
    exists r | r in rows :: ConflictAppears(r, source, m, before, now)
  }

  // ----- Plans made from two states of the facts -----

  lemma RowOverTime(r: StagedRow, source: Source, m: Master, before: Facts, now: Facts)
    requires FactsGrow(before, now)
    ensures |RowIssues(r, source, m, before)| <= |RowIssues(r, source, m, now)|
    ensures if ConflictAppears(r, source, m, before, now)
            then |RowIssues(r, source, m, before)| < |RowIssues(r, source, m, now)|
            else RowIssues(r, source, m, now) == RowIssues(r, source, m, before)
                 && ValidatedRow(r, source, m, now) == ValidatedRow(r, source, m, before)
  {
    hide Resolves, FactMatches, Resolve;
    if Key(source, r) in before {
      RowLocal(r, source, m, before, now);
    } else if Resolves(r, m) {
      ResolvesFacts(r, m);
      SameRecord(r, m);
    }
  }

  /** Without a new conflict, validation finds the same; with one, it finds more. */
  lemma {:induction false} ValidationOverTime(rows: seq<StagedRow>, source: Source, m: Master, before: Facts,
                                              now: Facts)
    requires FactsGrow(before, now)
    ensures |AllRowIssues(rows, source, m, before)| <= |AllRowIssues(rows, source, m, now)|
    ensures if AnyConflictAppears(rows, source, m, before, now)
            then |AllRowIssues(rows, source, m, before)| < |AllRowIssues(rows, source, m, now)|
            else AllRowIssues(rows, source, m, now) == AllRowIssues(rows, source, m, before)
                 && InvalidCount(rows, source, m, now) == InvalidCount(rows, source, m, before)
                 && ValidatedRows(rows, source, m, now) == ValidatedRows(rows, source, m, before)
  {
    hide RowIssues, ValidatedRow, ConflictAppears, FactsGrow;
    if rows != [] {
      var n := |rows| - 1;
      assert rows == rows[..n] + [rows[n]];
      RowOverTime(rows[n], source, m, before, now);
      ValidationOverTime(rows[..n], source, m, before, now);
      assert AnyConflictAppears(rows, source, m, before, now)
        <==> AnyConflictAppears(rows[..n], source, m, before, now) || ConflictAppears(rows[n], source, m, before, now);
      ValidatedLast(rows, source, m, before);
      ValidatedLast(rows, source, m, now);
    }
  }

  lemma ValidatedLast(rows: seq<StagedRow>, source: Source, m: Master, facts: Facts)
    requires rows != []
    ensures ValidatedRows(rows, source, m, facts)
            == ValidatedRows(rows[..|rows| - 1], source, m, facts) + [ValidatedRow(rows[|rows| - 1], source, m, facts)]
  {
    hide ValidatedRow;
  }

  /** A plan that publishes is the plan of any later state that has none of the facts it inserts. */
  lemma PublishPlanKept(rows: seq<StagedRow>, source: Source, m: Master, before: Facts, now: Facts, maximum: nat)
    requires RowsUnique(rows) && InRowOrder(rows) && FactsGrow(before, now)
    requires Planned(rows, source, m, before, maximum).PublishPlan?
    requires NoneKnown(Planned(rows, source, m, before, maximum).inserted, now)
    ensures Planned(rows, source, m, now, maximum) == Planned(rows, source, m, before, maximum)
    ensures !AnyConflictAppears(rows, source, m, before, now)
  {
    hide AllRowIssues, InvalidCount, Inserted, InsertedCount, LinkedRows, ValidatedRows, Resolves, Conflicts, FactOf,
         RowsUnique, InRowOrder;
    var accepted := AcceptedRows(rows, source, m, before);
    AcceptedClean(rows, source, m, before);
    InsertedSize(accepted, source, before);
    forall i | 0 <= i < |rows|
      ensures Key(source, rows[i]) == Key(source, accepted[i])
              && (Key(source, rows[i]) in before <==> Key(source, rows[i]) in now)
    {
      assert accepted[i] in accepted;
    }
    SameWhereKnown(rows, accepted, source, before, now);
    NoNewKeys(rows, source, m, before, now);
    IssuesLocal(rows, source, m, before, now);
    SameKeysKnown(accepted, source, before, now);
  }

  lemma SameWhereKnown(rows: seq<StagedRow>, accepted: seq<StagedRow>, source: Source, before: Facts, now: Facts)
    requires FactsGrow(before, now) && |accepted| == |rows|
    requires forall i | 0 <= i < |rows| ::
               Key(source, rows[i]) == Key(source, accepted[i])
               && (Key(source, rows[i]) in before <==> Key(source, rows[i]) in now)
    ensures forall r | r in rows :: SameAnswers(r, source, before, now)
    ensures forall r | r in accepted :: Key(source, r) in before <==> Key(source, r) in now
  {
    hide Key;
  }

  lemma NoNewKeys(rows: seq<StagedRow>, source: Source, m: Master, before: Facts, now: Facts)
    requires forall r | r in rows :: SameAnswers(r, source, before, now)
    ensures !AnyConflictAppears(rows, source, m, before, now)
  {
    hide Resolves, FactMatches;
    forall r | r in rows && Key(source, r) !in before && Resolves(r, m)
      ensures !ConflictAppears(r, source, m, before, now)
    {
      ResolvesFacts(r, m);
      SameRecord(r, m);
    }
  }

  /** A plan that rejects is the plan of a later state exactly when no conflict appeared meanwhile. */
  lemma RejectPlanKept(rows: seq<StagedRow>, source: Source, m: Master, before: Facts, now: Facts, maximum: nat)
    requires FactsGrow(before, now) && Planned(rows, source, m, before, maximum).RejectPlan?
    ensures var plan, later := Planned(rows, source, m, before, maximum), Planned(rows, source, m, now, maximum);
            && later.RejectPlan?
            && (if AnyConflictAppears(rows, source, m, before, now) then plan.counts.issues < later.counts.issues
                else later == plan)
  {
    hide AllRowIssues, InvalidCount, ValidatedRows, AnyConflictAppears, FactsGrow, IssueCollection.Release;
    ValidationOverTime(rows, source, m, before, now);
  }

  // ----- A commit and its atomic publication -----

  /** The plan a locked publication made from its snapshot. */
  ghost function SnapshotPlan(s: System, w: Worker, maximum: nat): Plan
    requires SystemInv(s) && InTransaction(s, w) && s.sessions[w].txn.value.locked
  {
    LockedAttempt(s, w);
    PlanOf(s.sessions[w].txn.value.snapshot, s.sessions[w].k, s.sessions[w].txn.value.snapshot.master, maximum)
  }

  /** The attempt of a locked publication, as it was in the snapshot. */
  lemma LockedAttempt(s: System, w: Worker)
    requires SystemInv(s) && InTransaction(s, w) && s.sessions[w].txn.value.locked
    ensures var session := s.sessions[w];
            var k, before, db := session.k, session.txn.value.snapshot, s.db;
            && k.job in before.jobs && k.job in db.jobs && k == Newest(before, k.job) && k == Newest(db, k.job)
            && before.jobs[k.job].status == Processing && db.jobs[k.job] == before.jobs[k.job]
            && k in before.staged && k in before.issues && k in before.attempts && k.job in before.imports
            && k in db.staged && k in db.issues && k in db.attempts && k.job in db.imports
            && before.imports[k.job].source == session.source && db.imports[k.job].source == session.source
            && db.staged[k] == before.staged[k] && db.issues[k] == before.issues[k]
            && RowsUnique(db.staged[k]) && InRowOrder(db.staged[k]) && FactsGrow(before.facts, db.facts)
  {
    hide Inv, HoldsLease, SameJob, SameSource, FactsGrow, AttemptMatchesJob, AttemptData, Coupled, JobConstraints,
         RowsUnique, InRowOrder;
    LockedRowsCurrent(s, w);
    var session := s.sessions[w];
    var k, before := session.k, session.txn.value.snapshot;
    LeasedJob(before, k.job, session.token, session.txn.value.started);
    NewestFacts(before, k.job);
    NewestRows(before, k, before.jobs[k.job], before.imports[k.job].source);
    SameAttemptOf(before, s.db, k);
    SameJobStatus(before, s.db, k.job);
  }

  lemma NewestRows(db: Db, k: AttemptKey, job: Job, source: Source)
    requires k in db.attempts && AttemptData(db, k, job, source)
    ensures k in db.staged && RowsUnique(db.staged[k]) && InRowOrder(db.staged[k])
  {
  }

  /** The atomic publication applies the plan made from the facts of now. */
  lemma AtomicPlan(s: System, w: Worker, maximum: nat, finished: Time)
    requires SystemInv(s) && InTransaction(s, w) && s.sessions[w].txn.value.locked && maximum >= 1
    ensures var session := s.sessions[w];
            var k, m := session.k, session.txn.value.snapshot.master;
            && k.job in s.db.jobs && k in s.db.attempts && k in s.db.staged && k in s.db.issues
            && AtomicPublication(s, w, maximum, finished)
               == ApplyPlan(s.db, k, Planned(s.db.staged[k], session.source, m, s.db.facts, maximum), finished)
  {
    hide Inv, ApplyPlan, HoldsLease, SameJob, SameSource, FactsGrow, Planned, RunningKeys, AttemptData,
         AttemptMatchesJob, Coupled, JobConstraints, RowsUnique, InRowOrder;
    LockedRowsCurrent(s, w);
    LockedAttempt(s, w);
    LiveClaimDecides(s.db, s.sessions[w].k.job, s.sessions[w].token, s.sessions[w].txn.value.started);
  }

  /** The job's counters are those of the plan. */
  lemma AppliedCounts(db: Db, k: AttemptKey, plan: Plan, finished: Time)
    requires k.job in db.jobs && k in db.attempts && k in db.staged && k in db.issues
             && ApplyPlan(db, k, plan, finished).Ok?
    ensures var d := ApplyPlan(db, k, plan, finished).value;
            k.job in d.jobs && d.jobs[k.job].counts == plan.counts
            && d.jobs[k.job].status == (if plan.PublishPlan? then Published else Rejected)
  {
    hide IssuesUnique, ValidFor, FinishedAttempt;
  }

  /**
    A commit has the effect of a one-step publication at its commit, with the master
    data of its snapshot, exactly when no row that had no fact in the snapshot meets
    a different fact now. A commit that publishes always has it.
   */
  lemma CommitRefinesExactly(s: System, t: System, w: Worker, maximum: nat, finished: Time)
    requires SystemInv(s) && CommitNext(s, w, maximum, finished, t)
    ensures s.sessions[w].k in s.db.staged
    ensures var session := s.sessions[w];
            AtomicPublication(s, w, maximum, finished) == Ok(t.db)
            <==> !AnyConflictAppears(s.db.staged[session.k], session.source, session.txn.value.snapshot.master,
                                     session.txn.value.snapshot.facts,
                                     s.db.facts)
    ensures var j := s.sessions[w].k.job;
            j in t.db.jobs
            && (t.db.jobs[j].status == Published ==> AtomicPublication(s, w, maximum, finished) == Ok(t.db))
  {
    hide SystemInv, PlanOf, ApplyPlan, PlanFits, Install, Collides, SnapshotOutcome, AtomicPublication,
         AnyConflictAppears, Planned, FactsGrow, RowsUnique, InRowOrder;
    CommitApplies(s, w, maximum, finished);
    AtomicPlan(s, w, maximum, finished);
    LockedAttempt(s, w);
    var session := s.sessions[w];
    var k, before := session.k, session.txn.value.snapshot;
    var rows, m := s.db.staged[k], before.master;
    var plan, now :=
      Planned(rows, session.source, m, before.facts, maximum), Planned(rows, session.source, m, s.db.facts, maximum);
    PlanIsPlanned(before, k, m, maximum);
    AppliedCounts(s.db, k, plan, finished);
    if plan.PublishPlan? {
      PublishPlanKept(rows, session.source, m, before.facts, s.db.facts, maximum);
    } else {
      RejectPlanKept(rows, session.source, m, before.facts, s.db.facts, maximum);
      if ApplyPlan(s.db, k, now, finished).Ok? {
        AppliedCounts(s.db, k, now, finished);
      }
    }
  }

  lemma PlanIsPlanned(db: Db, k: AttemptKey, m: Master, maximum: nat)
    requires k.job in db.imports && k in db.staged
    ensures PlanOf(db, k, m, maximum) == Planned(db.staged[k], db.imports[k.job].source, m, db.facts, maximum)
  {
    hide Planned;
  }

  // ----- When a publication can commit -----

  /** The unique constraints that the plan of a locked publication meets in the current database. */
  ghost predicate CanCommit(s: System, w: Worker, maximum: nat)
    requires SystemInv(s) && InTransaction(s, w) && s.sessions[w].txn.value.locked
  {
    LockedAttempt(s, w);
    match SnapshotPlan(s, w, maximum)
    case RejectPlan(_, issues, _) => IssuesUnique(s.db.issues[s.sessions[w].k] + issues)
    case PublishPlan(_, inserted, _) => NoneKnown(inserted, s.db.facts)
  }

  /**
    A locked publication can commit exactly when its unique constraints hold. Its
    lease may have run out, and its counters are always accepted.
   */
  lemma CommitsExactly(s: System, w: Worker, maximum: nat, finished: Time)
    requires SystemInv(s) && InTransaction(s, w) && s.sessions[w].txn.value.locked && maximum >= 1
    ensures (exists t :: Next(s, Commit(w, maximum, finished), t)) <==> CanCommit(s, w, maximum)
  {
    hide Inv, ApplyPlan, PlanFits, HoldsLease, SameJob, Install, Collides, SameSource, PublishOnce, FactsGrow, Planned,
         IssuesUnique, NoneKnown, SystemInv, PlanOf, SnapshotOutcome;
    LockedAttempt(s, w);
    var session := s.sessions[w];
    var k, before := session.k, session.txn.value.snapshot;
    OutcomeApplies(s, w, maximum, finished);
    if SnapshotOutcome(session, maximum, finished).Ok? {
      CommitApplies(s, w, maximum, finished);
      var after := SnapshotOutcome(session, maximum, finished).value;
      var t := System(Install(s.db, k, before, after), Bump(s.versions, {k.job}),
                      s.sessions[w := session.(txn := None)]);
      assert !Collides(s.db, before, after) ==> Next(s, Commit(w, maximum, finished), t);
    }
  }

  /** Seen from its snapshot, a locked publication fails only for an issue that is already stored. */
  lemma OutcomeApplies(s: System, w: Worker, maximum: nat, finished: Time)
    requires SystemInv(s) && InTransaction(s, w) && s.sessions[w].txn.value.locked && maximum >= 1
    ensures s.sessions[w].k in s.db.issues
    ensures var plan := SnapshotPlan(s, w, maximum);
            SnapshotOutcome(s.sessions[w], maximum, finished).Ok?
            <==> plan.RejectPlan? ==> IssuesUnique(s.db.issues[s.sessions[w].k] + plan.issues)
  {
    hide Inv, PlanFits, HoldsLease, SameJob, SameSource, FactsGrow, Planned, IssuesUnique, ValidFor, SystemInv,
         RunningKeys, PlanOf, FinishedAttempt, FinishedJob;
    LockedRowsCurrent(s, w);
    LockedAttempt(s, w);
    var session := s.sessions[w];
    var k, before := session.k, session.txn.value.snapshot;
    LiveClaimDecides(before, k.job, session.token, session.txn.value.started);
    SnapshotPlanFits(s, w, maximum);
    PlanCounts(before.staged[k], session.source, before.facts, SnapshotPlan(s, w, maximum));
  }

  lemma SnapshotPlanFits(s: System, w: Worker, maximum: nat)
    requires SystemInv(s) && InTransaction(s, w) && s.sessions[w].txn.value.locked && maximum >= 1
    ensures var before, k := s.sessions[w].txn.value.snapshot, s.sessions[w].k;
            k in before.staged
            && PlanFits(before.staged[k], s.sessions[w].source, before.facts, SnapshotPlan(s, w, maximum))
  {
    hide Inv, PlanFits, HoldsLease, SameJob, SameSource, FactsGrow, Planned, SystemInv, RowsUnique, InRowOrder,
         FreshRows, AttemptData, AttemptMatchesJob, Coupled, JobConstraints;
    LockedRowsCurrent(s, w);
    LockedAttempt(s, w);
    var k, before := s.sessions[w].k, s.sessions[w].txn.value.snapshot;
    NewestFacts(before, k.job);
    RunningRowsFresh(before, k, before.jobs[k.job], before.imports[k.job].source);
    PlannedFits(before.staged[k], s.sessions[w].source, before.master, before.facts, maximum);
  }

  lemma PlanCounts(rows: seq<StagedRow>, source: Source, facts: Facts, plan: Plan)
    requires PlanFits(rows, source, facts, plan)
    ensures ValidFor(plan.counts, if plan.PublishPlan? then Published else Rejected)
  {
    hide StagedRowConstraints, KeepsValues, RowsLinked, ValidFor;
  }

  /** An attempt without stored issues whose source has no fact entered by hand can always commit. */
  lemma UndisturbedCommits(s: System, w: Worker, maximum: nat, finished: Time)
    requires SystemInv(s) && InTransaction(s, w) && s.sessions[w].txn.value.locked && maximum >= 1
             && s.sessions[w].txn.value.undisturbed
    requires s.sessions[w].k in s.db.issues && s.db.issues[s.sessions[w].k] == []
    ensures CanCommit(s, w, maximum)
    ensures exists t :: Next(s, Commit(w, maximum, finished), t)
  {
    hide Inv, PlanFits, HoldsLease, SameJob, SameSource, FactsGrow, Planned, SystemInv, IssuesUnique, NoneKnown, Next,
         PlanOf;
    LockedRowsCurrent(s, w);
    LockedAttempt(s, w);
    SnapshotPlanFits(s, w, maximum);
    var before, plan := s.sessions[w].txn.value.snapshot, SnapshotPlan(s, w, maximum);
    if plan.PublishPlan? {
      FittingInserts(before.staged[s.sessions[w].k], s.sessions[w].source, before.facts, plan);
      UndisturbedNeverCollides(before.facts, s.db.facts, plan.inserted, s.sessions[w].source);
    } else {
      PlanIssues(before.staged[s.sessions[w].k], s.sessions[w].source, before.facts, plan);
      assert [] + plan.issues == plan.issues;
    }
    CommitsExactly(s, w, maximum, finished);
  }

  lemma PlanIssues(rows: seq<StagedRow>, source: Source, facts: Facts, plan: Plan)
    requires PlanFits(rows, source, facts, plan) && plan.RejectPlan?
    ensures IssuesUnique(plan.issues)
  {
    hide StagedRowConstraints, KeepsValues, RowsLinked, ValidFor, IssuesUnique;
  }

  // ----- Trying once more -----

  function Aborted(s: System, w: Worker): System
    requires w in s.sessions
  {
    s.(sessions := s.sessions[w := s.sessions[w].(txn := None)])
  }

  function Begun(s: System, w: Worker, now: Time, locked: bool): System
    requires w in s.sessions
  {
    s.(sessions := s.sessions[w := s.sessions[w].(txn := Some(Txn(s.db, Version(s, s.sessions[w].k.job), now, locked,
                                                                  true)))])
  }

  /** The job of a session is locked by no other session. */
  lemma OnlyHolder(s: System, w: Worker, v: Worker)
    requires SystemInv(s) && w in s.sessions && v in s.sessions && s.sessions[v].k.job == s.sessions[w].k.job
    ensures v == w
  {
    hide Inv, TxnInv;
    assert SessionInv(s, w) && SessionInv(s, v);
  }

  /**
    The second attempt after a duplicate key: it aborts, takes a new snapshot under
    the source lock it still has, and can commit if its lease is still live.
   */
  lemma RetryCommits(s: System, w: Worker, now: Time, maximum: nat, finished: Time)
    requires SystemInv(s) && InTransaction(s, w) && s.sessions[w].txn.value.locked && maximum >= 1
    requires s.sessions[w].k in s.db.issues && s.db.issues[s.sessions[w].k] == []
    requires HoldsLease(s.db, s.sessions[w].k.job, s.sessions[w].token, now)
    ensures var a := Aborted(s, w);
            && Next(s, Abort(w), a)
            && Next(a, Begin(w, now), Begun(a, w, now, false))
            && Next(Begun(a, w, now, false), LockRow(w), Begun(a, w, now, true))
            && exists t :: Next(Begun(a, w, now, true), Commit(w, maximum, finished), t)
  {
    hide SystemInv, HoldsLease, CommitNext, Inv, SameJob, SameSource, FactsGrow;
    LockedAttempt(s, w);
    var a := Aborted(s, w);
    var b, c := Begun(a, w, now, false), Begun(a, w, now, true);
    StepSafe(s, Abort(w), a);
    StepSafe(a, Begin(w, now), b);
    forall v | v in b.sessions && b.sessions[v].k.job == b.sessions[w].k.job ensures v == w {
      OnlyHolder(b, w, v);
    }
    assert !Locked(b, b.sessions[w].k.job);
    assert c == b.(sessions := b.sessions[w := b.sessions[w].(txn := Some(b.sessions[w].txn.value.(locked := true)))]);
    assert LockNext(b, w, c);
    StepSafe(b, LockRow(w), c);
    UndisturbedCommits(c, w, maximum, finished);
  }
}
