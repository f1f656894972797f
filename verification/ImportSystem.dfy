/**
  Many workers, one database. A publication is several steps: take the source
  lock, take a snapshot, lock the job row, commit or fail, release. Every other
  transaction is one step, and anything may happen in between.
 */
module ImportSystem {
  import opened Results
  import opened Tables
  import opened QueueSpec
  import opened QueueInvariant
  import opened QueueSafety
  import opened QueueFrames
  import opened Publication
  import opened PublishTransaction

  type Worker = nat

  /** A repeatable-read transaction; `undisturbed` until a fact of its source is entered by hand. */
  datatype Txn = Txn(snapshot: Db, version: nat, started: Time, locked: bool, undisturbed: bool)

  /** A worker that holds the advisory lock of a source. */
  datatype Session = Session(source: Source, k: AttemptKey, token: Token, txn: Option<Txn>)

  /** `versions` counts the committed writes of each job row and of its running attempt row. */
  datatype System = System(db: Db, versions: map<ImportId, nat>, sessions: map<Worker, Session>)

  datatype Step =
    | Transact(op: Op, now: Time)
    | EditMaster(master: Master)
    | EnterFact(key: FactKey, fact: Fact)
    | Acquire(w: Worker, k: AttemptKey, token: Token)
    | Begin(w: Worker, now: Time)
    | LockRow(w: Worker)
    | Commit(w: Worker, maximum: nat, finished: Time)
    | Abort(w: Worker)
    | Release(w: Worker)
    | Crash(w: Worker)

  function Version(s: System, j: ImportId): nat {
    if j in s.versions then s.versions[j] else 0
  }

  function Bump(versions: map<ImportId, nat>, jobs: set<ImportId>): map<ImportId, nat> {
    map j | j in versions.Keys + jobs :: (if j in versions then versions[j] else 0) + (if j in jobs then 1 else 0)
  }

  predicate Locked(s: System, j: ImportId) {
    exists w | w in s.sessions :: s.sessions[w].k.job == j && s.sessions[w].txn.Some? && s.sessions[w].txn.value.locked
  }

  /** The rows a committing publication writes over the current database. */
  function Install(db: Db, k: AttemptKey, before: Db, after: Db): Db
    requires k.job in after.jobs && k in after.attempts && k in after.staged && k in after.issues
  {
    db.(jobs := db.jobs[k.job := after.jobs[k.job]], attempts := db.attempts[k := after.attempts[k]],
        staged := db.staged[k := after.staged[k]], issues := db.issues[k := after.issues[k]],
        facts := db.facts + (after.facts - before.facts.Keys))
  }

  predicate InTransaction(s: System, w: Worker) {
    w in s.sessions && s.sessions[w].txn.Some?
  }

  /** What the publication would leave, seen from its own snapshot. */
  ghost function SnapshotOutcome(session: Session, maximum: nat, finished: Time): QueueSpec.Commit
    requires session.txn.Some?
  {
    var txn := session.txn.value;
    PublishOnce(txn.snapshot, session.k, session.token, txn.snapshot.master, maximum, txn.started, finished)
  }

  /** The unique constraint on facts meets a key that another transaction committed first. */
  predicate Collides(db: Db, before: Db, after: Db) {
    exists f | f in after.facts && f !in before.facts :: f in db.facts
  }

  function Disturb(session: Session, source: Source): Session {
    if session.txn.Some? && session.source == source
    then session.(txn := Some(session.txn.value.(undisturbed := false))) else session
  }

  /** One transaction of any process; it waits while another session holds a row it must lock. */
  ghost predicate TransactNext(s: System, op: Op, now: Time, t: System) {
    && Enabled(s.db, op, now) && (forall j | j in RowLocks(op) :: !Locked(s, j))
    && t == s.(db := After(s.db, Perform(s.db, op, now)), versions := Bump(s.versions, RowLocks(op)))
  }

  predicate EnterNext(s: System, key: FactKey, fact: Fact, t: System) {
    && key !in s.db.facts
    && t == s.(db := s.db.(facts := s.db.facts[key := fact]),
               sessions := map w | w in s.sessions :: Disturb(s.sessions[w], key.source))
  }

  predicate AcquireNext(s: System, w: Worker, k: AttemptKey, token: Token, t: System) {
    && w !in s.sessions && k.job in s.db.imports
    && (forall v | v in s.sessions :: s.sessions[v].source != s.db.imports[k.job].source)
    && t == s.(sessions := s.sessions[w := Session(s.db.imports[k.job].source, k, token, None)])
  }

  predicate BeginNext(s: System, w: Worker, now: Time, t: System) {
    && w in s.sessions && s.sessions[w].txn.None?
    && t == s.(sessions := s.sessions[w := s.sessions[w].(txn := Some(Txn(s.db, Version(s, s.sessions[w].k.job), now,
                                                                          false, true)))])
  }

  /**
    Locking the job row; if it was written since the snapshot, access could not be
    serialized and the transaction aborts.
   */
  predicate LockNext(s: System, w: Worker, t: System) {
    && InTransaction(s, w)
    && var session := s.sessions[w];
       var txn := session.txn.value;
       && HoldsLease(txn.snapshot, session.k.job, session.token, txn.started)
       && session.k == Newest(txn.snapshot, session.k.job)
       && !Locked(s, session.k.job)
       && txn.version == Version(s, session.k.job)
       && t == s.(sessions := s.sessions[w := session.(txn := Some(txn.(locked := true)))])
  }

  ghost predicate CommitNext(s: System, w: Worker, maximum: nat, finished: Time, t: System) {
    && InTransaction(s, w) && maximum >= 1
    && var session := s.sessions[w];
       var outcome := SnapshotOutcome(session, maximum, finished);
       && session.txn.value.locked && outcome.Ok?
       && var k, before, after := session.k, session.txn.value.snapshot, outcome.value;
          && k.job in after.jobs && k in after.attempts && k in after.staged && k in after.issues
          && !Collides(s.db, before, after)
          && t == System(Install(s.db, k, before, after), Bump(s.versions, {k.job}),
                         s.sessions[w := session.(txn := None)])
  }

  predicate AbortNext(s: System, w: Worker, t: System) {
    InTransaction(s, w) && t == s.(sessions := s.sessions[w := s.sessions[w].(txn := None)])
  }

  ghost predicate Next(s: System, step: Step, t: System) {
    match step
    case Transact(op, now) => TransactNext(s, op, now, t)
    case EditMaster(master) => t == s.(db := s.db.(master := master))
    case EnterFact(key, fact) => EnterNext(s, key, fact, t)
    case Acquire(w, k, token) => AcquireNext(s, w, k, token, t)
    case Begin(w, now) => BeginNext(s, w, now, t)
    case LockRow(w) => LockNext(s, w, t)
    case Commit(w, maximum, finished) => CommitNext(s, w, maximum, finished, t)
    case Abort(w) => AbortNext(s, w, t)
    case Release(w) => w in s.sessions && s.sessions[w].txn.None? && t == s.(sessions := s.sessions - {w})
    case Crash(w) => w in s.sessions && t == s.(sessions := s.sessions - {w})
  }

  // ----- The invariant -----

  ghost predicate TxnInv(s: System, source: Source, k: AttemptKey, token: Token, txn: Txn) {
    var j := k.job;
    && Inv(txn.snapshot) && Evolves(txn.snapshot, s.db) && j in txn.snapshot.imports
    && txn.snapshot.imports[j].source == source
    && txn.version <= Version(s, j)
    && (txn.version == Version(s, j) && j in txn.snapshot.jobs && txn.snapshot.jobs[j].status == Processing
        ==> SameJob(txn.snapshot, s.db, j))
    && (txn.locked ==>
          && txn.version == Version(s, j) && HoldsLease(txn.snapshot, j, token, txn.started)
          && k == Newest(txn.snapshot, j))
    && (txn.undisturbed ==> SameSource(txn.snapshot.facts, s.db.facts, source))
  }

  ghost predicate SessionInv(s: System, w: Worker)
    requires w in s.sessions
  {
    var session := s.sessions[w];
    && session.k.job in s.db.imports && s.db.imports[session.k.job].source == session.source
    && (session.txn.Some? ==> TxnInv(s, session.source, session.k, session.token, session.txn.value))
  }

  predicate OneHolder(s: System) {
    forall v, w | v in s.sessions && w in s.sessions && s.sessions[v].source == s.sessions[w].source :: v == w
  }

  ghost predicate SystemInv(s: System) {
    Inv(s.db) && OneHolder(s) && forall w | w in s.sessions :: SessionInv(s, w)
  }

  // ----- A transaction survives the steps of others -----

  lemma SameJobThen(a: Db, b: Db, c: Db, j: ImportId)
    requires SameJob(a, b, j) && SameJob(b, c, j)
    ensures SameJob(a, c, j)
  {
    forall n: nat ensures SameAttempt(a, c, AttemptKey(j, n)) {
      assert SameAttempt(a, b, AttemptKey(j, n)) && SameAttempt(b, c, AttemptKey(j, n));
    }
  }

  lemma SameSourceThen(a: Facts, b: Facts, c: Facts, source: Source)
    requires SameSource(a, b, source) && SameSource(b, c, source)
    ensures SameSource(a, c, source)
  {
    forall id: string
      ensures FactKey(source, id) in a <==> FactKey(source, id) in c
      ensures FactKey(source, id) in a && FactKey(source, id) in c ==> a[FactKey(source, id)] == c[FactKey(source, id)]
    {
      assert FactKey(source, id) in a <==> FactKey(source, id) in b;
      assert FactKey(source, id) in b <==> FactKey(source, id) in c;
    }
  }

  ghost predicate StepKeeps(s: System, t: System, source: Source, j: ImportId, locked: bool, undisturbed: bool) {
    && Evolves(s.db, t.db) && Version(s, j) <= Version(t, j)
    && (Version(t, j) == Version(s, j) && j in s.db.jobs && s.db.jobs[j].status == Processing
        ==> SameJob(s.db, t.db, j))
    && (locked ==> Version(t, j) == Version(s, j))
    && (undisturbed ==> SameSource(s.db.facts, t.db.facts, source))
  }

  lemma TxnKept(s: System, t: System, source: Source, k: AttemptKey, token: Token, txn: Txn, undisturbed: bool)
    requires Inv(s.db) && TxnInv(s, source, k, token, txn) && StepKeeps(s, t, source, k.job, txn.locked, undisturbed)
             && (undisturbed ==> txn.undisturbed)
    ensures TxnInv(t, source, k, token, txn.(undisturbed := undisturbed))
  {
    hide Inv, Evolves, HoldsLease, SameJob, SameSource;
    var j := k.job;
    InvParts(s.db);
    EvolvesTransitive(txn.snapshot, s.db, t.db);
    if txn.version == Version(t, j) && j in txn.snapshot.jobs && txn.snapshot.jobs[j].status == Processing {
      SameJobStatus(txn.snapshot, s.db, j);
      SameJobThen(txn.snapshot, s.db, t.db, j);
    }
    if undisturbed {
      SameSourceThen(txn.snapshot.facts, s.db.facts, t.db.facts, source);
    }
  }

  lemma SameJobStatus(a: Db, b: Db, j: ImportId)
    requires SameJob(a, b, j) && j in a.jobs
    ensures j in b.jobs && b.jobs[j] == a.jobs[j]
    ensures forall n: nat :: SameAttempt(a, b, AttemptKey(j, n))
    ensures (j in a.imports <==> j in b.imports) && (j in a.imports ==> b.imports[j] == a.imports[j])
  {
  }

  lemma SourceKept(a: Db, b: Db, j: ImportId)
    requires Evolves(a, b) && j in a.imports
    ensures j in b.imports && b.imports[j].source == a.imports[j].source
  {
    hide FactsGrow, UsedGrow, UsedTokens;
    assert JobEvolves(a, b, j);
  }

  lemma SessionKept(s: System, t: System, w: Worker, undisturbed: bool)
    requires Inv(s.db) && w in s.sessions && SessionInv(s, w) && w in t.sessions
    requires s.sessions[w].txn.None? ==> Evolves(s.db, t.db) && t.sessions[w] == s.sessions[w]
    requires s.sessions[w].txn.Some? ==>
               && StepKeeps(s, t, s.sessions[w].source, s.sessions[w].k.job, s.sessions[w].txn.value.locked,
                            undisturbed)
               && (undisturbed ==> s.sessions[w].txn.value.undisturbed)
               && t.sessions[w] == s.sessions[w].(txn := Some(s.sessions[w].txn.value.(undisturbed := undisturbed)))
    ensures SessionInv(t, w)
  {
    hide Inv, Evolves, TxnInv;
    var session := s.sessions[w];
    SourceKept(s.db, t.db, session.k.job);
    if session.txn.Some? {
      TxnKept(s, t, session.source, session.k, session.token, session.txn.value, undisturbed);
    }
  }

  // ----- Each kind of step -----

  lemma BumpedVersions(s: System, t: System, jobs: set<ImportId>, j: ImportId)
    requires t.versions == Bump(s.versions, jobs)
    ensures Version(t, j) == Version(s, j) + if j in jobs then 1 else 0
  {
  }

  lemma SameFacts(facts: Facts, source: Source)
    ensures SameSource(facts, facts, source)
  {
  }

  lemma TransactKeeps(s: System, t: System, op: Op, now: Time, w: Worker)
    requires Inv(s.db) && TransactNext(s, op, now, t) && w in s.sessions && SessionInv(s, w)
    requires Evolves(s.db, t.db) && Keeps(s.db, t.db, RowLocks(op))
    ensures SessionInv(t, w)
  {
    hide Inv, Evolves, Enabled, Perform, SameJob, TxnInv, SameSource, RowLocks, SessionInv, Bump, Version;
    var session := s.sessions[w];
    BumpedVersions(s, t, RowLocks(op), session.k.job);
    SameFacts(s.db.facts, session.source);
    SessionKept(s, t, w, session.txn.Some? && session.txn.value.undisturbed);
  }

  lemma TransactStep(s: System, t: System, op: Op, now: Time)
    requires SystemInv(s) && TransactNext(s, op, now, t)
    ensures SystemInv(t) && Evolves(s.db, t.db)
  {
    hide Inv, Evolves, Enabled, Perform, SessionInv, RowLocks, Keeps, Bump;
    PerformSafe(s.db, op, now);
    EvolvesReflexive(s.db);
    PerformKeeps(s.db, op, now);
    forall w | w in t.sessions ensures SessionInv(t, w) {
      TransactKeeps(s, t, op, now, w);
    }
  }

  lemma MasterIsFree(db: Db, master: Master)
    requires Inv(db)
    ensures Inv(db.(master := master)) && Evolves(db, db.(master := master))
  {
    hide JobInv, JobEvolves, TokensUnique, ActiveUnique, Shape, FactsGrow, Inv, Evolves, TokensKept, ActiveKept;
    var d := db.(master := master);
    InvParts(db);
    SameRowsKept(db, d);
    FactsStay(db.facts);
    Assemble(db, d, {});
  }

  lemma FactsStay(facts: Facts)
    ensures FactsGrow(facts, facts)
  {
  }

  lemma FactsMayGrow(db: Db, facts: Facts)
    requires Inv(db) && FactsGrow(db.facts, facts)
    ensures Inv(db.(facts := facts)) && Evolves(db, db.(facts := facts))
  {
    hide JobInv, JobEvolves, TokensUnique, ActiveUnique, Shape, FactsGrow, Inv, Evolves, TokensKept, ActiveKept;
    var d := db.(facts := facts);
    InvParts(db);
    SameRowsKept(db, d);
    Assemble(db, d, {});
  }

  lemma SameRowsKept(db: Db, d: Db)
    requires d == db.(facts := d.facts, master := d.master)
    ensures TokensKept(db, d) && (Shape(db) ==> Shape(d)) && (ActiveUnique(db) ==> ActiveUnique(d))
    ensures forall j: ImportId :: SameJob(db, d, j)
  {
    hide UsedTokens, IntakeConstraints;
  }

  lemma EditStep(s: System, t: System, master: Master)
    requires SystemInv(s) && Next(s, EditMaster(master), t)
    ensures SystemInv(t) && Evolves(s.db, t.db)
  {
    hide Inv, Evolves, SessionInv, TxnInv, SameJob, SameSource;
    MasterIsFree(s.db, master);
    SameRowsKept(s.db, t.db);
    forall w | w in t.sessions ensures SessionInv(t, w) {
      QuietSession(s, t, w);
    }
  }

  /** A step that writes neither job rows nor facts, nor this session. */
  lemma QuietSession(s: System, t: System, w: Worker)
    requires Inv(s.db) && w in s.sessions && SessionInv(s, w) && w in t.sessions && t.sessions[w] == s.sessions[w]
    requires Evolves(s.db, t.db) && t.versions == s.versions && t.db.facts == s.db.facts
    requires forall j: ImportId :: SameJob(s.db, t.db, j)
    ensures SessionInv(t, w)
  {
    hide Inv, Evolves, SameJob, TxnInv, SameSource, SessionInv;
    var session := s.sessions[w];
    SameFacts(s.db.facts, session.source);
    SessionKept(s, t, w, session.txn.Some? && session.txn.value.undisturbed);
  }

  lemma EnteredElsewhere(facts: Facts, key: FactKey, fact: Fact, source: Source)
    requires key !in facts
    ensures key.source != source ==> SameSource(facts, facts[key := fact], source)
    ensures FactsGrow(facts, facts[key := fact])
  {
  }

  lemma EnterKeeps(s: System, t: System, key: FactKey, fact: Fact, w: Worker)
    requires Inv(s.db) && EnterNext(s, key, fact, t) && w in s.sessions && SessionInv(s, w)
    requires Evolves(s.db, t.db) && forall j: ImportId :: SameJob(s.db, t.db, j)
    ensures SessionInv(t, w)
  {
    hide Inv, Evolves, SameJob, TxnInv, SameSource, SessionInv, FactsGrow;
    var session := s.sessions[w];
    EnteredElsewhere(s.db.facts, key, fact, session.source);
    SessionKept(s, t, w, session.txn.Some? && session.txn.value.undisturbed && session.source != key.source);
  }

  lemma EnterStep(s: System, t: System, key: FactKey, fact: Fact)
    requires SystemInv(s) && EnterNext(s, key, fact, t)
    ensures SystemInv(t) && Evolves(s.db, t.db)
  {
    hide Inv, Evolves, SessionInv, SameJob, FactsGrow;
    EnteredElsewhere(s.db.facts, key, fact, key.source);
    FactsMayGrow(s.db, t.db.facts);
    SameRowsKept(s.db, t.db);
    forall w | w in t.sessions ensures SessionInv(t, w) {
      EnterKeeps(s, t, key, fact, w);
    }
  }

  lemma AllSame(db: Db)
    ensures forall j: ImportId :: SameJob(db, db, j)
  {
  }

  /** Steps that only change the acting worker's own session. */
  lemma OthersKept(s: System, t: System, w: Worker)
    requires SystemInv(s) && t.db == s.db && t.versions == s.versions
    requires forall v | v in t.sessions && v != w :: v in s.sessions && t.sessions[v] == s.sessions[v]
    requires w in t.sessions ==> SessionInv(t, w)
    ensures forall v | v in t.sessions :: SessionInv(t, v)
  {
    hide Inv, Evolves, SessionInv, SameJob;
    EvolvesReflexive(s.db);
    AllSame(s.db);
    forall v | v in t.sessions && v != w ensures SessionInv(t, v) {
      QuietSession(s, t, v);
    }
  }

  lemma BegunSession(s: System, t: System, w: Worker, now: Time)
    requires SystemInv(s) && BeginNext(s, w, now, t)
    ensures SessionInv(t, w)
  {
    hide Inv, SameJob, SameSource, Evolves;
    EvolvesReflexive(s.db);
    AllSame(s.db);
    assert SessionInv(s, w);
    SameFacts(s.db.facts, s.sessions[w].source);
  }

  lemma LockedSession(s: System, t: System, w: Worker)
    requires SystemInv(s) && LockNext(s, w, t)
    ensures SessionInv(t, w)
  {
    hide Inv, SameJob, SameSource, Evolves, HoldsLease;
    assert SessionInv(s, w);
  }

  lemma IdleSession(s: System, t: System, w: Worker)
    requires SystemInv(s) && t.db == s.db && w in t.sessions && t.sessions[w].txn.None?
    requires w in s.sessions ==> t.sessions[w].source == s.sessions[w].source && t.sessions[w].k == s.sessions[w].k
    requires w !in s.sessions
             ==> t.sessions[w].k.job in s.db.imports && t.sessions[w].source == s.db.imports[t.sessions[w].k.job].source
    ensures SessionInv(t, w)
  {
    hide Inv, TxnInv;
    assert w in s.sessions ==> SessionInv(s, w);
  }

  lemma SessionStep(s: System, step: Step, t: System)
    requires SystemInv(s) && Next(s, step, t)
             && (step.Acquire? || step.Begin? || step.LockRow? || step.Abort? || step.Release? || step.Crash?)
    ensures SystemInv(t) && Evolves(s.db, t.db)
  {
    hide Inv, Evolves, HoldsLease, SessionInv, Locked, TransactNext, EnterNext, CommitNext;
    EvolvesReflexive(s.db);
    var w := step.w;
    match step {
      case Acquire(_, _, _) => IdleSession(s, t, w);
      case Begin(_, now) => BegunSession(s, t, w, now);
      case LockRow(_) => LockedSession(s, t, w);
      case Abort(_) => IdleSession(s, t, w);
      case _ =>
    }
    OthersKept(s, t, w);
  }

  // ----- Committing -----

  /** Between snapshot and commit nobody wrote the rows of the locked job. */
  lemma LockedRowsCurrent(s: System, w: Worker)
    requires SystemInv(s) && InTransaction(s, w) && s.sessions[w].txn.value.locked
    ensures var session := s.sessions[w];
            var txn := session.txn.value;
            && Inv(txn.snapshot) && SameJob(txn.snapshot, s.db, session.k.job)
            && FactsGrow(txn.snapshot.facts, s.db.facts)
            && HoldsLease(txn.snapshot, session.k.job, session.token, txn.started)
            && session.k == Newest(txn.snapshot, session.k.job)
            && HoldsLease(s.db, session.k.job, session.token, txn.started) && session.k == Newest(s.db, session.k.job)
            && session.k.job in txn.snapshot.imports && txn.snapshot.imports[session.k.job].source == session.source
            && (txn.undisturbed ==> SameSource(txn.snapshot.facts, s.db.facts, session.source))
  {
    hide Inv, SameJob, SameSource, JobEvolves, FactsGrow, UsedGrow;
    var session := s.sessions[w];
    assert SessionInv(s, w);
    SameJobStatus(session.txn.value.snapshot, s.db, session.k.job);
  }

  lemma LinkedGrows(rows: seq<StagedRow>, source: Source, facts: Facts, facts': Facts)
    requires RowsLinked(rows, true, source, facts) && FactsGrow(facts, facts')
    ensures RowsLinked(rows, true, source, facts')
  {
  }

  predicate NoneKnown(inserted: Facts, facts: Facts) {
    forall f | f in inserted :: f !in facts
  }

  lemma UnionGrows(a: Facts, b: Facts, inserted: Facts)
    requires FactsGrow(a, b) && NoneKnown(inserted, b)
    ensures FactsGrow(a + inserted, b + inserted)
  {
  }

  lemma PlanStillFits(rows: seq<StagedRow>, source: Source, before: Facts, now: Facts, plan: Plan)
    requires PlanFits(rows, source, before, plan) && FactsGrow(before, now)
    requires plan.PublishPlan? ==> NoneKnown(plan.inserted, now)
    ensures PlanFits(rows, source, now, plan)
  {
    hide StagedRowConstraints, FactLinked, KeepsValues, ValidFor, IssuesUnique, RowsLinked, FactsGrow;
    match plan
    case RejectPlan(after, _, _) => UnlinkedAnywhere(after, source, before, now);
    case PublishPlan(after, inserted, _) =>
      UnionGrows(before, now, inserted);
      LinkedGrows(after, source, before + inserted, now + inserted);
  }

  lemma UnlinkedAnywhere(rows: seq<StagedRow>, source: Source, before: Facts, now: Facts)
    ensures RowsLinked(rows, false, source, before) == RowsLinked(rows, false, source, now)
  {
  }

  lemma InstallIsApply(db: Db, before: Db, k: AttemptKey, plan: Plan, finished: Time)
    requires SameJob(before, db, k.job) && k.job in before.jobs && k in before.attempts && k in before.staged
             && k in before.issues
    requires ApplyPlan(before, k, plan, finished).Ok? && (plan.PublishPlan? ==> NoneKnown(plan.inserted, before.facts))
    ensures var after := ApplyPlan(before, k, plan, finished).value;
            && k.job in db.jobs && k in db.attempts && k in db.staged && k in db.issues
            && k.job in after.jobs && k in after.attempts && k in after.staged && k in after.issues
            && ApplyPlan(db, k, plan, finished) == Ok(Install(db, k, before, after))
            && (!Collides(db, before, after) <==> (plan.PublishPlan? ==> NoneKnown(plan.inserted, db.facts)))
  {
    hide ValidFor, IssuesUnique, FinishedJob, FinishedAttempt;
    SameAttemptOf(before, db, k);
    var after := ApplyPlan(before, k, plan, finished).value;
    if plan.PublishPlan? {
      assert after.facts - before.facts.Keys == plan.inserted;
      assert db.issues[k := after.issues[k]] == db.issues;
    } else {
      assert after.facts - before.facts.Keys == map[] && db.facts + map[] == db.facts;
    }
  }

  lemma SameAttemptOf(a: Db, b: Db, k: AttemptKey)
    requires SameJob(a, b, k.job)
    ensures SameAttempt(a, b, k) && (k.job in a.jobs ==> k.job in b.jobs && b.jobs[k.job] == a.jobs[k.job])
  {
    assert k == AttemptKey(k.job, k.number);
  }

  predicate InsertsOnly(inserted: Facts, source: Source) {
    forall f | f in inserted :: f.source == source
  }

  lemma InsertedElsewhere(facts: Facts, inserted: Facts, source: Source, other: Source)
    requires InsertsOnly(inserted, source) && other != source
    ensures SameSource(facts, facts + inserted, other)
  {
  }

  lemma UndisturbedNeverCollides(before: Facts, now: Facts, inserted: Facts, source: Source)
    requires SameSource(before, now, source) && InsertsOnly(inserted, source) && NoneKnown(inserted, before)
    ensures NoneKnown(inserted, now)
  {
    forall f | f in inserted ensures f !in now {
      assert f == FactKey(source, f.recordId);
    }
  }

  lemma FittingInserts(rows: seq<StagedRow>, source: Source, facts: Facts, plan: Plan)
    requires PlanFits(rows, source, facts, plan) && plan.PublishPlan?
    ensures NoneKnown(plan.inserted, facts) && InsertsOnly(plan.inserted, source)
  {
    hide StagedRowConstraints, FactLinked, KeepsValues, ValidFor, RowsLinked;
  }

  /** The plan of a locked publication, made from its snapshot, still fits the current database unless it collides. */
  lemma CommitApplies(s: System, w: Worker, maximum: nat, finished: Time)
    requires SystemInv(s) && InTransaction(s, w) && s.sessions[w].txn.value.locked && maximum >= 1
    requires SnapshotOutcome(s.sessions[w], maximum, finished).Ok?
    ensures var session := s.sessions[w];
            var k, before, after :=
              session.k, session.txn.value.snapshot, SnapshotOutcome(session, maximum, finished).value;
            && k.job in after.jobs && k in after.attempts && k in after.staged && k in after.issues
            && k.job in before.imports && k in before.staged
            && var plan := PlanOf(before, k, before.master, maximum);
               && k.job in s.db.jobs && k in s.db.attempts && k in s.db.staged && k in s.db.issues
               && k.job in s.db.imports
               && s.db.imports[k.job].source == session.source
               && PlanFits(s.db.staged[k], session.source, before.facts, plan)
               && ApplyPlan(s.db, k, plan, finished) == Ok(Install(s.db, k, before, after))
               && (!Collides(s.db, before, after) <==> (plan.PublishPlan? ==> NoneKnown(plan.inserted, s.db.facts)))
  {
    hide Inv, PlanOf, ApplyPlan, PlanFits, HoldsLease, SameJob, Install, Collides, SameSource, PublishOnce, FactsGrow;
    LockedRowsCurrent(s, w);
    var session := s.sessions[w];
    var txn, k := session.txn.value, session.k;
    var before := txn.snapshot;
    PublishOnceSafe(before, k, session.token, before.master, maximum, txn.started, finished);
    SameAttemptOf(before, s.db, k);
    LeasedJob(before, k.job, session.token, txn.started);
    SameJobStatus(before, s.db, k.job);
    var plan := PlanOf(before, k, before.master, maximum);
    if plan.PublishPlan? {
      FittingInserts(before.staged[k], session.source, before.facts, plan);
    }
    InstallIsApply(s.db, before, k, plan, finished);
  }

  lemma LeasedJob(db: Db, j: ImportId, token: Token, now: Time)
    requires HoldsLease(db, j, token, now)
    ensures j in db.jobs && db.jobs[j].status == Processing && db.jobs[j].leaseToken == Some(token)
  {
  }

  /** The plan a commit applies, from its snapshot to the current database. */
  lemma CommitPlan(s: System, t: System, w: Worker, maximum: nat, finished: Time) returns (plan: Plan)
    requires SystemInv(s) && CommitNext(s, w, maximum, finished, t)
    ensures var k := s.sessions[w].k;
            && Inv(s.db) && k.job in s.db.jobs && s.db.jobs[k.job].status == Processing && k == Newest(s.db, k.job)
            && k in s.db.attempts && k in s.db.staged && k in s.db.issues && k.job in s.db.imports
            && s.db.imports[k.job].source == s.sessions[w].source
            && PlanFits(s.db.staged[k], s.sessions[w].source, s.db.facts, plan)
            && ApplyPlan(s.db, k, plan, finished) == Ok(t.db)
  {
    hide Inv, PlanOf, ApplyPlan, PlanFits, HoldsLease, SameJob, Install, Collides, SnapshotOutcome, FactsGrow, Planned;
    var session := s.sessions[w];
    var k, before := session.k, session.txn.value.snapshot;
    LockedRowsCurrent(s, w);
    CommitApplies(s, w, maximum, finished);
    plan := PlanOf(before, k, before.master, maximum);
    LeasedJob(s.db, k.job, session.token, session.txn.value.started);
    PlanStillFits(s.db.staged[k], session.source, before.facts, s.db.facts, plan);
  }

  /** A commit that meets no collision leaves a safe database, even if facts of its source were entered by hand. */
  lemma CommitSafe(s: System, t: System, w: Worker, maximum: nat, finished: Time)
    requires SystemInv(s) && CommitNext(s, w, maximum, finished, t)
    ensures Inv(t.db) && Evolves(s.db, t.db)
    ensures forall j: ImportId | j != s.sessions[w].k.job :: SameJob(s.db, t.db, j)
    ensures exists inserted: Facts :: InsertsOnly(inserted, s.sessions[w].source) && t.db.facts == s.db.facts + inserted
  {
    hide Inv, Evolves, ApplyPlan, PlanFits, SameJob, SystemInv, SnapshotOutcome, Collides, Install, Bump;
    var plan := CommitPlan(s, t, w, maximum, finished);
    var k, source := s.sessions[w].k, s.sessions[w].source;
    AppliedFrame(s.db, k, plan, finished);
    match plan
    case RejectPlan(_, _, _) =>
      ApplyReject(s.db, k, plan, finished);
      assert s.db.facts == s.db.facts + map[] && InsertsOnly(map[], source);
    case PublishPlan(_, inserted, _) =>
      ApplyPublish(s.db, k, plan, finished);
      FittingInserts(s.db.staged[k], source, s.db.facts, plan);
  }

  lemma AppliedFrame(db: Db, k: AttemptKey, plan: Plan, finished: Time)
    requires k.job in db.jobs && k in db.attempts && k in db.staged && k in db.issues
             && ApplyPlan(db, k, plan, finished).Ok?
    ensures var d := ApplyPlan(db, k, plan, finished).value;
            && (forall j: ImportId | j != k.job :: SameJob(db, d, j))
            && d.facts == (if plan.PublishPlan? then db.facts + plan.inserted else db.facts)
  {
    hide ValidFor, IssuesUnique, FinishedJob, FinishedAttempt;
    var d := ApplyPlan(db, k, plan, finished).value;
    forall j: ImportId | j != k.job ensures SameJob(db, d, j) {
      forall n: nat ensures SameAttempt(db, d, AttemptKey(j, n)) {
      }
    }
  }

  lemma CommitKeeps(s: System, t: System, w: Worker, maximum: nat, finished: Time, v: Worker)
    requires SystemInv(s) && CommitNext(s, w, maximum, finished, t) && v in s.sessions && v != w && Evolves(s.db, t.db)
    requires forall j: ImportId | j != s.sessions[w].k.job :: SameJob(s.db, t.db, j)
    requires exists inserted: Facts ::
               InsertsOnly(inserted, s.sessions[w].source) && t.db.facts == s.db.facts + inserted
    ensures SessionInv(t, v)
  {
    hide Inv, Evolves, SameJob, TxnInv, SameSource, Collides, SnapshotOutcome, Install, Bump, Version, InsertsOnly;
    var mine, session := s.sessions[w], s.sessions[v];
    assert SessionInv(s, v) && SessionInv(s, w);
    assert session.source != mine.source && session.k.job != mine.k.job;
    var inserted: Facts :| InsertsOnly(inserted, mine.source) && t.db.facts == s.db.facts + inserted;
    InsertedElsewhere(s.db.facts, inserted, mine.source, session.source);
    BumpedVersions(s, t, {mine.k.job}, session.k.job);
    SessionKept(s, t, v, session.txn.Some? && session.txn.value.undisturbed);
  }

  lemma CommitStep(s: System, t: System, w: Worker, maximum: nat, finished: Time)
    requires SystemInv(s) && CommitNext(s, w, maximum, finished, t)
    ensures SystemInv(t) && Evolves(s.db, t.db)
  {
    hide Inv, Evolves, SameJob, TxnInv, Collides, SnapshotOutcome, Install, Bump;
    CommitSafe(s, t, w, maximum, finished);
    assert SessionInv(s, w);
    SourceKept(s.db, t.db, s.sessions[w].k.job);
    forall v | v in t.sessions && v != w ensures SessionInv(t, v) {
      CommitKeeps(s, t, w, maximum, finished, v);
    }
  }

  /** Every step of every worker, operator and administrator keeps the system invariant and evolves legally. */
  lemma StepSafe(s: System, step: Step, t: System)
    requires SystemInv(s) && Next(s, step, t)
    ensures SystemInv(t) && Evolves(s.db, t.db)
  {
    hide SystemInv, Evolves, TransactNext, EnterNext, AcquireNext, BeginNext, LockNext, CommitNext, AbortNext;
    match step
    case Transact(op, now) => TransactStep(s, t, op, now);
    case EditMaster(master) => EditStep(s, t, master);
    case EnterFact(key, fact) => EnterStep(s, t, key, fact);
    case Commit(w, maximum, finished) => CommitStep(s, t, w, maximum, finished);
    case _ => SessionStep(s, step, t);
  }
}
