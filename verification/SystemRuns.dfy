/** Whole runs of the system: what stays true from the empty queue on, whatever the interleaving. */
module SystemRuns {
  import opened Results
  import opened Tables
  import opened QueueSpec
  import opened QueueInvariant
  import opened QueueSafety
  import opened QueueFrames
  import opened QueueTermination
  import opened Publication
  import opened PublishTransaction
  import opened RetryDelay
  import opened ImportSystem

  ghost predicate IsRun(states: seq<System>, steps: seq<Step>) {
    |states| == |steps| + 1 && forall i | 0 <= i < |steps| :: Next(states[i], steps[i], states[i + 1])
  }

  /** An empty queue over earlier uploads, facts and master data. */
  function Initial(imports: map<ImportId, Intake>, facts: Facts, master: Master): System {
    System(Db(imports, map[], map[], map[], map[], facts, master), map[], map[])
  }

  predicate EarlierUploads(imports: map<ImportId, Intake>) {
    && (forall i | i in imports :: IntakeConstraints(imports[i]))
    && (forall i, j | i in imports && j in imports && ActiveIntake(imports[i]) && ActiveIntake(imports[j]) ::
          imports[i].source == imports[j].source && imports[i].sha256 == imports[j].sha256 ==> i == j)
  }

  lemma InitialSafe(imports: map<ImportId, Intake>, facts: Facts, master: Master)
    requires EarlierUploads(imports)
    ensures SystemInv(Initial(imports, facts, master))
  {
    hide IntakeConstraints;
  }

  // ----- Safety -----

  /** The invariant holds in every state of every run, and every two states of it are related. */
  lemma {:induction false} RunSafe(states: seq<System>, steps: seq<Step>, i: nat, k: nat)
    requires IsRun(states, steps) && SystemInv(states[0]) && i <= k < |states|
    ensures SystemInv(states[i]) && SystemInv(states[k]) && Evolves(states[i].db, states[k].db)
    decreases k
  {
    hide SystemInv, Evolves, Next;
    if k == 0 {
      EvolvesReflexive(states[0].db);
    } else {
      RunSafe(states, steps, if i < k then i else k - 1, k - 1);
      StepSafe(states[k - 1], steps[k - 1], states[k]);
      if i == k {
        EvolvesReflexive(states[k].db);
      } else {
        SystemShape(states[k - 1]);
        EvolvesTransitive(states[i].db, states[k - 1].db, states[k].db);
      }
    }
  }

  lemma SystemShape(s: System)
    requires SystemInv(s)
    ensures Inv(s.db) && Shape(s.db)
  {
    hide SessionInv, JobInv;
  }

  // ----- Facts -----

  /** The facts that the published jobs report as inserted. */
  ghost function InsertedBy(jobs: map<ImportId, Job>, keys: set<ImportId>): int {
    if keys == {} then 0
    else
      var j :| j in keys;
      Reported(jobs, j) + InsertedBy(jobs, keys - {j})
  }

  function Reported(jobs: map<ImportId, Job>, j: ImportId): int {
    if j in jobs && jobs[j].status == Published then jobs[j].counts.inserted else 0
  }

  ghost function InsertedTotal(db: Db): int {
    InsertedBy(db.jobs, db.jobs.Keys)
  }

  lemma {:induction false} InsertedRemove(jobs: map<ImportId, Job>, keys: set<ImportId>, j: ImportId)
    requires j in keys
    ensures InsertedBy(jobs, keys) == Reported(jobs, j) + InsertedBy(jobs, keys - {j})
    decreases |keys|
  {
    hide Reported;
    var i :| i in keys && InsertedBy(jobs, keys) == Reported(jobs, i) + InsertedBy(jobs, keys - {i});
    if i != j {
      InsertedRemove(jobs, keys - {i}, j);
      InsertedRemove(jobs, keys - {j}, i);
      assert keys - {i} - {j} == keys - {j} - {i};
    }
  }

  lemma {:induction false} InsertedSame(jobs: map<ImportId, Job>, jobs': map<ImportId, Job>, keys: set<ImportId>)
    requires forall j | j in keys :: Reported(jobs, j) == Reported(jobs', j)
    ensures InsertedBy(jobs, keys) == InsertedBy(jobs', keys)
    decreases |keys|
  {
    hide Reported;
    if keys != {} {
      var j :| j in keys;
      InsertedRemove(jobs, keys, j);
      InsertedRemove(jobs', keys, j);
      InsertedSame(jobs, jobs', keys - {j});
    }
  }

  lemma {:induction false} InsertedMore(jobs: map<ImportId, Job>, keys: set<ImportId>, more: set<ImportId>)
    requires keys <= more && forall j | j in more && j !in keys :: Reported(jobs, j) == 0
    ensures InsertedBy(jobs, more) == InsertedBy(jobs, keys)
    decreases |more|
  {
    hide Reported;
    if more != keys {
      var j :| j in more && j !in keys;
      InsertedRemove(jobs, more, j);
      InsertedMore(jobs, keys, more - {j});
    }
  }

  /** The total changes by what the reports of one job change. */
  lemma TotalChange(db: Db, d: Db, k: ImportId)
    requires forall j | j in db.jobs :: j in d.jobs
    requires forall j | j != k :: Reported(d.jobs, j) == Reported(db.jobs, j)
    ensures InsertedTotal(d) == InsertedTotal(db) - Reported(db.jobs, k) + Reported(d.jobs, k)
  {
    hide Reported;
    var all := d.jobs.Keys + {k};
    Unreported(db.jobs, all);
    Unreported(d.jobs, all);
    InsertedMore(db.jobs, db.jobs.Keys, all);
    InsertedMore(d.jobs, d.jobs.Keys, all);
    InsertedRemove(db.jobs, all, k);
    InsertedRemove(d.jobs, all, k);
    InsertedSame(db.jobs, d.jobs, all - {k});
  }

  lemma Unreported(jobs: map<ImportId, Job>, keys: set<ImportId>)
    ensures forall j | j in keys && j !in jobs.Keys :: Reported(jobs, j) == 0
  {
  }

  ghost predicate Quiet(db: Db, d: Db) {
    && (forall j | j in db.jobs :: j in d.jobs)
    && (forall j: ImportId :: Reported(d.jobs, j) == Reported(db.jobs, j))
  }

  lemma TransactQuiet(db: Db, op: Op, now: Time)
    requires Inv(db) && Enabled(db, op, now)
    ensures Quiet(db, After(db, Perform(db, op, now))) && After(db, Perform(db, op, now)).facts == db.facts
  {
    hide Inv, Perform, Enabled, SameJob, UsedGrow, FactsGrow, JobEvolves;
    var d := After(db, Perform(db, op, now));
    PerformKeeps(db, op, now);
    PerformSafe(db, op, now);
    EvolvesReflexive(db);
    forall j: ImportId ensures (j in db.jobs ==> j in d.jobs) && Reported(d.jobs, j) == Reported(db.jobs, j) {
      if j in db.jobs {
        OpBudget(db, op, now, j);
        if db.jobs[j].status == Published {
          PublishedStays(db, d, j);
        }
      } else if j in d.jobs {
        NewJobsUnpublished(db, op, now, j);
      }
    }
  }

  lemma PublishedStays(db: Db, d: Db, j: ImportId)
    requires Evolves(db, d) && j in db.jobs && db.jobs[j].status == Published
    ensures j in d.jobs && d.jobs[j] == db.jobs[j]
  {
    hide UsedGrow, FactsGrow, UsedTokens;
    assert JobEvolves(db, d, j);
  }

  /** A commit adds facts only when it publishes, and then exactly as many as it reports. */
  lemma CommitConserves(s: System, t: System, w: Worker, maximum: nat, finished: Time)
    requires SystemInv(s) && CommitNext(s, w, maximum, finished, t)
    ensures var j := s.sessions[w].k.job;
            && j in s.db.jobs && s.db.jobs[j].status == Processing && t.db.jobs.Keys == s.db.jobs.Keys
            && (forall i | i in s.db.jobs && i != j :: t.db.jobs[i] == s.db.jobs[i])
            && |t.db.facts| == |s.db.facts| + Reported(t.db.jobs, j)
            && (t.db.facts != s.db.facts ==> t.db.jobs[j].status == Published)
  {
    hide Inv, PlanOf, HoldsLease, SameJob, Install, Collides, SnapshotOutcome, FactsGrow, IssuesUnique, ValidFor,
         FinishedAttempt, SystemInv;
    LockedRowsCurrent(s, w);
    CommitApplies(s, w, maximum, finished);
    var session := s.sessions[w];
    var k, before := session.k, session.txn.value.snapshot;
    LeasedJob(s.db, k.job, session.token, session.txn.value.started);
    var plan := PlanOf(before, k, before.master, maximum);
    PlanSizes(s.db.staged[k], session.source, before.facts, plan);
    if plan.PublishPlan? {
      DisjointSize(s.db.facts, plan.inserted);
    }
  }

  lemma PlanSizes(rows: seq<StagedRow>, source: Source, facts: Facts, plan: Plan)
    requires PlanFits(rows, source, facts, plan)
    ensures plan.PublishPlan? ==> |plan.inserted| == plan.counts.inserted
  {
    hide StagedRowConstraints, KeepsValues, RowsLinked, ValidFor;
  }

  function Entered(steps: seq<Step>): nat {
    if steps == [] then 0 else Entered(steps[..|steps| - 1]) + if steps[|steps| - 1].EnterFact? then 1 else 0
  }

  lemma TransactConserves(s: System, t: System, op: Op, now: Time)
    requires SystemInv(s) && TransactNext(s, op, now, t)
    ensures t.db.facts == s.db.facts && InsertedTotal(t.db) == InsertedTotal(s.db)
  {
    hide SystemInv, Perform, Enabled, InsertedTotal, Reported, Bump, Locked, Inv;
    SystemShape(s);
    TransactQuiet(s.db, op, now);
    TotalChange(s.db, t.db, 0);
  }

  lemma CommitTotals(s: System, t: System, w: Worker, maximum: nat, finished: Time)
    requires SystemInv(s) && CommitNext(s, w, maximum, finished, t)
    ensures |t.db.facts| - |s.db.facts| == InsertedTotal(t.db) - InsertedTotal(s.db)
  {
    hide SystemInv, InsertedTotal, Reported, SnapshotOutcome, Install, Collides, Bump;
    var j := s.sessions[w].k.job;
    CommitConserves(s, t, w, maximum, finished);
    OneReport(s.db, t.db, j);
    TotalChange(s.db, t.db, j);
  }

  lemma StepConserves(s: System, step: Step, t: System)
    requires SystemInv(s) && Next(s, step, t)
    ensures |t.db.facts| - |s.db.facts| == InsertedTotal(t.db) - InsertedTotal(s.db) + if step.EnterFact? then 1 else 0
  {
    hide SystemInv, Perform, Enabled, InsertedTotal, Reported, SnapshotOutcome, Install, Collides, Bump, HoldsLease,
         Locked;
    match step
    case Transact(op, now) => TransactConserves(s, t, op, now);
    case Commit(w, maximum, finished) => CommitTotals(s, t, w, maximum, finished);
    case EnterFact(key, fact) =>
      OneMoreFact(s.db.facts, key, fact);
      SameTotal(s.db, t.db);
    case _ => SameTotal(s.db, t.db);
  }

  lemma OneReport(db: Db, d: Db, j: ImportId)
    requires d.jobs.Keys == db.jobs.Keys && forall i | i in db.jobs && i != j :: d.jobs[i] == db.jobs[i]
    ensures forall i | i != j :: Reported(d.jobs, i) == Reported(db.jobs, i)
    ensures j in db.jobs && db.jobs[j].status == Processing ==> Reported(db.jobs, j) == 0
  {
  }

  lemma OneMoreFact(facts: Facts, key: FactKey, fact: Fact)
    requires key !in facts
    ensures |facts[key := fact]| == |facts| + 1
  {
    assert facts[key := fact].Keys == facts.Keys + {key};
    assert |facts[key := fact]| == |facts[key := fact].Keys| && |facts| == |facts.Keys|;
  }

  lemma SameTotal(db: Db, d: Db)
    requires d.jobs == db.jobs
    ensures InsertedTotal(d) == InsertedTotal(db)
  {
  }

  /** Conservation: facts are added by hand or reported as inserted by exactly one published job. */
  lemma {:induction false} FactsConserved(states: seq<System>, steps: seq<Step>)
    requires IsRun(states, steps) && SystemInv(states[0])
    ensures |states[|steps|].db.facts| - |states[0].db.facts|
            == InsertedTotal(states[|steps|].db) - InsertedTotal(states[0].db) + Entered(steps)
  {
    hide SystemInv, Next, InsertedTotal, Evolves;
    if steps != [] {
      var n := |steps| - 1;
      assert IsRun(states[..n + 1], steps[..n]);
      FactsConserved(states[..n + 1], steps[..n]);
      RunSafe(states, steps, n, n);
      StepConserves(states[n], steps[n], states[n + 1]);
    }
  }

  /** From the empty queue on, the facts table is what was there, what was entered, and what published jobs report. */
  lemma FactsFromStart(states: seq<System>, steps: seq<Step>, imports: map<ImportId, Intake>, facts: Facts,
                       master: Master)
    requires EarlierUploads(imports) && IsRun(states, steps) && states[0] == Initial(imports, facts, master)
    ensures |states[|steps|].db.facts| == |facts| + InsertedTotal(states[|steps|].db) + Entered(steps)
    ensures FactsGrow(facts, states[|steps|].db.facts)
  {
    hide Next, EarlierUploads, SystemInv, FactsGrow, JobEvolves, UsedGrow;
    InitialSafe(imports, facts, master);
    FactsConserved(states, steps);
    RunSafe(states, steps, 0, |steps|);
  }

  /** Every row of a published attempt is backed by a fact with its values. */
  lemma PublishedRowsBacked(db: Db, k: AttemptKey, r: StagedRow)
    requires Inv(db) && k in db.attempts && db.attempts[k].outcome == OutPublished && k in db.staged
             && r in db.staged[k]
    ensures k.job in db.imports && r.outcome != Staged && FactLinked(r, db.imports[k.job].source, db.facts)
  {
    hide JobConstraints, Coupled, AttemptMatchesJob, StagedRowConstraints, FactLinked, RowsUnique, InRowOrder,
         IssuesUnique, TokensUnique, ActiveUnique;
    InvParts(db);
    JobFacts(db, k.job);
    assert k == AttemptKey(k.job, k.number);
    AttemptFacts(db, k.job, k.number);
  }

  // ----- Fencing -----

  /** A fenced transaction of job `j` that presents `token`. */
  predicate Presents(op: Op, j: ImportId, token: Token) {
    match op
    case OpHeartbeat(i, t, _) => i == j && t == token
    case OpPhase(i, t, _) => i == j && t == token
    case OpParse(k, t, _, _, _) => k.job == j && t == token
    case OpRetry(i, t, _, _, _) => i == j && t == token
    case OpComplete(i, t, _, _, _) => i == j && t == token
    case OpObjectFailure(i, t, _, _) => i == j && t == token
    case _ => false
  }

  lemma StaleClaimLost(db: Db, j: ImportId, token: Token, now: Time)
    requires !HasToken(db, j, token)
    ensures LockedLiveClaim(db, j, token, now) == Err(ClaimLost)
    ensures forall imports: map<ImportId, Intake> ::
              LockedLiveClaim(db.(imports := imports), j, token, now) == Err(ClaimLost)
  {
    hide RunningKeys;
  }

  lemma StaleTransactFails(db: Db, op: Op, now: Time, j: ImportId, token: Token)
    requires Enabled(db, op, now) && Presents(op, j, token) && !HasToken(db, j, token)
    ensures Perform(db, op, now).Err?
  {
    hide RunningKeys, HoldsLease, LockedLiveClaim, ValidFor, BatchConstraints, BoundedDelay, HasToken;
    StaleClaimLost(db, j, token, now);
  }

  predicate StepPresents(s: System, step: Step, j: ImportId, token: Token) {
    match step
    case Transact(op, _) => Presents(op, j, token)
    case Commit(w, _, _) => w in s.sessions && s.sessions[w].k.job == j && s.sessions[w].token == token
    case _ => false
  }

  /** A step that presents a token which is not the job's current one changes nothing, at any clock reading. */
  lemma StaleStepChangesNothing(s: System, step: Step, t: System, j: ImportId, token: Token)
    requires SystemInv(s) && Next(s, step, t) && StepPresents(s, step, j, token) && !HasToken(s.db, j, token)
    ensures t.db == s.db
  {
    hide SystemInv, Perform, Enabled, SnapshotOutcome, Install, Collides, Bump, Locked, SameJob, SameSource, FactsGrow;
    match step
    case Transact(op, now) => StaleTransactFails(s.db, op, now, j, token);
    case Commit(w, _, _) =>
      LockedRowsCurrent(s, w);
      LeasedJob(s.db, j, token, s.sessions[w].txn.value.started);
  }

  /**
    Fencing: a token that was issued and is not current never becomes current again, so
    nothing presented with it ever counts.
   */
  lemma FencedForever(states: seq<System>, steps: seq<Step>, i: nat, k: nat, j: ImportId, token: Token)
    requires IsRun(states, steps) && SystemInv(states[0]) && i <= k < |steps|
    requires token in UsedTokens(states[i].db) && !HasToken(states[i].db, j, token)
    ensures !HasToken(states[k].db, j, token)
    ensures StepPresents(states[k], steps[k], j, token) ==> states[k + 1].db == states[k].db
  {
    hide SystemInv, Next, UsedTokens, StepPresents, HasToken, UsedGrow, FactsGrow;
    RunSafe(states, steps, i, k);
    assert JobEvolves(states[i].db, states[k].db, j);
    if StepPresents(states[k], steps[k], j, token) {
      StaleStepChangesNothing(states[k], steps[k], states[k + 1], j, token);
    }
  }

  /** The tokens of different attempts differ, so at most one attempt of any job is live. */
  lemma OneLiveToken(db: Db, i: ImportId, j: ImportId, token: Token)
    requires Inv(db) && HasToken(db, i, token) && HasToken(db, j, token)
    ensures i == j
  {
    hide JobInv, Shape, ActiveUnique;
    LiveClaimIsNewest(db, i, token);
    LiveClaimIsNewest(db, j, token);
    assert Newest(db, i) in RunningKeys(db, i, token) && Newest(db, j) in RunningKeys(db, j, token);
  }

  // ----- A publication that holds its job row -----

  predicate Holds(s: System, w: Worker, k: AttemptKey) {
    InTransaction(s, w) && s.sessions[w].txn.value.locked && s.sessions[w].k == k
  }

  predicate ActsAs(step: Step, w: Worker) {
    && (step.Commit? || step.Abort? || step.Crash? || step.Release? || step.Begin? || step.LockRow? || step.Acquire?)
    && step.w == w
  }

  lemma HeldTransact(s: System, t: System, op: Op, now: Time, w: Worker, k: AttemptKey)
    requires SystemInv(s) && TransactNext(s, op, now, t) && Holds(s, w, k)
    ensures Holds(t, w, k) && SameJob(s.db, t.db, k.job)
  {
    hide Inv, Perform, Enabled, Bump, SameJob, Keeps, RowLocks, SystemInv;
    HeldIsProcessing(s, w, k);
    assert Locked(s, k.job);
    PerformKeeps(s.db, op, now);
    KeptJob(s.db, t.db, RowLocks(op), k.job);
  }

  lemma HeldCommit(s: System, t: System, v: Worker, maximum: nat, finished: Time, w: Worker, k: AttemptKey)
    requires SystemInv(s) && CommitNext(s, v, maximum, finished, t) && Holds(s, w, k) && v != w
    ensures Holds(t, w, k) && SameJob(s.db, t.db, k.job)
  {
    hide Inv, SnapshotOutcome, Install, Collides, Bump, SameJob, FactsGrow, TxnInv, Evolves, InsertsOnly;
    assert SessionInv(s, v) && SessionInv(s, w);
    CommitSafe(s, t, v, maximum, finished);
  }

  lemma HeldStep(s: System, step: Step, t: System, w: Worker, k: AttemptKey)
    requires SystemInv(s) && Next(s, step, t) && Holds(s, w, k) && !ActsAs(step, w)
    ensures Holds(t, w, k) && SameJob(s.db, t.db, k.job)
  {
    hide Perform, Enabled, SnapshotOutcome, Install, Collides, Bump, SameJob, SystemInv, HoldsLease, Locked;
    AllSame(s.db);
    match step
    case Transact(op, now) => HeldTransact(s, t, op, now, w, k);
    case Commit(v, maximum, finished) => HeldCommit(s, t, v, maximum, finished, w, k);
    case EditMaster(_) => SameRowsKept(s.db, t.db);
    case EnterFact(_, _) => SameRowsKept(s.db, t.db);
    case _ =>
  }

  lemma HeldIsProcessing(s: System, w: Worker, k: AttemptKey)
    requires SystemInv(s) && Holds(s, w, k)
    ensures k.job in s.db.jobs && s.db.jobs[k.job].status == Processing && Inv(s.db)
  {
    hide Inv, SameJob, FactsGrow;
    LockedRowsCurrent(s, w);
    LeasedJob(s.db, k.job, s.sessions[w].token, s.sessions[w].txn.value.started);
  }

  lemma KeptJob(db: Db, d: Db, jobs: set<ImportId>, j: ImportId)
    requires Keeps(db, d, jobs) && j in db.jobs && j !in jobs && db.jobs[j].status == Processing
    ensures SameJob(db, d, j)
  {
    hide SameJob;
  }

  /**
    While a publication holds its job row, no other process changes that job, its
    attempts, rows or issues, even long after the lease has run out.
   */
  lemma {:induction false} HeldRowNotOvertaken(states: seq<System>, steps: seq<Step>, i: nat, n: nat, w: Worker,
                                               k: AttemptKey)
    requires IsRun(states, steps) && SystemInv(states[0]) && i <= n < |states| && Holds(states[i], w, k)
    requires forall h | i <= h < n :: !ActsAs(steps[h], w)
    ensures Holds(states[n], w, k) && SameJob(states[i].db, states[n].db, k.job)
    decreases n
  {
    hide SystemInv, Next, Holds, SameJob, Evolves, ActsAs;
    if i == n {
      AllSame(states[i].db);
    } else {
      HeldRowNotOvertaken(states, steps, i, n - 1, w, k);
      RunSafe(states, steps, n - 1, n - 1);
      HeldStep(states[n - 1], steps[n - 1], states[n], w, k);
      SameJobThen(states[i].db, states[n - 1].db, states[n].db, k.job);
    }
  }

  /** A transaction goes on with its snapshot, unless the step begins it. */
  lemma TxnGoesOn(s: System, step: Step, t: System, w: Worker)
    requires Next(s, step, t) && InTransaction(t, w) && !(step.Begin? && step.w == w)
    ensures InTransaction(s, w) && !(step.Commit? && step.w == w)
    ensures t.sessions[w].source == s.sessions[w].source && t.sessions[w].k == s.sessions[w].k
    ensures t.sessions[w].txn.value.snapshot == s.sessions[w].txn.value.snapshot
    ensures t.sessions[w].txn.value.started == s.sessions[w].txn.value.started
  {
    hide Perform, Enabled, SnapshotOutcome, Install, Collides, Bump, HoldsLease, Locked;
  }

  lemma TxnBegins(s: System, step: Step, t: System, w: Worker)
    requires Next(s, step, t) && step.Begin? && step.w == w
    ensures w in s.sessions && InTransaction(t, w) && t.sessions[w].txn.value.snapshot == s.db
    ensures t.sessions[w].source == s.sessions[w].source && t.sessions[w].k == s.sessions[w].k
    ensures t.sessions[w].txn.value.started == step.now
  {
  }

  /** A publication reads the facts and master data of a state in which it already held the lock of its source. */
  lemma {:induction false} SnapshotWasCurrent(states: seq<System>, steps: seq<Step>, i: nat, w: Worker) returns (h: nat)
    requires IsRun(states, steps) && i < |states| && !InTransaction(states[0], w) && InTransaction(states[i], w)
    ensures h < i && states[h].db == states[i].sessions[w].txn.value.snapshot
    ensures forall g | h <= g <= i ::
              w in states[g].sessions && states[g].sessions[w].source == states[i].sessions[w].source
    ensures forall g | h <= g < i :: !(steps[g].Commit? && steps[g].w == w)
    ensures steps[h].Begin? && steps[h].w == w && steps[h].now == states[i].sessions[w].txn.value.started
    ensures forall g | h < g <= i :: InTransaction(states[g], w) && states[g].sessions[w].k == states[i].sessions[w].k
  {
    hide Next;
    var s, step, t := states[i - 1], steps[i - 1], states[i];
    assert Next(s, step, t);
    if step.Begin? && step.w == w {
      TxnBegins(s, step, t, w);
      h := i - 1;
    } else {
      TxnGoesOn(s, step, t, w);
      h := SnapshotWasCurrent(states, steps, i - 1, w);
    }
  }

  // ----- Absorption -----

  /** Published is permanent. */
  lemma PublishedForever(states: seq<System>, steps: seq<Step>, i: nat, k: nat, j: ImportId)
    requires IsRun(states, steps) && SystemInv(states[0]) && i <= k < |states|
    requires j in states[i].db.jobs && states[i].db.jobs[j].status == Published
    ensures j in states[k].db.jobs && states[k].db.jobs[j] == states[i].db.jobs[j]
  {
    hide SystemInv, Next, Evolves;
    RunSafe(states, steps, i, k);
    PublishedStays(states[i].db, states[k].db, j);
  }

  lemma PublishedIsNewest(db: Db, j: ImportId, n: nat)
    requires Inv(db) && AttemptKey(j, n) in db.attempts && db.attempts[AttemptKey(j, n)].outcome == OutPublished
    ensures j in db.jobs && db.jobs[j].status == Published && db.jobs[j].attemptCount == n
  {
    hide AttemptData, AttemptConstraints, JobConstraints, Coupled, TokensUnique, ActiveUnique;
    InvParts(db);
    JobFacts(db, j);
    AttemptFacts(db, j, n);
  }

  /** At most one attempt of a job is ever published: whichever states of a run are compared. */
  lemma OnePublishedAttempt(states: seq<System>, steps: seq<Step>, i: nat, k: nat, j: ImportId, m: nat, n: nat)
    requires IsRun(states, steps) && SystemInv(states[0]) && i < |states| && k < |states|
    requires AttemptKey(j, m) in states[i].db.attempts
             && states[i].db.attempts[AttemptKey(j, m)].outcome == OutPublished
    requires AttemptKey(j, n) in states[k].db.attempts
             && states[k].db.attempts[AttemptKey(j, n)].outcome == OutPublished
    ensures m == n
  {
    hide SystemInv, Next, Evolves, Inv;
    RunSafe(states, steps, i, i);
    RunSafe(states, steps, k, k);
    SystemShape(states[i]);
    SystemShape(states[k]);
    PublishedIsNewest(states[i].db, j, m);
    PublishedIsNewest(states[k].db, j, n);
    if i <= k {
      PublishedForever(states, steps, i, k, j);
    } else {
      PublishedForever(states, steps, k, i, j);
    }
  }

  lemma ConflictMeansRejected(db: Db, k: AttemptKey)
    requires Inv(db) && k in db.issues && exists i | i in db.issues[k] :: i.code == SourceRecordConflict
    ensures k.job in db.jobs && db.jobs[k.job].status == Rejected
  {
    hide AttemptMatchesJob, JobConstraints, Coupled, TokensUnique, ActiveUnique, RowsUnique, InRowOrder, IssuesUnique,
         StagedRowConstraints, RowsLinked;
    InvParts(db);
    assert k in db.attempts && k == AttemptKey(k.job, k.number);
    JobFacts(db, k.job);
    AttemptFacts(db, k.job, k.number);
  }

  /** Once a conflict with an immutable fact is stored, the job is rejected in every later state. */
  lemma ConflictRejectsForever(states: seq<System>, steps: seq<Step>, i: nat, n: nat, k: AttemptKey, issue: Issue)
    requires IsRun(states, steps) && SystemInv(states[0]) && i <= n < |states|
    requires k in states[i].db.issues && issue in states[i].db.issues[k] && issue.code == SourceRecordConflict
    ensures k.job in states[n].db.jobs && states[n].db.jobs[k.job].status == Rejected
  {
    hide SystemInv, Next, UsedGrow, FactsGrow, Inv, UsedTokens;
    RunSafe(states, steps, i, n);
    SystemShape(states[i]);
    SystemShape(states[n]);
    assert JobEvolves(states[i].db, states[n].db, k.job);
    assert AttemptEvolves(states[i].db, states[n].db, k);
    assert issue in states[n].db.issues[k];
    ConflictMeansRejected(states[n].db, k);
  }

  /** A job whose intake failed never changes again, so it never runs again. */
  lemma FailedIntakeForever(states: seq<System>, steps: seq<Step>, i: nat, n: nat, j: ImportId)
    requires IsRun(states, steps) && SystemInv(states[0]) && i <= n < |states|
    requires j in states[i].db.imports && states[i].db.imports[j].status == IntakeFailed
    ensures j in states[n].db.imports && states[n].db.imports[j] == states[i].db.imports[j]
    ensures j in states[i].db.jobs ==>
              j in states[n].db.jobs && states[n].db.jobs[j] == states[i].db.jobs[j]
              && states[i].db.jobs[j].status == Failed
  {
    hide SystemInv, Next, UsedGrow, FactsGrow, Inv, UsedTokens, JobInv;
    RunSafe(states, steps, i, n);
    SystemShape(states[i]);
    assert JobEvolves(states[i].db, states[n].db, j);
    if j in states[i].db.jobs {
      JobFacts(states[i].db, j);
      JobRowFacts(states[i].db, j);
    }
  }

  // ----- Bounded work -----

  /** The successful claims of job `j` in a run. */
  ghost function Claims(states: seq<System>, steps: seq<Step>, j: ImportId): nat
    requires |states| == |steps| + 1
  {
    if steps == [] then 0
    else
      var n := |steps| - 1;
      Claims(states[..n + 1], steps[..n], j) + if ClaimStep(states[n], steps[n], j) then 1 else 0
  }

  ghost predicate ClaimStep(s: System, step: Step, j: ImportId) {
    step.Transact? && ClaimsJob(step.op, j) && Enabled(s.db, step.op, step.now) && Perform(s.db, step.op, step.now).Ok?
  }

  predicate NeverRequeued(steps: seq<Step>, j: ImportId) {
    forall i | 0 <= i < |steps| :: !(steps[i].Transact? && RequeuesJob(steps[i].op, j))
  }

  lemma StepBudget(s: System, step: Step, t: System, j: ImportId)
    requires SystemInv(s) && Next(s, step, t) && j in s.db.jobs
    ensures j in t.db.jobs
    ensures t.db.jobs[j].attemptCount == s.db.jobs[j].attemptCount + if ClaimStep(s, step, j) then 1 else 0
    ensures !(step.Transact? && RequeuesJob(step.op, j)) ==> t.db.jobs[j].maxAttempts == s.db.jobs[j].maxAttempts
  {
    hide Inv, Perform, Enabled, SnapshotOutcome, Collides, Bump, HoldsLease, Locked, SystemInv;
    match step
    case Transact(op, now) => OpBudget(s.db, op, now, j);
    case Commit(w, maximum, finished) => CommitBudget(s, t, w, maximum, finished, j);
    case _ =>
  }

  lemma AppliedBudget(db: Db, k: AttemptKey, plan: Plan, finished: Time, j: ImportId)
    requires k.job in db.jobs && k in db.attempts && k in db.staged && k in db.issues
             && ApplyPlan(db, k, plan, finished).Ok? && j in db.jobs
    ensures var d := ApplyPlan(db, k, plan, finished).value;
            j in d.jobs && d.jobs[j].attemptCount == db.jobs[j].attemptCount
            && d.jobs[j].maxAttempts == db.jobs[j].maxAttempts
  {
    hide IssuesUnique, ValidFor, FinishedAttempt;
  }

  lemma CommitBudget(s: System, t: System, w: Worker, maximum: nat, finished: Time, j: ImportId)
    requires SystemInv(s) && CommitNext(s, w, maximum, finished, t) && j in s.db.jobs
    ensures j in t.db.jobs && t.db.jobs[j].attemptCount == s.db.jobs[j].attemptCount
            && t.db.jobs[j].maxAttempts == s.db.jobs[j].maxAttempts
  {
    hide Inv, PlanOf, PlanFits, HoldsLease, SameJob, Install, Collides, SnapshotOutcome, FactsGrow, ApplyPlan,
         SystemInv;
    CommitApplies(s, w, maximum, finished);
    var k, before := s.sessions[w].k, s.sessions[w].txn.value.snapshot;
    AppliedBudget(s.db, k, PlanOf(before, k, before.master, maximum), finished, j);
  }

  lemma {:induction false} ClaimsCounted(states: seq<System>, steps: seq<Step>, j: ImportId)
    requires IsRun(states, steps) && SystemInv(states[0]) && j in states[0].db.jobs
    ensures var last := states[|steps|].db;
            && j in last.jobs
            && last.jobs[j].attemptCount == states[0].db.jobs[j].attemptCount + Claims(states, steps, j)
            && (NeverRequeued(steps, j) ==> last.jobs[j].maxAttempts == states[0].db.jobs[j].maxAttempts)
  {
    hide SystemInv, Next, Evolves, ClaimStep, RequeuesJob;
    if steps != [] {
      var n := |steps| - 1;
      assert IsRun(states[..n + 1], steps[..n]);
      ClaimsCounted(states[..n + 1], steps[..n], j);
      RunSafe(states, steps, n, n);
      StepBudget(states[n], steps[n], states[n + 1], j);
    }
  }

  /** Without operator requeues a job is claimed at most as often as it had attempts left. */
  lemma ClaimsBounded(states: seq<System>, steps: seq<Step>, j: ImportId)
    requires IsRun(states, steps) && SystemInv(states[0]) && j in states[0].db.jobs && NeverRequeued(steps, j)
    ensures Claims(states, steps, j) <= states[0].db.jobs[j].maxAttempts - states[0].db.jobs[j].attemptCount
  {
    hide SystemInv, Next, Evolves, Claims, NeverRequeued, Inv;
    ClaimsCounted(states, steps, j);
    RunSafe(states, steps, 0, |steps|);
    SystemShape(states[|steps|]);
    LimitRespected(states[|steps|].db, j);
  }

  lemma LimitRespected(db: Db, j: ImportId)
    requires Inv(db) && j in db.jobs
    ensures db.jobs[j].attemptCount <= db.jobs[j].maxAttempts <= 32767
  {
    hide Inv;
    JobFacts(db, j);
    JobRowFacts(db, j);
  }
}
