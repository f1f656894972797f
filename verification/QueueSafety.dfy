/** Every queue and intake transaction keeps the invariant and evolves legally. */
module QueueSafety {
  import opened Results
  import opened Text
  import opened Tables
  import opened QueueSpec
  import opened QueueInvariant
  import opened RetryDelay

  ghost predicate Safe(db: Db, result: Commit) {
    result.Ok? ==> Inv(result.value) && Evolves(db, result.value)
  }

  function Newest(db: Db, j: ImportId): AttemptKey
    requires j in db.jobs
  {
    AttemptKey(j, db.jobs[j].attemptCount)
  }

  // ----- Live claims -----

  lemma JobFacts(db: Db, j: ImportId)
    requires Inv(db) && j in db.jobs
    ensures JobInv(db, j) && j in db.imports && Shape(db) && IntakeConstraints(db.imports[j])
  {
    hide TokensUnique, ActiveUnique, AttemptData, AttemptMatchesJob, JobConstraints, Coupled, IntakeConstraints;
  }

  lemma InvParts(db: Db)
    requires Inv(db)
    ensures Shape(db) && TokensUnique(db) && ActiveUnique(db)
  {
  }

  lemma AttemptFacts(db: Db, j: ImportId, n: nat)
    requires j in db.jobs && JobInv(db, j) && AttemptKey(j, n) in db.attempts
    ensures j in db.imports && 1 <= n <= db.jobs[j].attemptCount
    ensures AttemptMatchesJob(db.attempts[AttemptKey(j, n)], n, db.jobs[j])
    ensures AttemptData(db, AttemptKey(j, n), db.jobs[j], db.imports[j].source)
  {
    hide AttemptData, AttemptMatchesJob, JobConstraints, Coupled;
  }

  lemma JobRowFacts(db: Db, j: ImportId)
    requires j in db.jobs && JobInv(db, j)
    ensures j in db.imports && JobConstraints(db.jobs[j]) && Coupled(db.imports[j], db.jobs[j])
    ensures forall n: nat :: AttemptKey(j, n) in db.attempts <==> 1 <= n <= db.jobs[j].attemptCount
    ensures db.jobs[j].status == Processing ==> db.jobs[j].attemptCount >= 1
  {
    hide AttemptData, AttemptMatchesJob, JobConstraints, Coupled;
  }

  /** What the invariant says about the newest attempt of a processing job. */
  lemma NewestFacts(db: Db, j: ImportId)
    requires Inv(db) && j in db.jobs && db.jobs[j].status == Processing
    ensures j in db.imports && JobConstraints(db.jobs[j]) && Coupled(db.imports[j], db.jobs[j])
    ensures db.jobs[j].attemptCount >= 1
    ensures Newest(db, j) in db.attempts && Newest(db, j) in db.staged && Newest(db, j) in db.issues
    ensures AttemptMatchesJob(db.attempts[Newest(db, j)], db.jobs[j].attemptCount, db.jobs[j])
    ensures AttemptData(db, Newest(db, j), db.jobs[j], db.imports[j].source)
    ensures db.attempts[Newest(db, j)].outcome == Running
  {
    hide Inv, JobInv, AttemptData, JobConstraints, Coupled, AttemptConstraints;
    JobFacts(db, j);
    JobRowFacts(db, j);
    AttemptFacts(db, j, db.jobs[j].attemptCount);
    DataPresent(db, Newest(db, j), db.jobs[j], db.imports[j].source);
  }

  lemma DataPresent(db: Db, k: AttemptKey, job: Job, source: Source)
    requires k in db.attempts && AttemptData(db, k, job, source)
    ensures k in db.staged && k in db.issues
  {
  }

  lemma ProcessingHasLease(job: Job)
    requires JobConstraints(job)
    ensures job.leaseToken.Some? <==> job.status == Processing
  {
  }

  lemma TokenMeansProcessing(db: Db, j: ImportId, token: Token)
    requires Inv(db) && HasToken(db, j, token)
    ensures db.jobs[j].status == Processing
  {
    hide Inv, JobInv, JobConstraints, Coupled, IntakeConstraints, Shape;
    JobFacts(db, j);
    JobRowFacts(db, j);
    ProcessingHasLease(db.jobs[j]);
  }

  lemma RunningCarriesToken(a: Attempt, n: nat, job: Job)
    requires AttemptMatchesJob(a, n, job) && job.status == Processing && n == job.attemptCount
    ensures job.leaseToken == Some(a.token) && a.outcome == Running && a.counts == job.counts
  {
  }

  /** A leased job has exactly one running attempt under its token: the newest one. */
  lemma LiveClaimIsNewest(db: Db, j: ImportId, token: Token)
    requires Inv(db) && HasToken(db, j, token)
    ensures db.jobs[j].status == Processing
    ensures RunningKeys(db, j, token) == {Newest(db, j)}
    ensures LeaseKeys(db, j) == {Newest(db, j)}
  {
    hide Inv, AttemptData, AttemptMatchesJob, JobConstraints, Coupled, ActiveUnique, Shape;
    TokenMeansProcessing(db, j, token);
    NewestFacts(db, j);
    RunningCarriesToken(db.attempts[Newest(db, j)], db.jobs[j].attemptCount, db.jobs[j]);
    InvParts(db);
    forall l | l in RunningKeys(db, j, token) ensures l == Newest(db, j) {
      assert db.attempts[l].token == db.attempts[Newest(db, j)].token;
    }
    assert Newest(db, j) in RunningKeys(db, j, token);
  }

  /** The "state error" of `_locked_live_claim` is unreachable. */
  lemma LiveClaimDecides(db: Db, j: ImportId, token: Token, now: Time)
    requires Inv(db)
    ensures LockedLiveClaim(db, j, token, now) ==
            if HoldsLease(db, j, token, now) then Ok(Newest(db, j)) else Err(ClaimLost)
  {
    hide Inv;
    if HoldsLease(db, j, token, now) {
      LiveClaimIsNewest(db, j, token);
      var r := LockedLiveClaim(db, j, token, now);
      assert r.value in {Newest(db, j)};
    }
  }

  // ----- The effect of a transaction that presents a live token -----

  ghost predicate OnlyJob(before: Db, after: Db, j: ImportId) {
    && (forall i | i != j :: i in after.imports <==> i in before.imports)
    && (forall i | i in before.imports && i != j :: after.imports[i] == before.imports[i])
    && (forall i | i != j :: i in after.jobs <==> i in before.jobs)
    && (forall i | i in before.jobs && i != j :: after.jobs[i] == before.jobs[i])
  }

  ghost predicate OnlyAttempt(before: Db, after: Db, k: AttemptKey) {
    && after.attempts.Keys == before.attempts.Keys + {k}
    && after.staged.Keys == before.staged.Keys + {k}
    && after.issues.Keys == before.issues.Keys + {k}
    && (forall l | l in before.attempts && l != k :: after.attempts[l] == before.attempts[l])
    && (forall l | l in before.staged && l != k :: after.staged[l] == before.staged[l])
    && (forall l | l in before.issues && l != k :: after.issues[l] == before.issues[l])
  }

  predicate JobRowEffect(job: Job, job': Job) {
    && JobConstraints(job') && job'.createdAt == job.createdAt && job'.attemptCount == job.attemptCount
    && (job'.leaseToken.Some? ==> job'.leaseToken == job.leaseToken)
    && (job'.status == Queued || job'.status == RetryWait ==> job'.attemptCount < job'.maxAttempts)
    && InPlay(job'.status)
  }

  predicate IntakeRowEffect(i: Intake, i': Intake, job': Job) {
    && IntakeEvolves(i, i') && IntakeConstraints(i') && Coupled(i', job')
    && (ActiveIntake(i') ==> ActiveIntake(i))
    && i.status == Received
  }

  predicate AttemptEffect(before: Db, after: Db, k: AttemptKey, job': Job, source: Source)
    requires k in before.attempts && k in after.attempts
  {
    && AttemptTrigger(before.attempts[k], after.attempts[k])
    && AttemptMatchesJob(after.attempts[k], k.number, job')
    && AttemptData(after, k, job', source)
    && k in before.staged && k in before.issues
    && before.issues[k] <= after.issues[k] && StagedEvolves(before.staged[k], after.staged[k])
  }

  ghost predicate WorkerRows(before: Db, after: Db, k: AttemptKey) {
    && OnlyJob(before, after, k.job) && OnlyAttempt(before, after, k) && FactsGrow(before.facts, after.facts)
    && k.job in before.jobs && k.job in after.jobs && k.job in before.imports && k.job in after.imports
    && k in before.attempts && before.jobs[k.job].status == Processing && k == Newest(before, k.job)
  }

  ghost predicate WorkerEffect(before: Db, after: Db, k: AttemptKey) {
    && WorkerRows(before, after, k)
    && JobRowEffect(before.jobs[k.job], after.jobs[k.job])
    && IntakeRowEffect(before.imports[k.job], after.imports[k.job], after.jobs[k.job])
    && k in after.attempts && AttemptEffect(before, after, k, after.jobs[k.job], after.imports[k.job].source)
  }

  /** An attempt that is not the newest one stays consistent with its job, whatever that job does next. */
  lemma OlderAttemptMatches(a: Attempt, n: nat, job: Job, job': Job)
    requires AttemptMatchesJob(a, n, job) && n < job.attemptCount <= job'.attemptCount
    ensures AttemptMatchesJob(a, n, job') && a.outcome != Running && a.outcome != OutPublished
  {
  }

  lemma KeptAttemptData(before: Db, after: Db, k: AttemptKey, job: Job, job': Job, source: Source)
    requires k in before.attempts && AttemptData(before, k, job, source) && SameAttemptData(before, after, k)
    requires FactsGrow(before.facts, after.facts)
    requires job.status == Rejected ==> job'.status == Rejected || !HasConflictIssue(before, k.job)
    ensures AttemptData(after, k, job', source)
  {
    assert forall i | i in before.issues[k] :: i.code == SourceRecordConflict ==> HasConflictIssue(before, k.job);
  }

  predicate SameAttemptData(before: Db, after: Db, k: AttemptKey)
    requires k in before.attempts
  {
    && k in after.attempts
    && ((after.attempts[k].outcome == OutPublished) <==> (before.attempts[k].outcome == OutPublished))
    && k in before.staged && k in after.staged && after.staged[k] == before.staged[k]
    && k in before.issues && k in after.issues && after.issues[k] == before.issues[k]
  }

  lemma OlderAttempt(before: Db, after: Db, l: AttemptKey, job': Job)
    requires l.job in before.jobs && l.job in before.imports && l in before.attempts && l in after.attempts
    requires AttemptMatchesJob(before.attempts[l], l.number, before.jobs[l.job])
    requires AttemptData(before, l, before.jobs[l.job], before.imports[l.job].source)
    requires SameAttempt(before, after, l) && FactsGrow(before.facts, after.facts)
    requires l.number < before.jobs[l.job].attemptCount <= job'.attemptCount
    requires before.jobs[l.job].status == Rejected ==> job'.status == Rejected || !HasConflictIssue(before, l.job)
    ensures AttemptMatchesJob(after.attempts[l], l.number, job')
            && AttemptData(after, l, job', before.imports[l.job].source)
  {
    hide AttemptConstraints, HasConflictIssue;
    KeptAttemptData(before, after, l, before.jobs[l.job], job', before.imports[l.job].source);
    OlderAttemptMatches(before.attempts[l], l.number, before.jobs[l.job], job');
  }

  lemma WorkerJobInv(before: Db, after: Db, k: AttemptKey)
    requires k.job in before.jobs && JobInv(before, k.job) && WorkerEffect(before, after, k)
    ensures JobInv(after, k.job)
  {
    hide AttemptData, AttemptMatchesJob, JobConstraints, Coupled, FactsGrow, IntakeConstraints, StagedEvolves,
         HasConflictIssue;
    var j := k.job;
    forall n: nat | AttemptKey(j, n) in after.attempts
      ensures AttemptMatchesJob(after.attempts[AttemptKey(j, n)], n, after.jobs[j])
      ensures AttemptData(after, AttemptKey(j, n), after.jobs[j], after.imports[j].source)
    {
      if n != k.number {
        assert AttemptKey(j, n) in before.attempts;
        OlderAttempt(before, after, AttemptKey(j, n), after.jobs[j]);
      }
    }
  }

  lemma WorkerJobEvolves(before: Db, after: Db, k: AttemptKey)
    requires WorkerEffect(before, after, k)
    ensures JobEvolves(before, after, k.job)
  {
    hide AttemptData, AttemptMatchesJob, JobConstraints, FactsGrow, IntakeConstraints, StagedEvolves;
    forall l | l in before.attempts && l.job == k.job ensures AttemptEvolves(before, after, l) {
      if l != k {
        assert l in before.staged ==> after.staged[l] == before.staged[l];
        StagedEvolvesReflexive(before, l);
      }
    }
  }

  lemma StagedEvolvesReflexive(db: Db, l: AttemptKey)
    ensures l in db.staged ==> StagedEvolves(db.staged[l], db.staged[l])
  {
  }

  lemma OnlyJobFrames(before: Db, after: Db, k: AttemptKey)
    requires OnlyJob(before, after, k.job) && OnlyAttempt(before, after, k)
    ensures forall j: ImportId | j != k.job :: SameJob(before, after, j)
  {
    forall j: ImportId | j != k.job ensures SameJob(before, after, j) {
      forall n: nat ensures SameAttempt(before, after, AttemptKey(j, n)) {
      }
    }
  }

  lemma WorkerActive(before: Db, after: Db, k: AttemptKey)
    requires ActiveUnique(before) && WorkerRows(before, after, k)
    requires IntakeRowEffect(before.imports[k.job], after.imports[k.job], after.jobs[k.job])
    ensures ActiveUnique(after)
  {
    hide ActiveUnique, Coupled, IntakeConstraints, OnlyAttempt, FactsGrow;
    assert ActiveKept(before, after);
    ActiveStaysUnique(before, after);
  }

  lemma WorkerShape(before: Db, after: Db, k: AttemptKey)
    requires Shape(before) && WorkerRows(before, after, k) && k in after.attempts
    requires IntakeConstraints(after.imports[k.job]) && after.attempts[k].token == before.attempts[k].token
    ensures Shape(after)
  {
    hide FactsGrow, IntakeConstraints;
  }

  lemma WorkerTokens(before: Db, after: Db, k: AttemptKey)
    requires k in before.attempts && OnlyAttempt(before, after, k)
             && after.attempts[k].token == before.attempts[k].token
    ensures TokensKept(before, after)
  {
    hide UsedTokens;
  }

  lemma WorkerGlobal(before: Db, after: Db, k: AttemptKey)
    requires Shape(before) && ActiveUnique(before) && WorkerEffect(before, after, k)
    ensures Shape(after) && ActiveUnique(after) && TokensKept(before, after)
  {
    hide AttemptData, AttemptMatchesJob, Coupled, IntakeConstraints, OnlyAttempt, OnlyJob, StagedEvolves, JobRowEffect,
         ActiveUnique, Shape, TokensKept;
    WorkerActive(before, after, k);
    WorkerShape(before, after, k);
    WorkerTokens(before, after, k);
  }

  lemma WorkerEffectSafe(before: Db, after: Db, k: AttemptKey)
    requires Inv(before) && WorkerEffect(before, after, k)
    ensures Inv(after) && Evolves(before, after)
  {
    hide Inv, Shape, ActiveUnique, TokensUnique, JobInv, JobEvolves, TokensKept, FactsGrow, SameJob, OnlyJob,
         OnlyAttempt, JobRowEffect, IntakeRowEffect, AttemptEffect, Evolves, IntakeConstraints;
    InvParts(before);
    JobFacts(before, k.job);
    WorkerJobInv(before, after, k);
    WorkerJobEvolves(before, after, k);
    WorkerGlobal(before, after, k);
    OnlyJobFrames(before, after, k);
    Assemble(before, after, {k.job});
  }

  /** The common case: the job row, the attempt row and possibly the intake row of a live claim are written. */
  lemma IntakeAndClaimSafe(db: Db, k: AttemptKey, i: Intake, job: Job, attempt: Attempt)
    requires Inv(db) && k.job in db.jobs && db.jobs[k.job].status == Processing && k == Newest(db, k.job)
    requires JobRowEffect(db.jobs[k.job], job) && job.status != Published
    requires k.job in db.imports && IntakeRowEffect(db.imports[k.job], i, job)
    requires k in db.attempts && AttemptTrigger(db.attempts[k], attempt)
    requires AttemptMatchesJob(attempt, k.number, job)
    ensures Inv(WithClaim(db.(imports := db.imports[k.job := i]), k, job, attempt))
    ensures Evolves(db, WithClaim(db.(imports := db.imports[k.job := i]), k, job, attempt))
  {
    hide Inv, Evolves, JobConstraints, AttemptConstraints, HasConflictIssue, AttemptData, IntakeConstraints,
         JobRowEffect, Coupled, StagedEvolves;
    NewestFacts(db, k.job);
    var d := WithClaim(db.(imports := db.imports[k.job := i]), k, job, attempt);
    KeptAttemptData(db, d, k, db.jobs[k.job], job, db.imports[k.job].source);
    StagedEvolvesReflexive(db, k);
    WorkerEffectSafe(db, d, k);
  }

  lemma SameIntakeEffect(i: Intake, job: Job, job': Job)
    requires IntakeConstraints(i) && Coupled(i, job) && job.status == Processing && InPlay(job'.status)
    ensures IntakeRowEffect(i, i, job')
  {
  }

  lemma ClaimRowsSafe(db: Db, k: AttemptKey, job: Job, attempt: Attempt)
    requires Inv(db) && k.job in db.jobs && db.jobs[k.job].status == Processing && k == Newest(db, k.job)
    requires JobRowEffect(db.jobs[k.job], job) && job.status != Published
    requires k in db.attempts && AttemptTrigger(db.attempts[k], attempt)
    requires AttemptMatchesJob(attempt, k.number, job)
    ensures Inv(WithClaim(db, k, job, attempt)) && Evolves(db, WithClaim(db, k, job, attempt))
  {
    hide Inv, Evolves, JobConstraints, AttemptData, AttemptMatchesJob, IntakeConstraints, Coupled, IntakeRowEffect,
         AttemptTrigger;
    NewestFacts(db, k.job);
    IntakeConstraint(db, k.job);
    SameIntakeEffect(db.imports[k.job], db.jobs[k.job], job);
    assert db.(imports := db.imports[k.job := db.imports[k.job]]) == db;
    IntakeAndClaimSafe(db, k, db.imports[k.job], job, attempt);
  }

  lemma IntakeConstraint(db: Db, j: ImportId)
    requires Inv(db) && j in db.imports
    ensures IntakeConstraints(db.imports[j])
  {
    hide JobInv, TokensUnique, ActiveUnique, IntakeConstraints;
  }

  // ----- Fenced worker transactions -----

  lemma HeartbeatRows(job: Job, a: Attempt, lease: Time, now: Time)
    requires JobConstraints(job) && job.status == Processing && AttemptMatchesJob(a, job.attemptCount, job)
    ensures JobRowEffect(job, BeatenJob(job, lease, now)) && AttemptTrigger(a, a.(heartbeatAt := now))
    ensures AttemptMatchesJob(a.(heartbeatAt := now), job.attemptCount, BeatenJob(job, lease, now))
  {
  }

  lemma HeartbeatSafe(db: Db, j: ImportId, token: Token, lease: Time, now: Time)
    requires Inv(db)
    ensures Safe(db, Heartbeat(db, j, token, lease, now))
  {
    hide Inv, Evolves, AttemptData, AttemptMatchesJob, AttemptTrigger, JobConstraints, JobRowEffect, Coupled;
    LiveClaimDecides(db, j, token, now);
    if lease > 0 && HoldsLease(db, j, token, now) {
      NewestFacts(db, j);
      var k := Newest(db, j);
      HeartbeatRows(db.jobs[j], db.attempts[k], lease, now);
      ClaimRowsSafe(db, k, BeatenJob(db.jobs[j], lease, now), db.attempts[k].(heartbeatAt := now));
    }
  }

  lemma PhaseRows(job: Job, a: Attempt, phase: Phase)
    requires JobConstraints(job) && job.status == Processing && AttemptMatchesJob(a, job.attemptCount, job)
    ensures JobRowEffect(job, job) && AttemptTrigger(a, a.(phase := phase))
    ensures AttemptMatchesJob(a.(phase := phase), job.attemptCount, job)
  {
  }

  lemma AdvancePhaseSafe(db: Db, j: ImportId, token: Token, phase: Phase, now: Time)
    requires Inv(db)
    ensures Safe(db, AdvancePhase(db, j, token, phase, now))
  {
    hide Inv, Evolves, AttemptData, AttemptMatchesJob, AttemptTrigger, JobConstraints, JobRowEffect, Coupled;
    LiveClaimDecides(db, j, token, now);
    if HoldsLease(db, j, token, now) {
      NewestFacts(db, j);
      PhaseRows(db.jobs[j], db.attempts[Newest(db, j)], phase);
      ClaimRowsSafe(db, Newest(db, j), db.jobs[j], db.attempts[Newest(db, j)].(phase := phase));
    }
  }

  lemma RetriedRows(job: Job, a: Attempt, code: ErrorCode, base: Time, maximum: Time, now: Time)
    requires JobConstraints(job) && job.status == Processing && AttemptMatchesJob(a, job.attemptCount, job)
    ensures JobRowEffect(job, RetriedJob(job, code, base, maximum, now))
    ensures RetriedJob(job, code, base, maximum, now).status != Published
    ensures AttemptTrigger(a, RetriedAttempt(a, job.counts, code, now))
    ensures AttemptMatchesJob(RetriedAttempt(a, job.counts, code, now), job.attemptCount,
                              RetriedJob(job, code, base, maximum, now))
  {
    hide BoundedDelay;
  }

  lemma ScheduleRetrySafe(db: Db, j: ImportId, token: Token, code: ErrorCode, base: Time, maximum: Time, now: Time)
    requires Inv(db)
    ensures Safe(db, ScheduleRetry(db, j, token, code, base, maximum, now))
  {
    hide Inv, Evolves, AttemptData, AttemptMatchesJob, AttemptTrigger, JobConstraints, JobRowEffect, Coupled,
         RetriedJob, RetriedAttempt, ValidFor;
    LiveClaimDecides(db, j, token, now);
    if ScheduleRetry(db, j, token, code, base, maximum, now).Ok? {
      NewestFacts(db, j);
      var k := Newest(db, j);
      RetriedRows(db.jobs[j], db.attempts[k], code, base, maximum, now);
      ClaimRowsSafe(db, k, RetriedJob(db.jobs[j], code, base, maximum, now),
                    RetriedAttempt(db.attempts[k], db.jobs[j].counts, code, now));
    }
  }

  lemma FinishedConstraints(job: Job, status: JobStatus, counts: Counts, code: ErrorCode, now: Time)
    requires job.attemptCount <= job.maxAttempts <= 32767 && 0 < job.maxAttempts
    requires Terminal(status) && ValidFor(counts, status)
    ensures JobConstraints(FinishedJob(job, status, counts, code, now))
  {
  }

  lemma FinishedJobRow(job: Job, status: JobStatus, counts: Counts, code: ErrorCode, now: Time)
    requires job.attemptCount <= job.maxAttempts <= 32767 && 0 < job.maxAttempts
    requires TerminalOutcome(status).Some? && ValidFor(counts, status)
    ensures JobRowEffect(job, FinishedJob(job, status, counts, code, now))
  {
    hide JobConstraints, ValidFor;
    FinishedConstraints(job, status, counts, code, now);
  }

  lemma FinishedAttemptRow(a: Attempt, n: nat, status: JobStatus, counts: Counts, code: ErrorCode, now: Time)
    requires AttemptConstraints(n, a) && a.outcome == Running
    requires TerminalOutcome(status).Some? && ValidFor(counts, status)
    ensures AttemptTrigger(a, FinishedAttempt(a, status, counts, code, now))
    ensures AttemptConstraints(n, FinishedAttempt(a, status, counts, code, now))
  {
  }

  lemma FinishedRows(job: Job, a: Attempt, status: JobStatus, counts: Counts, code: ErrorCode, now: Time)
    requires JobConstraints(job) && job.status == Processing && AttemptMatchesJob(a, job.attemptCount, job)
    requires TerminalOutcome(status).Some? && ValidFor(counts, status)
    ensures JobRowEffect(job, FinishedJob(job, status, counts, code, now))
    ensures AttemptTrigger(a, FinishedAttempt(a, status, counts, code, now))
    ensures AttemptMatchesJob(FinishedAttempt(a, status, counts, code, now), job.attemptCount,
                              FinishedJob(job, status, counts, code, now))
  {
    hide JobRowEffect, AttemptTrigger, ValidFor, AttemptConstraints, CountsConstraint, CountsNonNegative;
    FinishedJobRow(job, status, counts, code, now);
    FinishedAttemptRow(a, job.attemptCount, status, counts, code, now);
  }

  lemma CompleteJobSafe(db: Db, j: ImportId, token: Token, status: JobStatus, counts: Option<Counts>, code: ErrorCode,
                        now: Time)
    requires Inv(db) && status != Published
    ensures Safe(db, CompleteJob(db, j, token, status, counts, code, now))
  {
    hide Inv, Evolves, AttemptData, AttemptMatchesJob, AttemptTrigger, JobConstraints, JobRowEffect, Coupled, ValidFor,
         FinishedAttempt;
    LiveClaimDecides(db, j, token, now);
    if CompleteJob(db, j, token, status, counts, code, now).Ok? {
      NewestFacts(db, j);
      var k := Newest(db, j);
      var final := if counts.Some? then counts.value else db.jobs[j].counts;
      FinishedRows(db.jobs[j], db.attempts[k], status, final, code, now);
      ClaimRowsSafe(db, k, FinishedJob(db.jobs[j], status, final, code, now),
                    FinishedAttempt(db.attempts[k], status, final, code, now));
    }
  }

  lemma ExtendedRows(before: seq<StagedRow>, rows: seq<StagedRow>, source: Source, facts: map<FactKey, Fact>)
    requires RowsLinked(before, false, source, facts) && forall r | r in rows :: ParsedRow(r)
    ensures RowsLinked(before + rows, false, source, facts) && StagedEvolves(before, before + rows)
  {
  }

  /** The parse batch: rows and issues are appended together with the counters. */
  lemma ParsedData(db: Db, d: Db, k: AttemptKey, rows: seq<StagedRow>, issues: seq<Issue>, job: Job, job': Job,
                   source: Source)
    requires k in db.attempts && AttemptData(db, k, job, source) && job.status == Processing
    requires (forall r | r in rows :: ParsedRow(r)) && (forall i | i in issues :: ParsedIssue(i))
    requires k in d.attempts && db.attempts[k].outcome == Running && d.attempts[k].outcome == Running
    requires k in d.staged && k in d.issues && d.staged[k] == db.staged[k] + rows
             && d.issues[k] == db.issues[k] + issues
    requires d.facts == db.facts && (forall r | r in d.staged[k] :: StagedRowConstraints(r))
    requires RowsUnique(d.staged[k]) && InRowOrder(d.staged[k]) && IssuesUnique(d.issues[k])
    ensures AttemptData(d, k, job', source) && StagedEvolves(db.staged[k], d.staged[k])
  {
    hide StagedRowConstraints, FactLinked;
    ExtendedRows(db.staged[k], rows, source, db.facts);
  }

  lemma ParsedRows(job: Job, a: Attempt, counts: Counts, now: Time)
    requires JobConstraints(job) && job.status == Processing && AttemptMatchesJob(a, job.attemptCount, job)
    requires CountsNonNegative(counts) && CountsConstraint(counts) && counts.inserted == 0 && counts.reused == 0
    ensures JobRowEffect(job, ParsedJob(job, counts, now))
    ensures AttemptTrigger(a, ParsedAttempt(a, counts, now))
    ensures AttemptMatchesJob(ParsedAttempt(a, counts, now), job.attemptCount, ParsedJob(job, counts, now))
  {
  }

  lemma UnappliedCounts(job: Job)
    requires JobConstraints(job) && job.status == Processing
    ensures job.counts.inserted == 0 && job.counts.reused == 0 && ValidFor(job.counts, Failed)
  {
  }

  lemma RecordParseBatchSafe(db: Db, k: AttemptKey, token: Token, rows: seq<StagedRow>, issues: seq<Issue>,
                             progress: Counts, now: Time)
    requires Inv(db)
    requires forall r | r in rows :: ParsedRow(r)
    requires forall i | i in issues :: ParsedIssue(i)
    requires k in db.staged ==> InRowOrder(db.staged[k] + rows)
    ensures Safe(db, RecordParseBatch(db, k, token, rows, issues, progress, now))
  {
    hide Inv, Evolves, AttemptData, AttemptMatchesJob, AttemptTrigger, JobConstraints, JobRowEffect, Coupled,
         AttemptConstraints, CountsConstraint, CountsNonNegative;
    LiveClaimDecides(db, k.job, token, now);
    var r := RecordParseBatch(db, k, token, rows, issues, progress, now);
    if r.Ok? {
      NewestFacts(db, k.job);
      var j, d := k.job, r.value;
      var counts := ParseCounts(db.jobs[j].counts, progress);
      RunningCarriesToken(db.attempts[k], k.number, db.jobs[j]);
      UnappliedCounts(db.jobs[j]);
      ParsedRows(db.jobs[j], db.attempts[k], counts, now);
      ParsedStep(db, d, k, rows, issues, counts, now);
    }
  }

  lemma ReceivedWhileProcessing(i: Intake, job: Job, job': Job)
    requires Coupled(i, job) && job.status == Processing && InPlay(job'.status)
    ensures i.status == Received && Coupled(i, job')
  {
  }

  lemma ParsedStep(db: Db, d: Db, k: AttemptKey, rows: seq<StagedRow>, issues: seq<Issue>, counts: Counts, now: Time)
    requires Inv(db) && k.job in db.jobs && db.jobs[k.job].status == Processing && k == Newest(db, k.job)
    requires k in db.attempts && k in db.staged && k in db.issues
    requires (forall r | r in rows :: ParsedRow(r)) && (forall i | i in issues :: ParsedIssue(i))
    requires d == WithClaim(db, k, ParsedJob(db.jobs[k.job], counts, now), ParsedAttempt(db.attempts[k], counts, now))
                    .(staged := db.staged[k := db.staged[k] + rows], issues := db.issues[k := db.issues[k] + issues])
    requires BatchConstraints(d.staged[k], d.issues[k], counts) && InRowOrder(d.staged[k])
    requires JobRowEffect(db.jobs[k.job], d.jobs[k.job]) && AttemptTrigger(db.attempts[k], d.attempts[k])
    requires AttemptMatchesJob(d.attempts[k], k.number, d.jobs[k.job])
    ensures Inv(d) && Evolves(db, d)
  {
    hide Inv, Evolves, AttemptData, AttemptMatchesJob, AttemptTrigger, JobConstraints, JobRowEffect, Coupled,
         StagedRowConstraints, RowsUnique, InRowOrder, IssuesUnique, StagedEvolves, IntakeConstraints, CountsConstraint,
         CountsNonNegative, FactLinked;
    NewestFacts(db, k.job);
    IntakeConstraint(db, k.job);
    assert d.attempts[k].outcome == Running;
    assert d.jobs[k.job].status == Processing;
    ParsedData(db, d, k, rows, issues, db.jobs[k.job], d.jobs[k.job], db.imports[k.job].source);
    ReceivedWhileProcessing(db.imports[k.job], db.jobs[k.job], d.jobs[k.job]);
    WorkerEffectSafe(db, d, k);
  }

  /**
    A stored-object failure commits exactly under a live lease on a received intake;
    otherwise it rolls back wholly.
   */
  lemma StoredObjectFailureUnfolds(db: Db, j: ImportId, token: Token, failure: FailureCode, code: ErrorCode, now: Time)
    requires Inv(db)
    ensures HoldsLease(db, j, token, now) ==> Newest(db, j) in db.attempts && ValidFor(db.jobs[j].counts, Failed)
    ensures StoredObjectFailure(db, j, token, failure, code, now).Ok?
            <==> MarkStoredObjectFailed(db, j, failure, now).Ok? && HoldsLease(db, j, token, now)
    ensures StoredObjectFailure(db, j, token, failure, code, now).Ok? ==>
              var k, counts, text := Newest(db, j), db.jobs[j].counts, code;
              StoredObjectFailure(db, j, token, failure, code, now).value
              == WithClaim(MarkStoredObjectFailed(db, j, failure, now).value, k,
                           FinishedJob(db.jobs[j], Failed, counts, text, now),
                           FinishedAttempt(db.attempts[k], Failed, counts, text, now))
  {
    hide Inv, AttemptData, AttemptMatchesJob, Coupled, JobConstraints, ValidFor, WithClaim, FinishedJob,
         FinishedAttempt, RunningKeys;
    var marked := MarkStoredObjectFailed(db, j, failure, now);
    if marked.Ok? && j in db.jobs {
      assert marked.value.attempts == db.attempts && marked.value.jobs == db.jobs;
      SameRunningKeys(db, marked.value, j, token);
    }
    if HoldsLease(db, j, token, now) {
      LiveClaimIsNewest(db, j, token);
      NewestFacts(db, j);
      UnappliedCounts(db.jobs[j]);
      if marked.Ok? {
        var live := LockedLiveClaim(marked.value, j, token, now);
        assert live.Ok? && live.value in {Newest(db, j)};
      }
    }
  }

  lemma SameRunningKeys(db: Db, d: Db, j: ImportId, token: Token)
    requires db.attempts == d.attempts
    ensures RunningKeys(d, j, token) == RunningKeys(db, j, token)
  {
  }

  lemma MarkedIntake(db: Db, j: ImportId, failure: FailureCode, now: Time, job': Job)
    requires j in db.imports && IntakeConstraints(db.imports[j]) && job'.status == Failed
    requires MarkStoredObjectFailed(db, j, failure, now).Ok?
    ensures IntakeRowEffect(db.imports[j], MarkStoredObjectFailed(db, j, failure, now).value.imports[j], job')
  {
  }

  lemma StoredObjectFailureSafe(db: Db, j: ImportId, token: Token, failure: FailureCode, code: ErrorCode, now: Time)
    requires Inv(db)
    ensures Safe(db, StoredObjectFailure(db, j, token, failure, code, now))
  {
    hide Inv, Evolves, AttemptData, AttemptMatchesJob, AttemptTrigger, JobConstraints, JobRowEffect, Coupled,
         StoredObjectFailure, IntakeConstraints, ValidFor, FinishedJob, FinishedAttempt, IntakeRowEffect;
    StoredObjectFailureUnfolds(db, j, token, failure, code, now);
    var r := StoredObjectFailure(db, j, token, failure, code, now);
    if r.Ok? {
      var k, i' := Newest(db, j), MarkStoredObjectFailed(db, j, failure, now).value.imports[j];
      TokenMeansProcessing(db, j, token);
      NewestFacts(db, j);
      IntakeConstraint(db, j);
      var job', a' := FinishedJob(db.jobs[j], Failed, db.jobs[j].counts, code, now),
                      FinishedAttempt(db.attempts[k], Failed, db.jobs[j].counts, code, now);
      FinishedRows(db.jobs[j], db.attempts[k], Failed, db.jobs[j].counts, code, now);
      FinishedFailed(db.jobs[j], db.attempts[k], db.jobs[j].counts, code, now);
      MarkedIntake(db, j, failure, now, job');
      IntakeAndClaimSafe(db, k, i', job', a');
    }
  }

  lemma FinishedFailed(job: Job, a: Attempt, counts: Counts, code: ErrorCode, now: Time)
    ensures FinishedJob(job, Failed, counts, code, now).status == Failed
    ensures FinishedAttempt(a, Failed, counts, code, now).outcome != OutPublished
  {
  }

  // ----- Claiming -----

  /** Expiry of a leased job ends exactly its newest attempt. */
  lemma ExpireAttemptNewest(db: Db, j: ImportId, now: Time)
    requires Inv(db) && j in db.jobs && db.jobs[j].status == Processing
    ensures Newest(db, j) in db.attempts && db.attempts[Newest(db, j)].outcome == Running
    ensures ExpireAttempt(db, j, now)
            == Ok(db.(attempts := db.attempts[Newest(db, j) := ExpiredAttempt(db.attempts[Newest(db, j)], now)]))
  {
    hide Inv, AttemptData, AttemptMatchesJob, JobConstraints, Coupled, ExpiredAttempt, LeaseKeys;
    NewestFacts(db, j);
    ProcessingHasLease(db.jobs[j]);
    LiveClaimIsNewest(db, j, db.jobs[j].leaseToken.value);
    var k := Newest(db, j);
    assert |LeaseKeys(db, j)| == 1;
    assert (map l | l in db.attempts ::
              if l in LeaseKeys(db, j) then ExpiredAttempt(db.attempts[l], now) else db.attempts[l])
        == db.attempts[k := ExpiredAttempt(db.attempts[k], now)];
  }

  function ExpiredDb(db: Db, j: ImportId, now: Time): Db
    requires j in db.jobs && (db.jobs[j].status == Processing ==> Newest(db, j) in db.attempts)
  {
    if db.jobs[j].status != Processing then db
    else db.(attempts := db.attempts[Newest(db, j) := ExpiredAttempt(db.attempts[Newest(db, j)], now)])
  }

  predicate ClaimReady(db: Db, j: ImportId, worker: string, lease: Time, now: Time) {
    && Claimable(db, j, now) && WorkerAccepted(worker) && lease > 0
    && AttemptKey(j, db.jobs[j].attemptCount + 1) !in db.attempts
    && (db.jobs[j].status == Processing
        ==> Newest(db, j) in db.attempts && db.attempts[Newest(db, j)].outcome == Running)
  }

  function ClaimedDb(db: Db, j: ImportId, worker: string, lease: Time, now: Time, token: Token): Db
    requires ClaimReady(db, j, worker, lease, now)
  {
    AddAttempt(ExpiredDb(db, j, now), AttemptKey(j, db.jobs[j].attemptCount + 1),
               ClaimedJob(db.jobs[j], Strip(worker), lease, now, token), NewAttempt(Strip(worker), now, token))
  }

  /** The claim transaction, with its expiry branch resolved. */
  lemma ClaimUnfolds(db: Db, j: ImportId, worker: string, lease: Time, now: Time, token: Token)
    requires Inv(db) && Claimable(db, j, now) && WorkerAccepted(worker) && lease > 0
    ensures ClaimReady(db, j, worker, lease, now)
    ensures Claim(db, j, worker, lease, now, token) == Ok(ClaimedDb(db, j, worker, lease, now, token))
  {
    hide Inv, JobInv, JobConstraints, Coupled, ExpireAttempt, AddAttempt, ClaimedJob, NewAttempt, ExpiredAttempt,
         WorkerAccepted, Due, IntakeConstraints;
    JobFacts(db, j);
    JobRowFacts(db, j);
    if db.jobs[j].status == Processing {
      ExpireAttemptNewest(db, j, now);
    }
    assert AttemptKey(j, db.jobs[j].attemptCount + 1) !in db.attempts;
  }

  lemma ClaimedConstraints(job: Job, worker: string, lease: Time, now: Time, token: Token)
    requires job.attemptCount < job.maxAttempts <= 32767 && |worker| > 0 && Trimmed(worker)
    ensures JobConstraints(ClaimedJob(job, worker, lease, now, token))
  {
  }

  lemma NewAttemptConstraints(n: nat, worker: string, now: Time, token: Token)
    requires n > 0 && |worker| > 0 && Trimmed(worker)
    ensures AttemptConstraints(n, NewAttempt(worker, now, token))
  {
  }

  lemma DueIsReceived(job: Job, i: Intake, now: Time)
    requires Coupled(i, job) && Due(job, now)
    ensures i.status == Received && i.format == Csv && InPlay(job.status)
    ensures job.status != Published && job.status != Rejected
  {
  }

  lemma ClaimedRow(job: Job, i: Intake, worker: string, lease: Time, now: Time, token: Token)
    requires JobConstraints(job) && Coupled(i, job) && job.attemptCount < job.maxAttempts && Due(job, now)
    requires WorkerAccepted(worker) && lease > 0
    ensures var job' := ClaimedJob(job, Strip(worker), lease, now, token);
            JobConstraints(job') && Coupled(i, job')
            && job'.attemptCount == job.attemptCount + 1 && job'.status == Processing
            && job'.createdAt == job.createdAt && job'.leaseToken == Some(token)
            && AttemptMatchesJob(NewAttempt(Strip(worker), now, token), job.attemptCount + 1, job')
    ensures i.status == Received && job.status != Published && job.status != Rejected
  {
    hide JobConstraints, AttemptConstraints, Due, Strip, Trimmed;
    LimitSupported(job);
    DueIsReceived(job, i, now);
    ClaimedConstraints(job, Strip(worker), lease, now, token);
    NewAttemptConstraints(job.attemptCount + 1, Strip(worker), now, token);
  }

  lemma LimitSupported(job: Job)
    requires JobConstraints(job)
    ensures 0 < job.maxAttempts <= 32767
  {
  }

  /** A finished or just expired attempt stays consistent after its job is claimed again. */
  lemma ClaimedOlder(a: Attempt, n: nat, job: Job, i: Intake, worker: string, lease: Time, now: Time, token: Token)
    requires AttemptMatchesJob(a, n, job) && n <= job.attemptCount && Due(job, now)
    ensures var job' := ClaimedJob(job, worker, lease, now, token);
            if job.status == Processing && n == job.attemptCount then AttemptMatchesJob(ExpiredAttempt(a, now), n, job')
            else AttemptMatchesJob(a, n, job')
  {
  }

  lemma NewAttemptData(d: Db, k: AttemptKey, job: Job, source: Source)
    requires k in d.attempts && k in d.staged && k in d.issues && d.staged[k] == [] && d.issues[k] == []
    ensures AttemptData(d, k, job, source)
  {
  }

  lemma ClaimedOlderData(db: Db, d: Db, j: ImportId, n: nat, worker: string, lease: Time, now: Time, token: Token)
    requires ClaimReady(db, j, worker, lease, now) && d == ClaimedDb(db, j, worker, lease, now, token)
    requires AttemptKey(j, n) in db.attempts && j in db.imports && n <= db.jobs[j].attemptCount
    requires AttemptData(db, AttemptKey(j, n), db.jobs[j], db.imports[j].source)
    requires db.jobs[j].status != Rejected
    ensures AttemptKey(j, n) in d.attempts && AttemptData(d, AttemptKey(j, n), d.jobs[j], db.imports[j].source)
  {
    hide AttemptData, ClaimedJob, Due, WorkerAccepted, NewAttempt, HasConflictIssue;
    DataPresent(db, AttemptKey(j, n), db.jobs[j], db.imports[j].source);
    KeptAttemptData(db, d, AttemptKey(j, n), db.jobs[j], d.jobs[j], db.imports[j].source);
  }

  lemma ClaimedAttempt(db: Db, d: Db, j: ImportId, n: nat, worker: string, lease: Time, now: Time, token: Token)
    requires Inv(db) && ClaimReady(db, j, worker, lease, now) && d == ClaimedDb(db, j, worker, lease, now, token)
    requires AttemptKey(j, n) in d.attempts
    ensures j in db.imports
    ensures AttemptMatchesJob(d.attempts[AttemptKey(j, n)], n, d.jobs[j])
    ensures AttemptData(d, AttemptKey(j, n), d.jobs[j], db.imports[j].source)
  {
    hide Inv, JobInv, AttemptMatchesJob, AttemptData, JobConstraints, Coupled, ClaimedJob, Due, WorkerAccepted,
         NewAttempt, HasConflictIssue, IntakeConstraints, Shape;
    var job, k := db.jobs[j], AttemptKey(j, n);
    JobFacts(db, j);
    JobRowFacts(db, j);
    ClaimedRow(job, db.imports[j], worker, lease, now, token);
    if n != job.attemptCount + 1 {
      AttemptFacts(db, j, n);
      ClaimedOlder(db.attempts[k], n, job, db.imports[j], Strip(worker), lease, now, token);
      ClaimedOlderData(db, d, j, n, worker, lease, now, token);
    } else {
      NewAttemptData(d, k, d.jobs[j], db.imports[j].source);
    }
  }

  lemma ClaimedNumbers(db: Db, d: Db, j: ImportId, worker: string, lease: Time, now: Time, token: Token)
    requires ClaimReady(db, j, worker, lease, now) && d == ClaimedDb(db, j, worker, lease, now, token)
    requires forall n: nat :: AttemptKey(j, n) in db.attempts <==> 1 <= n <= db.jobs[j].attemptCount
    ensures forall n: nat :: AttemptKey(j, n) in d.attempts <==> 1 <= n <= d.jobs[j].attemptCount
    ensures j in d.jobs && d.imports == db.imports
            && d.jobs[j] == ClaimedJob(db.jobs[j], Strip(worker), lease, now, token)
  {
    hide Due, WorkerAccepted, NewAttempt, ExpiredAttempt;
  }

  lemma ClaimJobInv(db: Db, d: Db, j: ImportId, worker: string, lease: Time, now: Time, token: Token)
    requires Inv(db) && ClaimReady(db, j, worker, lease, now) && d == ClaimedDb(db, j, worker, lease, now, token)
    ensures JobInv(d, j)
  {
    hide Inv, AttemptMatchesJob, AttemptData, JobConstraints, Coupled, Due, WorkerAccepted, NewAttempt, ClaimedDb,
         ClaimedJob, IntakeConstraints, Shape;
    JobFacts(db, j);
    JobRowFacts(db, j);
    ClaimedRow(db.jobs[j], db.imports[j], worker, lease, now, token);
    ClaimedNumbers(db, d, j, worker, lease, now, token);
    forall n: nat | AttemptKey(j, n) in d.attempts
      ensures AttemptMatchesJob(d.attempts[AttemptKey(j, n)], n, d.jobs[j])
      ensures AttemptData(d, AttemptKey(j, n), d.jobs[j], db.imports[j].source)
    {
      ClaimedAttempt(db, d, j, n, worker, lease, now, token);
    }
  }

  lemma ClaimedAttemptEvolves(db: Db, d: Db, j: ImportId, k: AttemptKey, worker: string, lease: Time, now: Time,
                              token: Token)
    requires Shape(db) && ClaimReady(db, j, worker, lease, now) && d == ClaimedDb(db, j, worker, lease, now, token)
    requires k in db.attempts && k.job == j
    ensures AttemptEvolves(db, d, k) && d.attempts[k].token == db.attempts[k].token
  {
    hide ClaimedJob, Due, WorkerAccepted, IntakeConstraints;
    StagedEvolvesReflexive(db, k);
    hide StagedEvolves;
  }

  lemma ClaimJobEvolves(db: Db, d: Db, j: ImportId, worker: string, lease: Time, now: Time, token: Token)
    requires Inv(db) && ClaimReady(db, j, worker, lease, now) && d == ClaimedDb(db, j, worker, lease, now, token)
    requires token !in UsedTokens(db)
    ensures JobEvolves(db, d, j)
  {
    hide Inv, JobInv, JobConstraints, Coupled, AttemptMatchesJob, Due, WorkerAccepted, NewAttempt, ExpiredAttempt,
         AttemptEvolves, UsedTokens, IntakeConstraints, Shape, ClaimedJob;
    JobFacts(db, j);
    JobRowFacts(db, j);
    ClaimedRow(db.jobs[j], db.imports[j], worker, lease, now, token);
    forall k | k in db.attempts && k.job == j ensures AttemptEvolves(db, d, k) {
      ClaimedAttemptEvolves(db, d, j, k, worker, lease, now, token);
    }
  }

  lemma ClaimFrameAttempt(db: Db, e: Db, k: AttemptKey, job: Job, attempt: Attempt, l: AttemptKey)
    requires e == db.(attempts := e.attempts) && l.job != k.job
    requires (l in e.attempts <==> l in db.attempts) && (l in db.attempts ==> e.attempts[l] == db.attempts[l])
    ensures SameAttempt(db, AddAttempt(e, k, job, attempt), l)
  {
  }

  lemma ClaimFrames(db: Db, d: Db, j: ImportId, worker: string, lease: Time, now: Time, token: Token)
    requires ClaimReady(db, j, worker, lease, now) && d == ClaimedDb(db, j, worker, lease, now, token)
    ensures forall i: ImportId | i !in {j} :: SameJob(db, d, i)
  {
    hide ClaimedJob, Due, WorkerAccepted, NewAttempt, ExpiredAttempt, SameAttempt;
    forall i: ImportId | i !in {j} ensures SameJob(db, d, i) {
      forall n: nat ensures SameAttempt(db, d, AttemptKey(i, n)) {
        ClaimFrameAttempt(db, ExpiredDb(db, j, now), AttemptKey(j, db.jobs[j].attemptCount + 1),
                          ClaimedJob(db.jobs[j], Strip(worker), lease, now, token),
                          NewAttempt(Strip(worker), now, token), AttemptKey(i, n));
      }
    }
  }

  lemma ExpiredDbRows(db: Db, j: ImportId, now: Time)
    requires Shape(db) && j in db.jobs && (db.jobs[j].status == Processing ==> Newest(db, j) in db.attempts)
    ensures Shape(ExpiredDb(db, j, now)) && TokensKept(db, ExpiredDb(db, j, now))
    ensures ExpiredDb(db, j, now).attempts.Keys == db.attempts.Keys
    ensures ExpiredDb(db, j, now) == db.(attempts := ExpiredDb(db, j, now).attempts)
  {
    hide IntakeConstraints;
  }

  lemma AddedAttemptShape(e: Db, k: AttemptKey, job: Job, attempt: Attempt)
    requires Shape(e) && k.job in e.jobs
    ensures Shape(AddAttempt(e, k, job, attempt))
  {
    hide IntakeConstraints;
  }

  lemma AddedAttemptTokens(db: Db, e: Db, k: AttemptKey, job: Job, attempt: Attempt)
    requires e.attempts.Keys == db.attempts.Keys && TokensKept(db, e)
    requires k !in e.attempts && attempt.token !in UsedTokens(db)
    ensures TokensKept(db, AddAttempt(e, k, job, attempt))
  {
    hide UsedTokens;
    var d := AddAttempt(e, k, job, attempt);
    assert d.attempts.Keys == db.attempts.Keys + {k};
  }

  lemma SameImportsActive(db: Db, d: Db)
    requires ActiveUnique(db) && d.imports == db.imports
    ensures ActiveUnique(d)
  {
  }

  lemma ClaimGlobal(db: Db, d: Db, j: ImportId, worker: string, lease: Time, now: Time, token: Token)
    requires Inv(db) && ClaimReady(db, j, worker, lease, now) && d == ClaimedDb(db, j, worker, lease, now, token)
    requires token !in UsedTokens(db)
    ensures Shape(d) && ActiveUnique(d) && TokensKept(db, d) && FactsGrow(db.facts, d.facts)
  {
    hide Inv, Shape, WorkerAccepted, Due, TokensKept, ClaimedJob, UsedTokens, ActiveUnique, ExpiredDb;
    InvParts(db);
    ExpiredDbRows(db, j, now);
    var k, job', attempt :=
      AttemptKey(j, db.jobs[j].attemptCount + 1), ClaimedJob(db.jobs[j], Strip(worker), lease, now, token),
                            NewAttempt(Strip(worker), now, token);
    AddedAttemptShape(ExpiredDb(db, j, now), k, job', attempt);
    AddedAttemptTokens(db, ExpiredDb(db, j, now), k, job', attempt);
    SameImportsActive(db, d);
  }

  lemma ClaimRefused(db: Db, j: ImportId, worker: string, lease: Time, now: Time, token: Token)
    requires Claimable(db, j, now)
    ensures !(WorkerAccepted(worker) && lease > 0) ==> Claim(db, j, worker, lease, now, token) == Err(InvalidValue)
    ensures j in db.jobs
  {
  }

  /** On an eligible job the claim transaction meets neither a state error nor a duplicate attempt number. */
  lemma ClaimSafe(db: Db, j: ImportId, worker: string, lease: Time, now: Time, token: Token)
    requires Inv(db) && Claimable(db, j, now) && token !in UsedTokens(db)
    ensures Claim(db, j, worker, lease, now, token).Ok? <==> WorkerAccepted(worker) && lease > 0
    ensures Safe(db, Claim(db, j, worker, lease, now, token))
  {
    hide Inv, Evolves, Claimable, Claim, ClaimReady, ClaimedDb, JobInv, JobEvolves, Shape, ActiveUnique, TokensKept,
         FactsGrow, SameJob, UsedTokens, WorkerAccepted;
    ClaimRefused(db, j, worker, lease, now, token);
    if WorkerAccepted(worker) && lease > 0 {
      ClaimUnfolds(db, j, worker, lease, now, token);
      var d := ClaimedDb(db, j, worker, lease, now, token);
      ClaimJobInv(db, d, j, worker, lease, now, token);
      ClaimJobEvolves(db, d, j, worker, lease, now, token);
      ClaimFrames(db, d, j, worker, lease, now, token);
      ClaimGlobal(db, d, j, worker, lease, now, token);
      Assemble(db, d, {j});
    }
  }

  // ----- Exhausting -----

  /** A job at its attempt limit can only be due because its lease expired. */
  lemma AtLimitIsProcessing(db: Db, j: ImportId, now: Time)
    requires Inv(db) && AtLimit(db, j, now)
    ensures db.jobs[j].status == Processing && LeaseKeys(db, j) == {Newest(db, j)} && |LeaseKeys(db, j)| == 1
  {
    hide Inv, JobConstraints, Coupled, AttemptData, AttemptMatchesJob, IntakeConstraints, LeaseKeys, RunningKeys;
    JobFacts(db, j);
    JobRowFacts(db, j);
    ProcessingHasLease(db.jobs[j]);
    LiveClaimIsNewest(db, j, db.jobs[j].leaseToken.value);
  }

  ghost predicate ExhaustEffect(db: Db, d: Db, batch: set<ImportId>, now: Time) {
    && (forall j | j in batch :: j in db.jobs && db.jobs[j].status == Processing)
    && d.imports == db.imports && d.staged == db.staged && d.issues == db.issues && d.facts == db.facts
    && d.jobs.Keys == db.jobs.Keys && d.attempts.Keys == db.attempts.Keys
    && (forall j | j in db.jobs :: d.jobs[j] == if j in batch then ExhaustedJob(db.jobs[j], now) else db.jobs[j])
    && (forall k | k in db.attempts ::
          d.attempts[k]
            == if k.job in batch && k == Newest(db, k.job) then ExpiredAttempt(db.attempts[k], now) else db.attempts[k])
  }

  lemma ExhaustUnfolds(db: Db, batch: set<ImportId>, now: Time)
    requires Inv(db) && forall j | j in batch :: AtLimit(db, j, now)
    ensures Exhaust(db, batch, now).Ok? && ExhaustEffect(db, Exhaust(db, batch, now).value, batch, now)
  {
    hide Inv, LeaseKeys, ExhaustedJob, ExpiredAttempt;
    forall j | j in batch
      ensures j in db.jobs && db.jobs[j].status == Processing && LeaseKeys(db, j) == {Newest(db, j)}
              && |LeaseKeys(db, j)| == 1
    {
      AtLimitIsProcessing(db, j, now);
    }
    InvParts(db);
  }

  lemma ExhaustedRows(job: Job, i: Intake, a: Attempt, n: nat, now: Time)
    requires JobConstraints(job) && Coupled(i, job) && job.status == Processing && AttemptMatchesJob(a, n, job)
             && n <= job.attemptCount
    ensures JobConstraints(ExhaustedJob(job, now)) && Coupled(i, ExhaustedJob(job, now))
    ensures AttemptMatchesJob(if n == job.attemptCount then ExpiredAttempt(a, now) else a, n, ExhaustedJob(job, now))
    ensures i.status == Received && (n == job.attemptCount ==> AttemptTrigger(a, ExpiredAttempt(a, now)))
  {
  }

  lemma ExhaustedData(db: Db, d: Db, batch: set<ImportId>, j: ImportId, n: nat, now: Time)
    requires ExhaustEffect(db, d, batch, now) && j in batch && j in db.imports
    requires AttemptKey(j, n) in db.attempts && AttemptMatchesJob(db.attempts[AttemptKey(j, n)], n, db.jobs[j])
    requires AttemptData(db, AttemptKey(j, n), db.jobs[j], db.imports[j].source)
    ensures AttemptData(d, AttemptKey(j, n), d.jobs[j], d.imports[j].source)
  {
    hide AttemptData, AttemptConstraints, HasConflictIssue;
    DataPresent(db, AttemptKey(j, n), db.jobs[j], db.imports[j].source);
    KeptAttemptData(db, d, AttemptKey(j, n), db.jobs[j], d.jobs[j], db.imports[j].source);
  }

  lemma ExhaustJobInv(db: Db, d: Db, batch: set<ImportId>, j: ImportId, now: Time)
    requires Inv(db) && ExhaustEffect(db, d, batch, now) && j in batch
    ensures JobInv(d, j)
  {
    hide Inv, AttemptData, AttemptMatchesJob, JobConstraints, Coupled, IntakeConstraints, Shape, ExpiredAttempt;
    JobFacts(db, j);
    JobRowFacts(db, j);
    AttemptFacts(db, j, db.jobs[j].attemptCount);
    ExhaustedRows(db.jobs[j], db.imports[j], db.attempts[Newest(db, j)], db.jobs[j].attemptCount, now);
    forall n: nat | AttemptKey(j, n) in d.attempts
      ensures AttemptMatchesJob(d.attempts[AttemptKey(j, n)], n, d.jobs[j])
      ensures AttemptData(d, AttemptKey(j, n), d.jobs[j], d.imports[j].source)
    {
      AttemptFacts(db, j, n);
      ExhaustedRows(db.jobs[j], db.imports[j], db.attempts[AttemptKey(j, n)], n, now);
      ExhaustedData(db, d, batch, j, n, now);
    }
  }

  lemma ExhaustJobEvolves(db: Db, d: Db, batch: set<ImportId>, j: ImportId, now: Time)
    requires Inv(db) && ExhaustEffect(db, d, batch, now) && j in batch
    ensures JobEvolves(db, d, j)
  {
    hide Inv, JobInv, Shape, AttemptData, AttemptMatchesJob, JobConstraints, Coupled, IntakeConstraints, ExpiredAttempt,
         StagedEvolves, AttemptTrigger, UsedTokens;
    JobFacts(db, j);
    JobRowFacts(db, j);
    AttemptFacts(db, j, db.jobs[j].attemptCount);
    ExhaustedRows(db.jobs[j], db.imports[j], db.attempts[Newest(db, j)], db.jobs[j].attemptCount, now);
    forall k | k in db.attempts && k.job == j ensures AttemptEvolves(db, d, k) {
      StagedEvolvesReflexive(db, k);
    }
  }

  lemma ExhaustGlobal(db: Db, d: Db, batch: set<ImportId>, now: Time)
    requires Inv(db) && ExhaustEffect(db, d, batch, now)
    ensures Shape(d) && ActiveUnique(d) && TokensKept(db, d)
    ensures forall i: ImportId | i !in batch :: SameJob(db, d, i)
  {
    hide Inv, IntakeConstraints, ExhaustedJob, TokensUnique, ActiveIntake, UsedTokens;
    InvParts(db);
    forall i: ImportId | i !in batch ensures SameJob(db, d, i) {
      forall n: nat ensures SameAttempt(db, d, AttemptKey(i, n)) {
      }
    }
  }

  /** The cleanup batch cannot meet a state error, and every job it selects fails. */
  lemma ExhaustSafe(db: Db, batch: set<ImportId>, now: Time)
    requires Inv(db) && forall j | j in batch :: AtLimit(db, j, now)
    ensures Exhaust(db, batch, now).Ok? && Safe(db, Exhaust(db, batch, now))
    ensures forall j | j in batch ::
              j in Exhaust(db, batch, now).value.jobs && Exhaust(db, batch, now).value.jobs[j].status == Failed
  {
    hide Inv, Evolves, Exhaust, AtLimit, JobInv, JobEvolves, Shape, ActiveUnique, TokensKept, SameJob;
    ExhaustUnfolds(db, batch, now);
    var d := Exhaust(db, batch, now).value;
    forall j | j in batch ensures JobInv(d, j) && JobEvolves(db, d, j) {
      ExhaustJobInv(db, d, batch, j, now);
      ExhaustJobEvolves(db, d, batch, j, now);
    }
    ExhaustGlobal(db, d, batch, now);
    Assemble(db, d, batch);
  }

  // ----- Intake and requeue -----

  /** The legal effects on a job row of a transaction that writes no attempt. */
  predicate IdleRowEffect(hadJob: bool, job: Job, i: Intake, job': Job, i': Intake) {
    && JobConstraints(job') && Coupled(i', job') && IntakeConstraints(i')
    && job'.status != Processing && job'.status != Published && job'.leaseToken.None?
    && (job'.status == Queued || job'.status == RetryWait ==> job'.attemptCount < job'.maxAttempts)
    && (!InPlay(job'.status) ==> job'.attemptCount == 0)
    && (if !hadJob then job'.attemptCount == 0 && job'.status != Rejected
        else
          && IntakeEvolves(i, i') && job.status != Processing && job.status != Published
          && job'.createdAt == job.createdAt && job'.attemptCount == job.attemptCount
          && (i.status == IntakeFailed ==> job' == job)
          && (job'.status == Rejected ==> job == job'))
  }

  ghost predicate IdleEffect(before: Db, after: Db, j: ImportId) {
    && OnlyJob(before, after, j)
    && after.attempts == before.attempts && after.staged == before.staged && after.issues == before.issues
    && after.facts == before.facts
    && j in after.jobs && j in after.imports
    && (j in before.jobs ==> j in before.imports)
    && (j in before.imports ==> IntakeEvolves(before.imports[j], after.imports[j]))
    && IdleRowEffect(j in before.jobs, if j in before.jobs then before.jobs[j] else after.jobs[j],
                     if j in before.imports then before.imports[j]
                     else after.imports[j], after.jobs[j], after.imports[j])
    && (j in before.jobs && before.jobs[j].status == Rejected && after.jobs[j].status != Rejected
        ==> !HasConflictIssue(before, j))
  }

  lemma IdleAttempt(a: Attempt, n: nat, job: Job, job': Job, i: Intake, i': Intake)
    requires AttemptMatchesJob(a, n, job) && IdleRowEffect(true, job, i, job', i')
    ensures AttemptMatchesJob(a, n, job')
  {
  }

  lemma NoAttemptsWithoutJob(db: Db, j: ImportId)
    requires Shape(db) && j !in db.jobs
    ensures forall n: nat :: AttemptKey(j, n) !in db.attempts
  {
  }

  lemma IdleJobInv(before: Db, after: Db, j: ImportId)
    requires Inv(before) && IdleEffect(before, after, j)
    ensures JobInv(after, j)
  {
    hide Inv, AttemptData, AttemptMatchesJob, JobConstraints, Coupled, IntakeConstraints, HasConflictIssue, Shape,
         IntakeEvolves, OnlyJob;
    if j in before.jobs {
      JobFacts(before, j);
      JobRowFacts(before, j);
    } else {
      InvParts(before);
      NoAttemptsWithoutJob(before, j);
    }
    forall n: nat | AttemptKey(j, n) in after.attempts
      ensures AttemptMatchesJob(after.attempts[AttemptKey(j, n)], n, after.jobs[j])
      ensures AttemptData(after, AttemptKey(j, n), after.jobs[j], after.imports[j].source)
    {
      AttemptFacts(before, j, n);
      IdleAttempt(before.attempts[AttemptKey(j, n)], n, before.jobs[j], after.jobs[j], before.imports[j],
                  after.imports[j]);
      IdleData(before, after, j, n);
    }
  }

  lemma IdleData(before: Db, after: Db, j: ImportId, n: nat)
    requires IdleEffect(before, after, j) && j in before.jobs && AttemptKey(j, n) in before.attempts
    requires AttemptData(before, AttemptKey(j, n), before.jobs[j], before.imports[j].source)
    ensures AttemptData(after, AttemptKey(j, n), after.jobs[j], after.imports[j].source)
  {
    hide AttemptData, JobConstraints, Coupled, IntakeConstraints, HasConflictIssue, OnlyJob;
    DataPresent(before, AttemptKey(j, n), before.jobs[j], before.imports[j].source);
    KeptAttemptData(before, after, AttemptKey(j, n), before.jobs[j], after.jobs[j], before.imports[j].source);
  }

  lemma IdleJobEvolves(before: Db, after: Db, j: ImportId)
    requires IdleEffect(before, after, j)
    ensures JobEvolves(before, after, j)
  {
    hide JobConstraints, Coupled, IntakeConstraints, HasConflictIssue, OnlyJob, StagedEvolves;
    forall k | k in before.attempts && k.job == j ensures AttemptEvolves(before, after, k) {
      StagedEvolvesReflexive(before, k);
    }
  }

  lemma IdleGlobal(before: Db, after: Db, j: ImportId)
    requires Inv(before) && IdleEffect(before, after, j)
    ensures Shape(after) && TokensKept(before, after)
    ensures forall i: ImportId | i !in {j} :: SameJob(before, after, i)
  {
    hide Inv, JobConstraints, Coupled, IntakeConstraints, HasConflictIssue, IntakeEvolves, UsedTokens, TokensUnique,
         ActiveUnique;
    InvParts(before);
    forall i: ImportId | i !in {j} ensures SameJob(before, after, i) {
      forall n: nat ensures SameAttempt(before, after, AttemptKey(i, n)) {
      }
    }
  }

  lemma IdleEffectSafe(before: Db, after: Db, j: ImportId)
    requires Inv(before) && IdleEffect(before, after, j) && ActiveUnique(after)
    ensures Inv(after) && Evolves(before, after)
  {
    hide Inv, Evolves, ActiveUnique, Shape, TokensKept, JobInv, JobEvolves, SameJob, OnlyJob, IdleRowEffect,
         HasConflictIssue, IntakeEvolves;
    IdleJobInv(before, after, j);
    IdleJobEvolves(before, after, j);
    IdleGlobal(before, after, j);
    Assemble(before, after, {j});
  }

  lemma RequeuedConstraints(job: Job, maximum: nat, now: Time)
    requires job.attemptCount < maximum <= 32767
    ensures JobConstraints(RequeuedJob(job, maximum, now))
  {
  }

  lemma RequeuedRow(job: Job, i: Intake, maximum: nat, now: Time)
    requires JobConstraints(job) && Coupled(i, job) && IntakeConstraints(i)
             && (job.status == Failed || job.status == Rejected)
    requires i.status == Received && i.format == Csv && job.attemptCount < maximum <= 32767
    ensures IdleRowEffect(true, job, i, RequeuedJob(job, maximum, now), i)
  {
    hide JobConstraints, IntakeConstraints;
    RequeuedConstraints(job, maximum, now);
  }

  lemma RequeueSafe(db: Db, j: ImportId, additional: int, now: Time)
    requires Inv(db)
    ensures Safe(db, Requeue(db, j, additional, now))
  {
    hide Inv, Evolves, JobInv, Shape, IntakeConstraints, JobConstraints, Coupled, HasConflictIssue, RequeuedJob,
         ActiveUnique, IdleRowEffect, TokensUnique, ActiveIntake;
    var r := Requeue(db, j, additional, now);
    if r.Ok? {
      JobFacts(db, j);
      JobRowFacts(db, j);
      RequeuedRow(db.jobs[j], db.imports[j], Max(db.jobs[j].maxAttempts, db.jobs[j].attemptCount) + additional, now);
      InvParts(db);
      assert ActiveKept(db, r.value);
      ActiveStaysUnique(db, r.value);
      IdleEffectSafe(db, r.value, j);
    }
  }

  /** How the intake may have moved just before `enqueue_import` runs in the same transaction. */
  predicate IntakeMoved(i: Intake, i': Intake) {
    && IntakeConstraints(i') && IntakeEvolves(i, i') && (i' == i || i.status == Receiving)
  }

  lemma AdvancedConstraints(job: Job, desired: JobStatus, now: Time)
    requires JobConstraints(job)
    ensures JobConstraints(AdvancedJob(job, desired, now))
    ensures job.status != WaitingForFile ==> AdvancedJob(job, desired, now) == job
  {
  }

  predicate Applied(status: JobStatus) {
    status == Published || status == Rejected
  }

  lemma AdvancedCoupled(job: Job, i: Intake, now: Time)
    requires job.status == WaitingForFile
    ensures Coupled(i, AdvancedJob(job, DesiredStatus(i), now))
    ensures AdvancedJob(job, DesiredStatus(i), now).status != Processing
            && !Applied(AdvancedJob(job, DesiredStatus(i), now).status)
    ensures AdvancedJob(job, DesiredStatus(i), now).attemptCount == job.attemptCount
    ensures AdvancedJob(job, DesiredStatus(i), now).createdAt == job.createdAt
    ensures AdvancedJob(job, DesiredStatus(i), now).maxAttempts == job.maxAttempts
    ensures AdvancedJob(job, DesiredStatus(i), now).leaseToken == job.leaseToken
  {
  }

  /** Only a waiting job moves, and it moves to where its intake allows. */
  lemma AdvancedRow(job: Job, i: Intake, i': Intake, now: Time)
    requires JobConstraints(job) && Coupled(i, job) && IntakeMoved(i, i')
    requires job.status == Queued || job.status == RetryWait ==> job.attemptCount < job.maxAttempts
    requires !InPlay(job.status) ==> job.attemptCount == 0
    ensures (AdvancedJob(job, DesiredStatus(i'), now) == job && i' == i)
            || IdleRowEffect(true, job, i, AdvancedJob(job, DesiredStatus(i'), now), i')
    ensures job.status == Rejected ==> AdvancedJob(job, DesiredStatus(i'), now) == job
  {
    hide JobConstraints, IntakeConstraints, AdvancedJob, DesiredStatus;
    AdvancedConstraints(job, DesiredStatus(i'), now);
    PositiveLimit(job);
    if i.status == Receiving {
      AdvancedCoupled(job, i', now);
    }
  }

  lemma PositiveLimit(job: Job)
    requires JobConstraints(job)
    ensures job.maxAttempts > 0 && (job.status == WaitingForFile ==> job.leaseToken.None?)
  {
  }

  lemma CreatedConstraints(i: Intake, maxAttempts: nat, now: Time)
    requires IntakeConstraints(i) && 1 <= maxAttempts <= 32767
    ensures JobConstraints(NewJob(i, maxAttempts, now)) && Coupled(i, NewJob(i, maxAttempts, now))
  {
  }

  lemma CreatedRow(before: Intake, i: Intake, maxAttempts: nat, now: Time)
    requires IntakeConstraints(i) && 1 <= maxAttempts <= 32767
    ensures IdleRowEffect(false, NewJob(i, maxAttempts, now), before, NewJob(i, maxAttempts, now), i)
  {
    hide JobConstraints, Coupled, IntakeConstraints;
    CreatedConstraints(i, maxAttempts, now);
  }

  lemma AttemptsLeft(db: Db, j: ImportId)
    requires Inv(db) && j in db.jobs
    ensures db.jobs[j].status == Queued || db.jobs[j].status == RetryWait
            ==> db.jobs[j].attemptCount < db.jobs[j].maxAttempts
    ensures !InPlay(db.jobs[j].status) ==> db.jobs[j].attemptCount == 0
  {
    hide TokensUnique, ActiveUnique, Shape, JobConstraints, Coupled, AttemptData, AttemptMatchesJob;
    assert JobInv(db, j);
  }

  /** `enqueue_import` restores the coupling after its transaction moved or created the intake. */
  lemma EnqueueSafe(db: Db, marked: Db, j: ImportId, maxAttempts: int, now: Time)
    requires Inv(db) && j in marked.imports && marked == db.(imports := db.imports[j := marked.imports[j]])
    requires IntakeConstraints(marked.imports[j]) && ActiveUnique(marked)
    requires j in db.imports ==> IntakeMoved(db.imports[j], marked.imports[j])
    requires j in db.imports || j !in db.jobs
    ensures Safe(db, Enqueue(marked, j, maxAttempts, now))
    ensures Enqueue(marked, j, maxAttempts, now).Ok? <==> 1 <= maxAttempts <= MAX_SUPPORTED_ATTEMPTS
  {
    hide Inv, Evolves, JobInv, Shape, IntakeConstraints, JobConstraints, Coupled, HasConflictIssue, IdleRowEffect,
         ActiveIntake, AdvancedJob, NewJob, TokensUnique, IntakeMoved;
    var r := Enqueue(marked, j, maxAttempts, now);
    if r.Ok? {
      EnqueuedEffect(db, marked, j, maxAttempts, now);
      assert ActiveUnique(r.value);
      if r.value == db {
        EvolvesReflexive(db);
      } else {
        IdleEffectSafe(db, r.value, j);
      }
    }
  }

  lemma EnqueuedEffect(db: Db, marked: Db, j: ImportId, maxAttempts: int, now: Time)
    requires Inv(db) && j in marked.imports && marked == db.(imports := db.imports[j := marked.imports[j]])
    requires IntakeConstraints(marked.imports[j])
    requires j in db.imports ==> IntakeMoved(db.imports[j], marked.imports[j])
    requires j in db.imports || j !in db.jobs
    requires Enqueue(marked, j, maxAttempts, now).Ok?
    ensures Enqueue(marked, j, maxAttempts, now).value == db
            || IdleEffect(db, Enqueue(marked, j, maxAttempts, now).value, j)
  {
    hide Inv, JobInv, Shape, IntakeConstraints, JobConstraints, Coupled, HasConflictIssue, IdleRowEffect, AdvancedJob,
         NewJob, IntakeEvolves;
    var d := Enqueue(marked, j, maxAttempts, now).value;
    if j in db.jobs {
      JobFacts(db, j);
      JobRowFacts(db, j);
      AttemptsLeft(db, j);
      AdvancedRow(db.jobs[j], db.imports[j], marked.imports[j], now);
      if d.jobs[j] == db.jobs[j] && marked.imports[j] == db.imports[j] {
        assert d.jobs == db.jobs && d.imports == db.imports;
        assert d == db;
      }
    } else {
      CreatedRow(if j in db.imports then db.imports[j] else marked.imports[j], marked.imports[j], maxAttempts, now);
    }
  }

  lemma PlainEnqueueSafe(db: Db, j: ImportId, maxAttempts: int, now: Time)
    requires Inv(db)
    ensures Safe(db, Enqueue(db, j, maxAttempts, now))
  {
    hide Inv, Evolves, ActiveUnique, IntakeConstraints, JobInv, Shape;
    if j in db.imports {
      InvParts(db);
      IntakeConstraint(db, j);
      MissingIntakeHasNoJob(db, j);
      assert db.(imports := db.imports[j := db.imports[j]]) == db;
      EnqueueSafe(db, db, j, maxAttempts, now);
    }
  }

  lemma MissingIntakeHasNoJob(db: Db, j: ImportId)
    requires Inv(db)
    ensures j in db.imports || j !in db.jobs
  {
    hide Inv, JobInv, Shape, IntakeConstraints;
    if j in db.jobs {
      JobFacts(db, j);
    }
  }

  lemma CreatedActiveUnique(db: Db, j: ImportId, i: Intake)
    requires ActiveUnique(db) && j !in db.imports && !ExistsActive(db, i.source, i.sha256)
    ensures ActiveUnique(db.(imports := db.imports[j := i]))
  {
  }

  /**
    The duplicate race: of two concurrent uploads of one file the second create
    is refused, and then an active intake of that file is there to be found.
   */
  lemma CreateIntakeSafe(db: Db, j: ImportId, source: Source, format: FileFormat, sha256: string, now: Time)
    requires Inv(db)
    ensures Safe(db, CreateIntake(db, j, source, format, sha256, now))
    ensures CreateIntake(db, j, source, format, sha256, now).Ok?
            <==> j !in db.imports && !ExistsActive(db, source, sha256)
  {
    hide Inv, Evolves, ActiveUnique, ExistsActive, Enqueue;
    if j !in db.imports && !ExistsActive(db, source, sha256) {
      var i := Intake(source, format, sha256, Receiving, "", NoFailure, None, None);
      InvParts(db);
      MissingIntakeHasNoJob(db, j);
      CreatedActiveUnique(db, j, i);
      EnqueueSafe(db, db.(imports := db.imports[j := i]), j, 5, now);
    }
  }

  lemma MarkedSafe(db: Db, marked: Db, j: ImportId, now: Time)
    requires Inv(db) && j in db.imports && j in marked.imports
             && marked == db.(imports := db.imports[j := marked.imports[j]])
    requires IntakeMoved(db.imports[j], marked.imports[j]) && ActiveIntake(db.imports[j])
    ensures Safe(db, Enqueue(marked, j, 5, now)) && Enqueue(marked, j, 5, now).Ok?
  {
    hide Inv, Evolves, ActiveUnique, IntakeConstraints, Enqueue, JobInv, Shape;
    InvParts(db);
    assert ActiveKept(db, marked);
    ActiveStaysUnique(db, marked);
    EnqueueSafe(db, marked, j, 5, now);
  }

  lemma ReceivedIntake(db: Db, j: ImportId, version: string, now: Time)
    requires MarkReceived(db, j, version, now).Ok?
    ensures j in db.imports && ActiveIntake(db.imports[j])
    ensures var d := MarkReceived(db, j, version, now).value;
            d == db.(imports := db.imports[j := d.imports[j]]) && IntakeMoved(db.imports[j], d.imports[j])
  {
  }

  lemma ConfirmReceivedSafe(db: Db, j: ImportId, version: string, now: Time)
    requires Inv(db)
    ensures Safe(db, ConfirmReceived(db, j, version, now))
  {
    hide Inv, Evolves, Enqueue, MarkReceived, IntakeMoved;
    var marked := MarkReceived(db, j, version, now);
    if marked.Ok? {
      ReceivedIntake(db, j, version, now);
      MarkedSafe(db, marked.value, j, now);
    }
  }

  lemma FailedIntake(db: Db, j: ImportId, code: FailureCode, now: Time)
    requires MarkFailed(db, j, code, now).Ok?
    ensures j in db.imports && ActiveIntake(db.imports[j])
    ensures var d := MarkFailed(db, j, code, now).value;
            d == db.(imports := db.imports[j := d.imports[j]]) && IntakeMoved(db.imports[j], d.imports[j])
  {
  }

  lemma ConfirmFailedSafe(db: Db, j: ImportId, code: FailureCode, now: Time)
    requires Inv(db)
    ensures Safe(db, ConfirmFailed(db, j, code, now))
  {
    hide Inv, Evolves, Enqueue, MarkFailed, IntakeMoved;
    var marked := MarkFailed(db, j, code, now);
    if marked.Ok? {
      FailedIntake(db, j, code, now);
      MarkedSafe(db, marked.value, j, now);
    }
  }

  // ----- Every operation -----

  /** Any transaction of any process, with any clock reading, keeps the invariant and evolves legally. */
  lemma PerformSafe(db: Db, op: Op, now: Time)
    requires Inv(db) && Enabled(db, op, now)
    ensures Safe(db, Perform(db, op, now))
  {
    hide Inv, Evolves, UsedTokens, Claimable, AtLimit, CreateIntake, Enqueue, ConfirmReceived, ConfirmFailed, Requeue,
         Claim, Exhaust, Heartbeat, AdvancePhase, RecordParseBatch, ScheduleRetry, CompleteJob, StoredObjectFailure;
    match op
    case OpCreate(j, source, format, sha256) => CreateIntakeSafe(db, j, source, format, sha256, now);
    case OpEnqueue(j, maxAttempts) => PlainEnqueueSafe(db, j, maxAttempts, now);
    case OpReceived(j, version) => ConfirmReceivedSafe(db, j, version, now);
    case OpIntakeFailed(j, failure) => ConfirmFailedSafe(db, j, failure, now);
    case OpRequeue(j, additional) => RequeueSafe(db, j, additional, now);
    case OpClaim(j, worker, lease, token) => ClaimSafe(db, j, worker, lease, now, token);
    case OpExhaust(batch) => ExhaustSafe(db, batch, now);
    case OpHeartbeat(j, token, lease) => HeartbeatSafe(db, j, token, lease, now);
    case OpPhase(j, token, phase) => AdvancePhaseSafe(db, j, token, phase, now);
    case OpParse(k, token, rows, issues, progress) => RecordParseBatchSafe(db, k, token, rows, issues, progress, now);
    case OpRetry(j, token, code, base, maximum) => ScheduleRetrySafe(db, j, token, code, base, maximum, now);
    case OpComplete(j, token, status, counts, code) => CompleteJobSafe(db, j, token, status, counts, code, now);
    case OpObjectFailure(j, token, failure, code) => StoredObjectFailureSafe(db, j, token, failure, code, now);
  }
}
