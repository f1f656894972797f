/** How transactions spend a job's attempts, and what can still happen to a job that has none left. */
module QueueTermination {
  import opened Results
  import opened Text
  import opened Tables
  import opened QueueSpec
  import opened QueueInvariant
  import opened QueueSafety
  import opened QueueFrames
  import opened RetryDelay

  /** What a queue or intake transaction may do to a job's attempts; it never publishes. */
  predicate Budget(job: Job, job': Job, claims: nat, requeued: bool) {
    && job'.attemptCount == job.attemptCount + claims && (!requeued ==> job'.maxAttempts == job.maxAttempts)
    && (job'.status == Published ==> job.status == Published)
  }

  predicate ClaimsJob(op: Op, j: ImportId) {
    op.OpClaim? && op.j == j
  }

  predicate RequeuesJob(op: Op, j: ImportId) {
    op.OpRequeue? && op.j == j
  }

  lemma LiveClaimJob(db: Db, j: ImportId, token: Token, now: Time)
    ensures LockedLiveClaim(db, j, token, now).Ok? ==> LockedLiveClaim(db, j, token, now).value.job == j && j in db.jobs
  {
  }

  lemma WorkerBudget(db: Db, op: Op, now: Time, j: ImportId)
    requires Enabled(db, op, now) && j in db.jobs
    requires op.OpHeartbeat? || op.OpPhase? || op.OpRetry? || op.OpComplete? || op.OpParse? || op.OpObjectFailure?
    ensures var d := After(db, Perform(db, op, now));
            j in d.jobs && Budget(db.jobs[j], d.jobs[j], 0, false)
  {
    hide RunningKeys, HoldsLease, LockedLiveClaim, ValidFor, BatchConstraints, BoundedDelay, ParsedAttempt,
         FinishedAttempt, RetriedAttempt;
    if op.OpParse? {
      LiveClaimJob(db, op.k.job, op.token, now);
    } else {
      LiveClaimJob(db, op.j, op.token, now);
      if op.OpObjectFailure? && MarkStoredObjectFailed(db, op.j, op.failure, now).Ok? {
        LiveClaimJob(MarkStoredObjectFailed(db, op.j, op.failure, now).value, op.j, op.token, now);
      }
    }
  }

  lemma ClaimBudget(db: Db, op: Op, now: Time, j: ImportId)
    requires Enabled(db, op, now) && j in db.jobs && op.OpClaim?
    ensures var r := Perform(db, op, now);
            && j in After(db, r).jobs
            && Budget(db.jobs[j], After(db, r).jobs[j], if ClaimsJob(op, j) && r.Ok? then 1 else 0, false)
  {
    hide WorkerAccepted, NewAttempt, ExpiredAttempt, LeaseKeys, UsedTokens;
  }

  lemma QueueBudget(db: Db, op: Op, now: Time, j: ImportId)
    requires Enabled(db, op, now) && j in db.jobs && (op.OpRequeue? || op.OpClaim? || op.OpExhaust?)
    ensures var r := Perform(db, op, now);
            && j in After(db, r).jobs
            && Budget(db.jobs[j], After(db, r).jobs[j], if ClaimsJob(op, j) && r.Ok? then 1 else 0, RequeuesJob(op, j))
  {
    hide HasConflictIssue, ExpiredAttempt, LeaseKeys, Claim;
    if op.OpClaim? {
      ClaimBudget(db, op, now, j);
    }
  }

  lemma IntakeBudget(db: Db, op: Op, now: Time, j: ImportId)
    requires Enabled(db, op, now) && j in db.jobs
             && (op.OpCreate? || op.OpEnqueue? || op.OpReceived? || op.OpIntakeFailed?)
    ensures var d := After(db, Perform(db, op, now));
            j in d.jobs && Budget(db.jobs[j], d.jobs[j], 0, false)
  {
    hide ExistsActive, Strip, NewJob;
  }

  /** Attempts are counted by claims and by nothing else; the limit is raised by requeues and by nothing else. */
  lemma OpBudget(db: Db, op: Op, now: Time, j: ImportId)
    requires Enabled(db, op, now) && j in db.jobs
    ensures var r := Perform(db, op, now);
            && j in After(db, r).jobs
            && Budget(db.jobs[j], After(db, r).jobs[j], if ClaimsJob(op, j) && r.Ok? then 1 else 0, RequeuesJob(op, j))
  {
    hide Perform, Enabled;
    match op
    case OpRequeue(_, _) => QueueBudget(db, op, now, j);
    case OpClaim(_, _, _, _) => QueueBudget(db, op, now, j);
    case OpExhaust(_) => QueueBudget(db, op, now, j);
    case OpCreate(_, _, _, _) => IntakeBudget(db, op, now, j);
    case OpEnqueue(_, _) => IntakeBudget(db, op, now, j);
    case OpReceived(_, _) => IntakeBudget(db, op, now, j);
    case OpIntakeFailed(_, _) => IntakeBudget(db, op, now, j);
    case _ => WorkerBudget(db, op, now, j);
  }

  lemma NewJobsUnpublished(db: Db, op: Op, now: Time, j: ImportId)
    requires Enabled(db, op, now) && j !in db.jobs && j in After(db, Perform(db, op, now)).jobs
    ensures After(db, Perform(db, op, now)).jobs[j].status != Published
  {
    hide RunningKeys, HoldsLease, LockedLiveClaim, ValidFor, BatchConstraints, BoundedDelay, ParsedAttempt,
         FinishedAttempt, RetriedAttempt, HasConflictIssue, WorkerAccepted, NewAttempt, ExpiredAttempt, LeaseKeys,
         ExistsActive, Strip, BeatenJob, ParsedJob, FinishedJob, RetriedJob;
    if !op.OpExhaust? && !op.OpParse? && !op.OpCreate? && !op.OpEnqueue? && !op.OpReceived? && !op.OpIntakeFailed?
      && !op.OpRequeue? && !op.OpClaim? {
      LiveClaimJob(db, op.j, op.token, now);
      if op.OpObjectFailure? && MarkStoredObjectFailed(db, op.j, op.failure, now).Ok? {
        LiveClaimJob(MarkStoredObjectFailed(db, op.j, op.failure, now).value, op.j, op.token, now);
      }
    } else if op.OpParse? {
      LiveClaimJob(db, op.k.job, op.token, now);
    }
  }

  // ----- No attempts left -----

  lemma ExpiredHoldsNothing(db: Db, j: ImportId, token: Token, now: Time)
    requires j in db.jobs && db.jobs[j].leaseExpiresAt.Some? && db.jobs[j].leaseExpiresAt.value <= now
    ensures LockedLiveClaim(db, j, token, now) == Err(ClaimLost)
    ensures forall imports: map<ImportId, Intake> ::
              LockedLiveClaim(db.(imports := imports), j, token, now) == Err(ClaimLost)
  {
    hide RunningKeys;
  }

  lemma ExpiredWorker(db: Db, op: Op, now: Time, j: ImportId)
    requires Enabled(db, op, now) && j in db.jobs && db.jobs[j].leaseExpiresAt.Some?
             && db.jobs[j].leaseExpiresAt.value <= now
    requires RowLocks(op) == {j}
             && (op.OpHeartbeat? || op.OpPhase? || op.OpRetry? || op.OpComplete? || op.OpParse? || op.OpObjectFailure?)
    ensures Perform(db, op, now).Err?
  {
    hide RunningKeys, HoldsLease, LockedLiveClaim, ValidFor, BatchConstraints, BoundedDelay;
    if op.OpParse? {
      ExpiredHoldsNothing(db, op.k.job, op.token, now);
    } else {
      assert j in {op.j};
      ExpiredHoldsNothing(db, op.j, op.token, now);
    }
  }

  /**
    A queue or intake transaction leaves an expired job at its limit as it is or
    fails it. A publication that holds the row can still finish it: see `AttemptLimits`.
   */
  lemma QueueOnlyFails(db: Db, op: Op, now: Time, j: ImportId)
    requires Inv(db) && Enabled(db, op, now) && AtLimit(db, j, now)
    ensures var d := After(db, Perform(db, op, now));
            j in d.jobs && (d.jobs[j] == db.jobs[j] || d.jobs[j] == ExhaustedJob(db.jobs[j], now))
  {
    hide Inv, Keeps, Heartbeat, AdvancePhase, RecordParseBatch, ScheduleRetry, CompleteJob, StoredObjectFailure,
         HasConflictIssue, WorkerAccepted, ExistsActive, Strip, NewJob, Claim, LeaseKeys, ExhaustedJob, ExpiredAttempt,
         Enqueue, CreateIntake, ConfirmFailed, ConfirmReceived;
    AtLimitIsProcessing(db, j, now);
    var d := After(db, Perform(db, op, now));
    if j !in RowLocks(op) {
      PerformKeeps(db, op, now);
      KeptRow(db, d, RowLocks(op), j);
    } else if !op.OpExhaust? && !op.OpRequeue? && !op.OpClaim? {
      assert RowLocks(op) == {j};
      ExpiredWorker(db, op, now, j);
    }
  }

  lemma KeptRow(db: Db, d: Db, jobs: set<ImportId>, j: ImportId)
    requires Keeps(db, d, jobs) && j in db.jobs && j !in jobs && db.jobs[j].status == Processing
    ensures j in d.jobs && d.jobs[j] == db.jobs[j]
  {
    assert SameJob(db, d, j);
  }

  /** With attempts exhausted and the lease expired, the cleanup of any batch holding the job fails it. */
  lemma ExhaustFails(db: Db, batch: set<ImportId>, now: Time, j: ImportId)
    requires Inv(db) && j in batch && Enabled(db, OpExhaust(batch), now)
    ensures Exhaust(db, batch, now).Ok? && j in Exhaust(db, batch, now).value.jobs
    ensures Exhaust(db, batch, now).value.jobs[j] == ExhaustedJob(db.jobs[j], now)
  {
    hide Inv, ExhaustedJob, ExpiredAttempt, LeaseKeys, Exhaust;
    ExhaustUnfolds(db, batch, now);
  }

  // ----- What the invariant means for one job -----

  /** The states of an upload and of its job determine each other. */
  lemma IntakeAndJob(db: Db, j: ImportId)
    requires Inv(db) && j in db.jobs
    ensures j in db.imports
    ensures var i, job := db.imports[j], db.jobs[j];
            && (i.status == Receiving <==> job.status == WaitingForFile)
            && (i.status == IntakeFailed ==> job.status == Failed)
            && (job.status == Queued || job.status == Processing || job.status == RetryWait || job.status == Published
                || job.status == Rejected
                ==> i.status == Received && i.format == Csv)
            && (i.status == Received && i.format == Xlsx <==> job.status == AwaitingParser)
  {
    hide Inv, JobInv, JobConstraints;
    JobFacts(db, j);
    JobRowFacts(db, j);
  }

  /**
    A job is processing exactly when it has a lease, and then exactly one running
    attempt, the newest, carries its token and counters; attempts are numbered
    without gaps and never exceed the limit; waiting jobs have attempts left.
   */
  lemma JobAndAttempts(db: Db, j: ImportId)
    requires Inv(db) && j in db.jobs
    ensures var job := db.jobs[j];
            && (job.status == Processing <==> job.leaseToken.Some?)
            && (forall n: nat :: AttemptKey(j, n) in db.attempts <==> 1 <= n <= job.attemptCount)
            && job.attemptCount <= job.maxAttempts <= 32767
            && (job.status == Queued || job.status == RetryWait ==> job.attemptCount < job.maxAttempts)
            && (forall n: nat | AttemptKey(j, n) in db.attempts ::
                  db.attempts[AttemptKey(j, n)].outcome == Running
                  <==> n == job.attemptCount && job.status == Processing)
            && (job.status == Processing ==>
                  && Newest(db, j) in db.attempts && job.leaseToken == Some(db.attempts[Newest(db, j)].token)
                  && job.counts == db.attempts[Newest(db, j)].counts && LeaseKeys(db, j) == {Newest(db, j)})
  {
    hide Inv, AttemptData, AttemptConstraints, Coupled, LeaseKeys, RunningKeys, CountsConstraint, CountsNonNegative,
         AppliedCountsConstraint;
    JobFacts(db, j);
    JobRowFacts(db, j);
    forall n: nat | AttemptKey(j, n) in db.attempts
      ensures db.attempts[AttemptKey(j, n)].outcome == Running
              <==> n == db.jobs[j].attemptCount && db.jobs[j].status == Processing
    {
      AttemptFacts(db, j, n);
    }
    if db.jobs[j].status == Processing {
      NewestFacts(db, j);
      LiveClaimIsNewest(db, j, db.jobs[j].leaseToken.value);
    }
  }
}
