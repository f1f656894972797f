/**
  The queue as it runs: methods that update the tables in place, each proved to
  leave exactly the database its transaction is specified to leave.
 */
module QueueService {
  import opened Results
  import opened Text
  import opened Tables
  import opened RetryDelay
  import opened QueueSpec
  import opened QueueInvariant
  import opened QueueSafety
  import QueueMeaning

  function ErrorOf(result: Commit): Option<QueueError> {
    if result.Err? then Some(result.error) else None
  }

  class ImportQueue {
    var imports: map<ImportId, Intake>
    var jobs: map<ImportId, Job>
    var attempts: map<AttemptKey, Attempt>
    var staged: map<AttemptKey, seq<StagedRow>>
    var issues: map<AttemptKey, seq<Issue>>
    var facts: map<FactKey, Fact>
    var master: Master

    function Contents(): Db
      reads this
    {
      Db(imports, jobs, attempts, staged, issues, facts, master)
    }

    constructor (db: Db)
      ensures Contents() == db
    {
      imports, jobs, attempts, staged, issues, facts, master :=
        db.imports, db.jobs, db.attempts, db.staged, db.issues, db.facts, db.master;
    }

    /** Rolls back to a savepoint. */
    method Restore(db: Db)
      modifies this
      ensures Contents() == db
    {
      imports, jobs, attempts, staged, issues, facts, master :=
        db.imports, db.jobs, db.attempts, db.staged, db.issues, db.facts, db.master;
    }

    // ----- Intake rows -----

    /** `SalesImport.mark_received`: a compare-and-set on the receiving status. */
    method MarkReceived(j: ImportId, version: string, now: Time) returns (error: Option<QueueError>)
      modifies this`imports
      ensures Contents() == After(old(Contents()), QueueSpec.MarkReceived(old(Contents()), j, version, now))
      ensures error == ErrorOf(QueueSpec.MarkReceived(old(Contents()), j, version, now))
    {
      var versionId := Strip(version);
      if |versionId| == 0 {
        return Some(InvalidValue);
      }
      var updated := 0;
      if j in imports && imports[j].status == Receiving {
        imports := imports[j := imports[j].(status := Received, versionId := versionId, receivedAt := Some(now),
                                             failure := NoFailure, failedAt := None)];
        updated := 1;
      }
      error := if updated != 1 then Some(TransitionLost) else None;
    }

    method MarkFailed(j: ImportId, code: FailureCode, now: Time) returns (error: Option<QueueError>)
      modifies this`imports
      ensures Contents() == After(old(Contents()), QueueSpec.MarkFailed(old(Contents()), j, code, now))
      ensures error == ErrorOf(QueueSpec.MarkFailed(old(Contents()), j, code, now))
    {
      if code == NoFailure {
        return Some(InvalidValue);
      }
      var updated := 0;
      if j in imports && imports[j].status == Receiving {
        imports :=
          imports[j := imports[j].(status := IntakeFailed, versionId := "", receivedAt := None, failure := code,
                                   failedAt := Some(now))];
        updated := 1;
      }
      error := if updated != 1 then Some(TransitionLost) else None;
    }

    method MarkStoredObjectFailed(j: ImportId, code: FailureCode, now: Time) returns (error: Option<QueueError>)
      modifies this`imports
      ensures Contents() == After(old(Contents()), QueueSpec.MarkStoredObjectFailed(old(Contents()), j, code, now))
      ensures error == ErrorOf(QueueSpec.MarkStoredObjectFailed(old(Contents()), j, code, now))
    {
      if code != ObjectMissing && code != VerificationFailed {
        return Some(InvalidValue);
      }
      var updated := 0;
      if j in imports && imports[j].status == Received {
        imports := imports[j := imports[j].(status := IntakeFailed, failure := code, failedAt := Some(now))];
        updated := 1;
      }
      error := if updated != 1 then Some(TransitionLost) else None;
    }

    // ----- Queueing -----

    method EnqueueImport(j: ImportId, maxAttempts: int, now: Time) returns (error: Option<QueueError>)
      modifies this`jobs
      ensures Contents() == After(old(Contents()), Enqueue(old(Contents()), j, maxAttempts, now))
      ensures error == ErrorOf(Enqueue(old(Contents()), j, maxAttempts, now))
    {
      if !(1 <= maxAttempts <= MAX_SUPPORTED_ATTEMPTS) {
        return Some(InvalidValue);
      }
      if j !in imports {
        return Some(NotFound);
      }
      var intake := imports[j];
      var desired: JobStatus;
      var finishedAt: Option<Time> := None;
      match intake.status {
        case Receiving => desired := WaitingForFile;
        case Received => desired := if intake.format == Csv then Queued else AwaitingParser;
        case IntakeFailed => desired := Failed; finishedAt := Some(now);
      }
      if j !in jobs {
        jobs := jobs[j := Job(desired, now, now, 0, maxAttempts, None, "", None, None, None, finishedAt, NO_COUNTS,
                              NoErrorCode)];
        return None;
      }
      var job := jobs[j];
      if job.status == WaitingForFile && (desired == Queued || desired == AwaitingParser) {
        job := job.(status := desired, availableAt := now);
      } else if job.status == WaitingForFile && desired == Failed {
        job := job.(status := Failed, finishedAt := Some(now), errorCode := IntakeStorageFailedCode);
      }
      jobs := jobs[j := job];
      error := None;
    }

    method RequeueJob(j: ImportId, additional: int, now: Time) returns (error: Option<QueueError>)
      modifies this`jobs
      ensures Contents() == After(old(Contents()), Requeue(old(Contents()), j, additional, now))
      ensures error == ErrorOf(Requeue(old(Contents()), j, additional, now))
    {
      hide HasConflictIssue;
      if additional < 1 {
        return Some(InvalidValue);
      }
      if j !in jobs || j !in imports {
        return Some(NotFound);
      }
      var job := jobs[j];
      if job.status != Failed && job.status != Rejected {
        return Some(StateError);
      }
      if imports[j].status != Received {
        return Some(StateError);
      }
      if imports[j].format != Csv {
        return Some(StateError);
      }
      if job.status == Rejected && (job.errorCode == ConflictCode || HasConflictIssue(Contents(), j)) {
        return Some(StateError);
      }
      var newMaximum := (if job.maxAttempts >= job.attemptCount then job.maxAttempts else job.attemptCount)
        + additional;
      if newMaximum > MAX_SUPPORTED_ATTEMPTS {
        return Some(InvalidValue);
      }
      job := job.(status := Queued, availableAt := now, maxAttempts := newMaximum);
      job := ClearLease(job);
      job := job.(finishedAt := None, errorCode := NoErrorCode);
      job := job.(counts := NO_COUNTS);
      jobs := jobs[j := job];
      error := None;
    }

    // ----- Claiming -----

    /** The head of `ORDER BY available_at, created_at, pk`. */
    method First(candidates: set<ImportId>) returns (j: ImportId)
      requires candidates != {} && forall c | c in candidates :: c in jobs
      ensures j in candidates && forall c | c in candidates && c != j :: Precedes(Contents(), j, c)
    {
      j :| j in candidates;
      var rest := candidates - {j};
      while rest != {}
        invariant rest <= candidates && j in candidates && j !in rest
        invariant forall c | c in candidates && c !in rest && c != j :: Precedes(Contents(), j, c)
        decreases |rest|
      {
        var c :| c in rest;
        rest := rest - {c};
        if Precedes(Contents(), c, j) {
          j := c;
        }
      }
    }

    /** `_finish_expired_attempt`: its update must have matched exactly one row. */
    method FinishExpiredAttempt(j: ImportId, now: Time) returns (error: Option<QueueError>)
      requires j in jobs
      modifies this`attempts
      ensures error == ErrorOf(ExpireAttempt(old(Contents()), j, now))
      ensures error.None? ==> Contents() == After(old(Contents()), ExpireAttempt(old(Contents()), j, now))
    {
      hide LeaseKeys, ExpiredAttempt;
      var matching := LeaseKeys(Contents(), j);
      attempts := map k | k in attempts :: if k in matching then ExpiredAttempt(attempts[k], now) else attempts[k];
      var updated := |matching|;
      error := if updated != 1 then Some(StateError) else None;
    }

    method MarkExhausted(j: ImportId, now: Time)
      requires j in jobs
      modifies this`jobs
      ensures jobs == old(jobs)[j := ExhaustedJob(old(jobs)[j], now)]
    {
      var job := jobs[j];
      job := job.(status := Failed);
      job := ClearLease(job);
      job := job.(finishedAt := Some(now), errorCode := AttemptLimitCode);
      jobs := jobs[j := job];
    }

    /** The jobs the cleanup query returns: at most 100, in queue order, skipping locked rows. */
    method SelectExhausted(now: Time, locked: set<ImportId>) returns (batch: seq<ImportId>)
      ensures ExhaustedSelection(Contents(), now, locked, batch)
    {
      hide AtLimit, Precedes;
      var candidates := AtLimitJobs(Contents(), now, locked);
      batch := [];
      while |batch| < EXHAUSTED_BATCH && candidates != {}
        invariant |batch| <= EXHAUSTED_BATCH && candidates <= AtLimitJobs(Contents(), now, locked)
        invariant forall j | j in AtLimitJobs(Contents(), now, locked) ::
                    j in Contents().jobs && (j in candidates <==> j !in batch)
        invariant forall j | j in batch :: j in AtLimitJobs(Contents(), now, locked)
        invariant forall a, b | 0 <= a < b < |batch| :: batch[a] != batch[b]
        invariant forall j, c | j in batch && c in candidates :: Precedes(Contents(), j, c)
        decreases |candidates|
      {
        var j := First(candidates);
        batch := batch + [j];
        candidates := candidates - {j};
      }
    }

    /** `_mark_exhausted_batch`: the selected jobs fail one by one, or the whole transaction is rolled back. */
    method MarkExhaustedBatch(now: Time, locked: set<ImportId>)
      returns (batch: seq<ImportId>, error: Option<QueueError>)
      modifies this
      ensures ExhaustedSelection(old(Contents()), now, locked, batch)
      ensures Contents() == After(old(Contents()), Exhaust(old(Contents()), Members(batch), now))
      ensures error == ErrorOf(Exhaust(old(Contents()), Members(batch), now))
    {
      hide AtLimit, Precedes, ExpiredAttempt, LeaseKeys, ExhaustedDb, ExpireAttempt;
      var savepoint := Contents();
      batch := SelectExhausted(now, locked);
      SelectionExists(savepoint, now, locked, batch);
      NothingExhausted(savepoint, now);
      for n := 0 to |batch|
        invariant Contents() == ExhaustedDb(savepoint, Members(batch[..n]), now)
        invariant forall i | 0 <= i < n ::
                    !(savepoint.jobs[batch[i]].status == Processing && |LeaseKeys(savepoint, batch[i])| != 1)
      {
        var j := batch[n];
        ExhaustOne(savepoint, batch, n, now);
        if jobs[j].status == Processing {
          error := FinishExpiredAttempt(j, now);
          if error.Some? {
            assert j in Members(batch);
            Restore(savepoint);
            return;
          }
        }
        MarkExhausted(j, now);
      }
      assert batch[..|batch|] == batch;
      error := None;
    }

    /** The job and attempt rows of a new claim. */
    method WriteClaim(k: AttemptKey, workerId: string, lease: Time, now: Time, token: Token)
      requires k.job in jobs && k.number == jobs[k.job].attemptCount + 1
      modifies this
      ensures Contents()
              == AddAttempt(old(Contents()), k, ClaimedJob(old(jobs[k.job]), workerId, lease, now, token),
                            NewAttempt(workerId, now, token))
    {
      var job := jobs[k.job];
      job := job.(status := Processing, attemptCount := k.number, leaseToken := Some(token), leasedBy := workerId,
                  leaseExpiresAt := Some(now + lease), heartbeatAt := Some(now));
      if job.firstStartedAt.None? {
        job := job.(firstStartedAt := Some(now));
      }
      job := job.(finishedAt := None, errorCode := NoErrorCode);
      job := job.(counts := NO_COUNTS);
      jobs := jobs[k.job := job];
      attempts := attempts[k := Attempt(token, workerId, Claimed, Running, now, now, None, NO_COUNTS, NoErrorCode)];
      staged, issues := staged[k := []], issues[k := []];
    }

    /** The claim query and the writes that follow it, after the cleanup has committed. */
    method ClaimReadyJob(worker: string, lease: Time, now: Time, token: Token, locked: set<ImportId>)
      returns (claim: Result<Option<AttemptKey>, QueueError>)
      requires WorkerAccepted(worker) && lease > 0
      modifies this
      ensures claim.Ok? && claim.value.None?
              ==> Contents() == old(Contents()) && ClaimableJobs(Contents(), now, locked) == {}
      ensures claim.Ok? && claim.value.Some? ==>
                var j := claim.value.value.job;
                && FirstClaimable(old(Contents()), now, locked, j)
                && claim.value.value == AttemptKey(j, old(jobs)[j].attemptCount + 1)
                && Claim(old(Contents()), j, worker, lease, now, token) == Ok(Contents())
      ensures claim.Err? ==>
                && Contents() == old(Contents())
                && exists j | j in old(jobs) :: Claim(old(Contents()), j, worker, lease, now, token) == Err(claim.error)
                                              && FirstClaimable(old(Contents()), now, locked, j)
    {
      hide Claimable, Precedes, WorkerAccepted, ExpireAttempt, Strip, ClaimableJobs, FirstClaimable, ErrorOf, LeaseKeys,
           Claim, ClaimedJob, NewAttempt, AddAttempt;
      var savepoint := Contents();
      var candidates := ClaimableJobs(Contents(), now, locked);
      if candidates == {} {
        return Ok(None);
      }
      ClaimableExist(savepoint, now, locked);
      var j := First(candidates);
      HeadIsFirst(savepoint, now, locked, j);
      ClaimSteps(savepoint, j, worker, lease, now, token);
      assert j in old(jobs);
      var job := jobs[j];
      if job.status == Processing {
        var error := FinishExpiredAttempt(j, now);
        if error.Some? {
          Restore(savepoint);
          return Err(error.value);
        }
      }
      var k := AttemptKey(j, job.attemptCount + 1);
      if k in attempts {
        Restore(savepoint);
        return Err(ConstraintViolated);
      }
      WriteClaim(k, Strip(worker), lease, now, token);
      claim := Ok(Some(k));
    }

    /**
      `claim_next_job`: exhausted jobs are failed in a transaction of their own, then the
      first ready job is claimed: the least by time, creation and key of those that have
      attempts left and have waited, or whose lease has run out.
     */
    method ClaimNextJob(worker: string, lease: Time, now: Time, token: Token, locked: set<ImportId>)
      returns (claim: Result<Option<AttemptKey>, QueueError>, batch: seq<ImportId>)
      requires Inv(Contents()) && token !in UsedTokens(Contents())
      modifies this
      ensures Inv(Contents()) && Evolves(old(Contents()), Contents())
      ensures claim.Err? <==> !WorkerAccepted(worker) || lease <= 0
      ensures claim.Err? ==> Contents() == old(Contents())
      ensures claim.Ok? ==>
                && ExhaustedSelection(old(Contents()), now, locked, batch)
                && var cleaned := ExhaustedDb(old(Contents()), Members(batch), now);
                   && Exhaust(old(Contents()), Members(batch), now) == Ok(cleaned)
                   && (claim.value.None? ==> Contents() == cleaned && ClaimableJobs(cleaned, now, locked) == {})
                   && (claim.value.Some? ==>
                         var j := claim.value.value.job;
                         && FirstClaimable(cleaned, now, locked, j)
                         && claim.value.value == AttemptKey(j, cleaned.jobs[j].attemptCount + 1)
                         && Claim(cleaned, j, worker, lease, now, token) == Ok(Contents()))
      ensures |batch| <= 100
      ensures claim.Ok? && claim.value.None? ==>
                forall j | j in jobs && j !in locked && jobs[j].attemptCount < jobs[j].maxAttempts ::
                  && !((jobs[j].status == Queued || jobs[j].status == RetryWait) && jobs[j].availableAt <= now)
                  && !(jobs[j].status == Processing && jobs[j].leaseExpiresAt.Some?
                       && jobs[j].leaseExpiresAt.value <= now)
      ensures claim.Ok? && claim.value.Some? ==>
                var j := claim.value.value.job;
                && j in old(jobs) && j !in locked && old(jobs)[j].attemptCount < old(jobs)[j].maxAttempts
                && (|| ((old(jobs)[j].status == Queued || old(jobs)[j].status == RetryWait)
                        && old(jobs)[j].availableAt <= now)
                    || (old(jobs)[j].status == Processing && old(jobs)[j].leaseExpiresAt.Some?
                        && old(jobs)[j].leaseExpiresAt.value <= now))
      ensures claim.Ok? && claim.value.Some? ==>
                var j := claim.value.value.job;
                forall c | c in old(jobs) && c !in locked && c != j
                && old(jobs)[c].attemptCount < old(jobs)[c].maxAttempts
                  && (|| ((old(jobs)[c].status == Queued || old(jobs)[c].status == RetryWait)
                          && old(jobs)[c].availableAt <= now)
                      || (old(jobs)[c].status == Processing && old(jobs)[c].leaseExpiresAt.Some?
                          && old(jobs)[c].leaseExpiresAt.value <= now)) ::
                  || old(jobs)[j].availableAt < old(jobs)[c].availableAt
                  || (old(jobs)[j].availableAt == old(jobs)[c].availableAt
                      && (|| old(jobs)[j].createdAt < old(jobs)[c].createdAt
                          || (old(jobs)[j].createdAt == old(jobs)[c].createdAt && j < c)))
      ensures claim.Ok? && claim.value.Some? ==>
                QueueMeaning.ClaimRecorded(ExhaustedDb(old(Contents()), Members(batch), now), Contents(),
                                           claim.value.value.job, worker,
                                           lease, now, token)
    {
      hide Inv, Evolves, AtLimit, Claimable, Precedes, WorkerAccepted, Claim, ExhaustedDb, LeaseKeys, UsedTokens,
           ExhaustedSelection, FirstClaimable, ClaimableJobs, QueueMeaning.ClaimRecorded;
      ghost var before := Contents();
      EvolvesReflexive(before);
      batch := [];
      if !WorkerAccepted(worker) || lease <= 0 {
        return Err(InvalidValue), batch;
      }
      var error: Option<QueueError>;
      batch, error := MarkExhaustedBatch(now, locked);
      ghost var cleaned := Contents();
      CleanupSafe(before, now, locked, batch, token);
      claim := ClaimReadyJob(worker, lease, now, token, locked);
      FirstClaimSafe(cleaned, worker, lease, now, token, locked);
      SelectionSize(before, now, locked, batch);
      if claim.Ok? && claim.value.None? {
        NoneReady(Contents(), now, locked);
      }
      if claim.Ok? && claim.value.Some? {
        ChosenFirst(before, now, locked, batch, claim.value.value.job);
        ChosenClaimed(cleaned, now, locked, claim.value.value.job, worker, lease, token);
        InvParts(cleaned);
        EvolvesTransitive(before, cleaned, Contents());
      }
    }

    // ----- Fenced transactions -----

    method LockedLiveClaim(j: ImportId, token: Token, now: Time) returns (live: Result<AttemptKey, QueueError>)
      requires Inv(Contents())
      ensures live == QueueSpec.LockedLiveClaim(Contents(), j, token, now)
    {
      hide Inv, RunningKeys;
      LiveClaimDecides(Contents(), j, token, now);
      if !HoldsLease(Contents(), j, token, now) {
        return Err(ClaimLost);
      }
      LiveClaimIsNewest(Contents(), j, token);
      var k :| k in RunningKeys(Contents(), j, token);
      live := Ok(k);
    }

    method HeartbeatJob(j: ImportId, token: Token, lease: Time, now: Time) returns (error: Option<QueueError>)
      requires Inv(Contents())
      modifies this`jobs, this`attempts
      ensures Contents() == After(old(Contents()), Heartbeat(old(Contents()), j, token, lease, now))
      ensures error == ErrorOf(Heartbeat(old(Contents()), j, token, lease, now))
    {
      hide Inv, QueueSpec.LockedLiveClaim, RunningKeys;
      if lease <= 0 {
        return Some(InvalidValue);
      }
      var live := LockedLiveClaim(j, token, now);
      LiveRows(Contents(), j, token, now);
      if live.Err? {
        return Some(live.error);
      }
      var job, attempt := jobs[j], attempts[live.value];
      job := job.(heartbeatAt := Some(now), leaseExpiresAt := Some(now + lease));
      jobs := jobs[j := job];
      attempt := attempt.(heartbeatAt := now);
      attempts := attempts[live.value := attempt];
      error := None;
    }

    method AdvanceAttemptPhase(j: ImportId, token: Token, phase: Phase, now: Time) returns (error: Option<QueueError>)
      requires Inv(Contents())
      modifies this`attempts
      ensures Contents() == After(old(Contents()), AdvancePhase(old(Contents()), j, token, phase, now))
      ensures error == ErrorOf(AdvancePhase(old(Contents()), j, token, phase, now))
    {
      hide Inv, QueueSpec.LockedLiveClaim, RunningKeys;
      var live := LockedLiveClaim(j, token, now);
      LiveRows(Contents(), j, token, now);
      if live.Err? {
        return Some(live.error);
      }
      assert jobs[j := jobs[j]] == jobs;
      attempts := attempts[live.value := attempts[live.value].(phase := phase)];
      error := None;
    }

    method RecordBatch(k: AttemptKey, token: Token, rows: seq<StagedRow>, found: seq<Issue>, progress: Counts,
                       now: Time)
      returns (error: Option<QueueError>)
      requires Inv(Contents())
      modifies this
      ensures Contents()
              == After(old(Contents()), RecordParseBatch(old(Contents()), k, token, rows, found, progress, now))
      ensures error == ErrorOf(RecordParseBatch(old(Contents()), k, token, rows, found, progress, now))
    {
      hide Inv, QueueSpec.LockedLiveClaim, RunningKeys, BatchConstraints;
      var savepoint := Contents();
      var live := LockedLiveClaim(k.job, token, now);
      LiveRows(Contents(), k.job, token, now);
      if live.Err? {
        return Some(live.error);
      }
      if live.value != k {
        return Some(ClaimLost);
      }
      staged := staged[k := staged[k] + rows];
      issues := issues[k := issues[k] + found];
      var job, attempt := jobs[k.job], attempts[k];
      job := job.(counts := progress.(inserted := job.counts.inserted, reused := job.counts.reused));
      job := job.(heartbeatAt := Some(now), leaseExpiresAt := Some(now + DEFAULT_LEASE));
      jobs := jobs[k.job := job];
      attempt := attempt.(counts := progress.(inserted := attempt.counts.inserted, reused := attempt.counts.reused));
      attempt := attempt.(heartbeatAt := now, phase := Parse);
      attempts := attempts[k := attempt];
      if !BatchConstraints(staged[k], issues[k], job.counts) {
        Restore(savepoint);
        return Some(ConstraintViolated);
      }
      error := None;
    }

    /** The attempt row of a retry. */
    method EndAttempt(k: AttemptKey, counts: Counts, code: ErrorCode, now: Time)
      requires k in attempts
      modifies this`attempts
      ensures attempts == old(attempts)[k := RetriedAttempt(old(attempts)[k], counts, code, now)]
    {
      var attempt := attempts[k].(counts := counts);
      attempt := attempt.(outcome := RetryableFailure, finishedAt := Some(now), errorCode := code);
      attempts := attempts[k := attempt];
    }

    method ScheduleRetryJob(j: ImportId, token: Token, code: ErrorCode, base: Time, maximum: Time, now: Time)
      returns (error: Option<QueueError>)
      requires Inv(Contents())
      modifies this
      ensures Contents() == After(old(Contents()), ScheduleRetry(old(Contents()), j, token, code, base, maximum, now))
      ensures error == ErrorOf(ScheduleRetry(old(Contents()), j, token, code, base, maximum, now))
      ensures error.None? ==> WaitsAfterRetry(old(Contents()), Contents(), j, base, maximum, now)
    {
      hide Inv, QueueSpec.LockedLiveClaim, RunningKeys, ValidFor, BoundedDelay, Power2, WaitsAfterRetry, RetriedAttempt,
           HoldsLease;
      RetryWaits(Contents(), j, token, code, base, maximum, now);
      var savepoint := Contents();
      var live := LockedLiveClaim(j, token, now);
      LiveRows(Contents(), j, token, now);
      if live.Err? {
        return Some(live.error);
      }
      var job := jobs[j];
      var counts := job.counts;
      if !ValidFor(counts, Failed) {
        return Some(InvalidValue);
      }
      EndAttempt(live.value, counts, code, now);
      job := ClearLease(job);
      job := job.(errorCode := code);
      if job.attemptCount >= job.maxAttempts {
        job := job.(status := Failed, finishedAt := Some(now));
      } else {
        var delay := ComputeRetryDelay(job.attemptCount, base, maximum);
        if delay.None? {
          Restore(savepoint);
          return Some(InvalidValue);
        }
        job := job.(status := RetryWait, availableAt := now + delay.value, finishedAt := None);
      }
      jobs := jobs[j := job];
      error := None;
    }

    /** The writes of a terminal transition, once the claim and the counters are checked. */
    method FinishRows(k: AttemptKey, status: JobStatus, final: Counts, code: ErrorCode, now: Time)
      requires k.job in jobs && k in attempts && TerminalOutcome(status).Some?
      modifies this`jobs, this`attempts
      ensures Contents() == WithClaim(old(Contents()), k, FinishedJob(old(jobs[k.job]), status, final, code, now),
                                      FinishedAttempt(old(attempts[k]), status, final, code, now))
    {
      hide TerminalOutcome;
      var job, attempt := jobs[k.job], attempts[k];
      job, attempt := job.(counts := final), attempt.(counts := final);
      job := job.(status := status);
      job := ClearLease(job);
      job := job.(finishedAt := Some(now), errorCode := code);
      attempt := attempt.(outcome := TerminalOutcome(status).value, finishedAt := Some(now), errorCode := code);
      if status == Published {
        attempt := attempt.(phase := Complete);
      }
      attempts := attempts[k := attempt];
      jobs := jobs[k.job := job];
    }

    method CompleteClaim(j: ImportId, token: Token, status: JobStatus, counts: Option<Counts>, code: ErrorCode,
                         now: Time)
      returns (error: Option<QueueError>)
      requires Inv(Contents())
      modifies this`jobs, this`attempts
      ensures Contents() == After(old(Contents()), CompleteJob(old(Contents()), j, token, status, counts, code, now))
      ensures error == ErrorOf(CompleteJob(old(Contents()), j, token, status, counts, code, now))
    {
      hide Inv, QueueSpec.LockedLiveClaim, RunningKeys, ValidFor, TerminalOutcome, WithClaim, FinishedJob,
           FinishedAttempt, CompleteJob, HoldsLease;
      CompleteUnfolds(Contents(), j, token, status, counts, code, now);
      if TerminalOutcome(status).None? {
        return Some(InvalidValue);
      }
      var live := LockedLiveClaim(j, token, now);
      LiveRows(Contents(), j, token, now);
      if live.Err? {
        return Some(live.error);
      }
      var final := if counts.Some? then counts.value else jobs[j].counts;
      if !ValidFor(final, status) {
        return Some(InvalidValue);
      }
      FinishRows(live.value, status, final, code, now);
      error := None;
    }

    /** `_complete_stored_object_failure`: if the claim was lost, the intake is rolled back too. */
    method CompleteStoredObjectFailure(j: ImportId, token: Token, failure: FailureCode, code: ErrorCode, now: Time)
      returns (error: Option<QueueError>)
      requires Inv(Contents())
      modifies this
      ensures Contents() == After(old(Contents()), StoredObjectFailure(old(Contents()), j, token, failure, code, now))
      ensures error == ErrorOf(StoredObjectFailure(old(Contents()), j, token, failure, code, now))
    {
      hide Inv, QueueSpec.LockedLiveClaim, RunningKeys, ValidFor, TerminalOutcome, HoldsLease, CompleteJob,
           QueueSpec.MarkStoredObjectFailed;
      var savepoint := Contents();
      error := MarkStoredObjectFailed(j, failure, now);
      if error.Some? {
        return;
      }
      if j !in jobs {
        Restore(savepoint);
        return Some(NotFound);
      }
      error := CompleteMarked(savepoint, j, token, jobs[j].counts, failure, code, now);
      if error.Some? {
        Restore(savepoint);
      }
    }

    /** `complete_job` inside that transaction: the failed intake does not matter to the claim. */
    method CompleteMarked(ghost before: Db, j: ImportId, token: Token, counts: Counts, ghost failure: FailureCode,
                          code: ErrorCode, now: Time)
      returns (error: Option<QueueError>)
      requires Inv(before) && QueueSpec.MarkStoredObjectFailed(before, j, failure, now) == Ok(Contents()) && j in jobs
      modifies this`jobs, this`attempts
      ensures Contents()
              == After(old(Contents()), CompleteJob(old(Contents()), j, token, Failed, Some(counts), code, now))
      ensures error == ErrorOf(CompleteJob(old(Contents()), j, token, Failed, Some(counts), code, now))
    {
      hide Inv, RunningKeys, ValidFor, HoldsLease, QueueSpec.LockedLiveClaim;
      MarkedClaim(before, Contents(), j, token, now);
      if !HoldsLease(Contents(), j, token, now) {
        return Some(ClaimLost);
      }
      var k :| k in RunningKeys(Contents(), j, token);
      if !ValidFor(counts, Failed) {
        return Some(InvalidValue);
      }
      FinishRows(k, Failed, counts, code, now);
      error := None;
    }
  }

  lemma CompleteUnfolds(db: Db, j: ImportId, token: Token, status: JobStatus, counts: Option<Counts>, code: ErrorCode,
                        now: Time)
    requires Inv(db)
    ensures HoldsLease(db, j, token, now) ==> Newest(db, j) in db.attempts && j in db.jobs
    ensures CompleteJob(db, j, token, status, counts, code, now) ==
            if TerminalOutcome(status).None? then Err(InvalidValue)
            else if !HoldsLease(db, j, token, now) then Err(ClaimLost)
            else
              var final, k := if counts.Some? then counts.value else db.jobs[j].counts, Newest(db, j);
              if !ValidFor(final, status) then Err(InvalidValue)
              else Ok(WithClaim(db, k, FinishedJob(db.jobs[j], status, final, code, now),
                                FinishedAttempt(db.attempts[k], status, final, code, now)))
  {
    hide Inv, RunningKeys, ValidFor, TerminalOutcome, WithClaim, FinishedJob, FinishedAttempt, HoldsLease,
         LockedLiveClaim;
    LiveRows(db, j, token, now);
    var r := CompleteJob(db, j, token, status, counts, code, now);
    if TerminalOutcome(status).None? {
      assert r == Err(InvalidValue);
    } else if !HoldsLease(db, j, token, now) {
      assert r == Err(ClaimLost);
    } else {
      assert LockedLiveClaim(db, j, token, now) == Ok(Newest(db, j));
    }
  }

  lemma MarkedClaim(before: Db, db: Db, j: ImportId, token: Token, now: Time)
    requires Inv(before) && db == before.(imports := db.imports)
    ensures LockedLiveClaim(db, j, token, now)
            == if HoldsLease(db, j, token, now) then Ok(Newest(before, j)) else Err(ClaimLost)
    ensures HoldsLease(db, j, token, now) ==>
              RunningKeys(db, j, token) == {Newest(before, j)} && Newest(before, j) in db.attempts
              && Newest(before, j).job == j
  {
    hide Inv, AttemptData, AttemptMatchesJob, JobConstraints, Coupled;
    SameRunningKeys(before, db, j, token);
    if HoldsLease(db, j, token, now) {
      LiveClaimIsNewest(before, j, token);
      NewestFacts(before, j);
      var r := LockedLiveClaim(db, j, token, now);
      assert r.value in {Newest(before, j)};
    }
  }

  // ----- Queries -----

  function Members(batch: seq<ImportId>): set<ImportId> {
    set j | j in batch
  }

  function AtLimitJobs(db: Db, now: Time, locked: set<ImportId>): set<ImportId> {
    set j | j in db.jobs && j !in locked && AtLimit(db, j, now)
  }

  function ClaimableJobs(db: Db, now: Time, locked: set<ImportId>): set<ImportId> {
    set j | j in db.jobs && j !in locked && Claimable(db, j, now)
  }

  predicate ExhaustedSelection(db: Db, now: Time, locked: set<ImportId>, batch: seq<ImportId>) {
    && |batch| <= EXHAUSTED_BATCH
    && (forall j | j in batch :: j in AtLimitJobs(db, now, locked))
    && (forall a, b | 0 <= a < b < |batch| :: batch[a] != batch[b])
    && (|batch| < EXHAUSTED_BATCH ==> forall j | j in AtLimitJobs(db, now, locked) :: j in batch)
    && (forall j, c | j in batch && c in AtLimitJobs(db, now, locked) && c !in batch ::
          j in db.jobs && c in db.jobs && Precedes(db, j, c))
  }

  predicate FirstClaimable(db: Db, now: Time, locked: set<ImportId>, j: ImportId) {
    && j in db.jobs && j !in locked && Claimable(db, j, now)
    && forall c | c in ClaimableJobs(db, now, locked) && c != j :: c in db.jobs && Precedes(db, j, c)
  }

  /** With attempts left the job waits for the doubled base, at most the maximum; otherwise it fails. */
  predicate WaitsAfterRetry(before: Db, after: Db, j: ImportId, base: Time, maximum: Time, now: Time) {
    && j in before.jobs && j in after.jobs
    && var n := before.jobs[j].attemptCount;
       if n >= before.jobs[j].maxAttempts then after.jobs[j].status == Failed
       else
         && n >= 1 && after.jobs[j].status == RetryWait
         && after.jobs[j].availableAt - now
            == (if base * Power2(n - 1) <= maximum then base * Power2(n - 1) else maximum)
  }

  lemma RetryWaits(db: Db, j: ImportId, token: Token, code: ErrorCode, base: Time, maximum: Time, now: Time)
    requires Inv(db)
    ensures ScheduleRetry(db, j, token, code, base, maximum, now).Ok?
            ==> WaitsAfterRetry(db, ScheduleRetry(db, j, token, code, base, maximum, now).value, j, base, maximum, now)
  {
    hide Inv, ScheduleRetry, HoldsLease, Power2;
    QueueMeaning.RetryMeans(db, j, token, code, base, maximum, now);
  }

  lemma SelectionSize(db: Db, now: Time, locked: set<ImportId>, batch: seq<ImportId>)
    requires ExhaustedSelection(db, now, locked, batch)
    ensures |batch| <= 100
  {
    hide AtLimit, Precedes;
  }

  lemma NoneReady(db: Db, now: Time, locked: set<ImportId>)
    requires ClaimableJobs(db, now, locked) == {}
    ensures forall j | j in db.jobs && j !in locked && db.jobs[j].attemptCount < db.jobs[j].maxAttempts ::
              && !((db.jobs[j].status == Queued || db.jobs[j].status == RetryWait) && db.jobs[j].availableAt <= now)
              && !(db.jobs[j].status == Processing && db.jobs[j].leaseExpiresAt.Some?
                   && db.jobs[j].leaseExpiresAt.value <= now)
  {
    hide Claimable, ClaimableJobs;
    forall j | j in db.jobs && j !in locked && db.jobs[j].attemptCount < db.jobs[j].maxAttempts
      ensures !((db.jobs[j].status == Queued || db.jobs[j].status == RetryWait) && db.jobs[j].availableAt <= now)
      ensures !(db.jobs[j].status == Processing && db.jobs[j].leaseExpiresAt.Some?
                && db.jobs[j].leaseExpiresAt.value <= now)
    {
      InClaimable(db, now, locked, j);
      QueueMeaning.ClaimableMeans(db, j, now);
    }
  }

  lemma InClaimable(db: Db, now: Time, locked: set<ImportId>, j: ImportId)
    ensures j in ClaimableJobs(db, now, locked) <==> j in db.jobs && j !in locked && Claimable(db, j, now)
  {
    hide Claimable;
  }

  /** Before the cleanup the chosen job was ready, and no other ready job came before it. */
  lemma ChosenFirst(db: Db, now: Time, locked: set<ImportId>, batch: seq<ImportId>, j: ImportId)
    requires ExhaustedSelection(db, now, locked, batch)
    requires FirstClaimable(ExhaustedDb(db, Members(batch), now), now, locked, j)
    ensures && j in db.jobs && j !in locked && db.jobs[j].attemptCount < db.jobs[j].maxAttempts
            && (|| ((db.jobs[j].status == Queued || db.jobs[j].status == RetryWait) && db.jobs[j].availableAt <= now)
                || (db.jobs[j].status == Processing && db.jobs[j].leaseExpiresAt.Some?
                    && db.jobs[j].leaseExpiresAt.value <= now))
    ensures forall c | c in db.jobs && c !in locked && c != j && db.jobs[c].attemptCount < db.jobs[c].maxAttempts
              && (|| ((db.jobs[c].status == Queued || db.jobs[c].status == RetryWait) && db.jobs[c].availableAt <= now)
                  || (db.jobs[c].status == Processing && db.jobs[c].leaseExpiresAt.Some?
                      && db.jobs[c].leaseExpiresAt.value <= now)) ::
              || db.jobs[j].availableAt < db.jobs[c].availableAt
              || (db.jobs[j].availableAt == db.jobs[c].availableAt
                  && (|| db.jobs[j].createdAt < db.jobs[c].createdAt
                      || (db.jobs[j].createdAt == db.jobs[c].createdAt && j < c)))
  {
    hide Claimable, AtLimit, Precedes, LeaseKeys, ExhaustedSelection, FirstClaimable, ClaimableJobs;
    var cleaned := ExhaustedDb(db, Members(batch), now);
    FirstIs(cleaned, now, locked, j);
    SelectionExists(db, now, locked, batch);
    LeftAlone(db, now, batch, j);
    QueueMeaning.ClaimableMeans(cleaned, j, now);
    forall c | c in db.jobs && c !in locked && c != j && db.jobs[c].attemptCount < db.jobs[c].maxAttempts
      && (|| ((db.jobs[c].status == Queued || db.jobs[c].status == RetryWait) && db.jobs[c].availableAt <= now)
          || (db.jobs[c].status == Processing && db.jobs[c].leaseExpiresAt.Some?
              && db.jobs[c].leaseExpiresAt.value <= now))
      ensures db.jobs[j].availableAt <= db.jobs[c].availableAt
      ensures db.jobs[j].availableAt == db.jobs[c].availableAt ==>
                || db.jobs[j].createdAt < db.jobs[c].createdAt
                || (db.jobs[j].createdAt == db.jobs[c].createdAt && j < c)
    {
      LeftAlone(db, now, batch, c);
      QueueMeaning.ClaimableMeans(cleaned, c, now);
      OrderMeans(cleaned, j, c);
    }
  }

  /** The cleanup leaves a job with attempts left alone. */
  lemma LeftAlone(db: Db, now: Time, batch: seq<ImportId>, j: ImportId)
    requires forall b | b in batch :: b in db.jobs && AtLimit(db, b, now)
    ensures var e := ExhaustedDb(db, Members(batch), now);
            && e.jobs.Keys == db.jobs.Keys
            && (j in db.jobs && e.jobs[j].attemptCount < e.jobs[j].maxAttempts ==> e.jobs[j] == db.jobs[j])
            && (j in db.jobs && db.jobs[j].attemptCount < db.jobs[j].maxAttempts ==> e.jobs[j] == db.jobs[j])
  {
    hide LeaseKeys, Due;
  }

  lemma FirstIs(db: Db, now: Time, locked: set<ImportId>, j: ImportId)
    requires FirstClaimable(db, now, locked, j)
    ensures j in db.jobs && j !in locked && Claimable(db, j, now)
    ensures forall c | c in db.jobs && c !in locked && c != j && Claimable(db, c, now) :: Precedes(db, j, c)
  {
    hide Claimable, Precedes;
    forall c | c in db.jobs && c !in locked && c != j && Claimable(db, c, now) ensures Precedes(db, j, c) {
      assert c in ClaimableJobs(db, now, locked);
    }
  }

  lemma OrderMeans(db: Db, j: ImportId, c: ImportId)
    requires j in db.jobs && c in db.jobs
    ensures Precedes(db, j, c) <==>
              || db.jobs[j].availableAt < db.jobs[c].availableAt
              || (db.jobs[j].availableAt == db.jobs[c].availableAt
                  && (|| db.jobs[j].createdAt < db.jobs[c].createdAt
                      || (db.jobs[j].createdAt == db.jobs[c].createdAt && j < c)))
  {
  }

  lemma ChosenClaimed(db: Db, now: Time, locked: set<ImportId>, j: ImportId, worker: string, lease: Time, token: Token)
    requires Inv(db) && FirstClaimable(db, now, locked, j) && WorkerAccepted(worker) && lease > 0
    ensures j in db.jobs && Claim(db, j, worker, lease, now, token).Ok?
    ensures QueueMeaning.ClaimRecorded(db, Claim(db, j, worker, lease, now, token).value, j, worker, lease, now, token)
  {
    hide Inv, Claim, Claimable, QueueMeaning.ClaimRecorded, WorkerAccepted, FirstClaimable;
    FirstIs(db, now, locked, j);
    QueueMeaning.ClaimMeans(db, j, worker, lease, now, token);
  }

  lemma SelectionExists(db: Db, now: Time, locked: set<ImportId>, batch: seq<ImportId>)
    requires ExhaustedSelection(db, now, locked, batch)
    ensures forall j | j in batch :: j in db.jobs && AtLimit(db, j, now)
  {
    hide AtLimit, Precedes;
  }

  lemma ClaimableExist(db: Db, now: Time, locked: set<ImportId>)
    ensures forall j | j in ClaimableJobs(db, now, locked) :: j in db.jobs && j !in locked && Claimable(db, j, now)
  {
    hide Claimable;
  }

  lemma HeadIsFirst(db: Db, now: Time, locked: set<ImportId>, j: ImportId)
    requires j in ClaimableJobs(db, now, locked)
    requires forall c | c in ClaimableJobs(db, now, locked) && c != j ::
               j in db.jobs && c in db.jobs && Precedes(db, j, c)
    ensures FirstClaimable(db, now, locked, j)
  {
    hide Claimable, Precedes;
  }

  /** The claim transaction, write by write. */
  lemma ClaimSteps(db: Db, j: ImportId, worker: string, lease: Time, now: Time, token: Token)
    requires j in db.jobs && WorkerAccepted(worker) && lease > 0
    ensures var job, k := db.jobs[j], AttemptKey(j, db.jobs[j].attemptCount + 1);
            var expired := if job.status == Processing then ExpireAttempt(db, j, now) else Ok(db);
            && ErrorOf(expired) == (if expired.Err? then Some(expired.error) else None)
            && (expired.Err? ==> Claim(db, j, worker, lease, now, token) == expired)
            && (expired.Ok? && k in expired.value.attempts
                ==> Claim(db, j, worker, lease, now, token) == Err(ConstraintViolated))
            && (expired.Ok? && k !in expired.value.attempts ==>
                  Claim(db, j, worker, lease, now, token)
                  == Ok(AddAttempt(expired.value, k, ClaimedJob(job, Strip(worker), lease, now, token),
                                   NewAttempt(Strip(worker), now, token))))
            && After(db, expired).jobs == db.jobs
  {
    hide WorkerAccepted, LeaseKeys, ClaimedJob, NewAttempt, ExpiredAttempt, AddAttempt, Strip;
  }

  lemma NothingExhausted(db: Db, now: Time)
    ensures ExhaustedDb(db, Members([]), now) == db
  {
    assert Members([]) == {};
  }

  lemma LeaseKeysAre(db: Db, j: ImportId, k: AttemptKey)
    requires j in db.jobs
    ensures k in LeaseKeys(db, j) <==>
              && db.jobs[j].leaseToken.Some? && k in db.attempts && k.job == j
              && db.attempts[k].token == db.jobs[j].leaseToken.value
              && db.attempts[k].outcome == Running
  {
  }

  lemma MembersNext(batch: seq<ImportId>, n: nat)
    requires n < |batch| && forall a, b | 0 <= a < b < |batch| :: batch[a] != batch[b]
    ensures Members(batch[..n + 1]) == Members(batch[..n]) + {batch[n]} && batch[n] !in Members(batch[..n])
  {
    assert batch[..n + 1] == batch[..n] + [batch[n]];
  }

  /** Failing other jobs leaves a job and its leased attempt alone. */
  lemma ExhaustedElsewhere(db: Db, batch: set<ImportId>, j: ImportId, now: Time)
    requires j in db.jobs && j !in batch
    ensures var e := ExhaustedDb(db, batch, now);
            j in e.jobs && e.jobs[j] == db.jobs[j] && LeaseKeys(e, j) == LeaseKeys(db, j)
  {
    hide LeaseKeys, ExhaustedJob, ExpiredAttempt;
    var e := ExhaustedDb(db, batch, now);
    forall k: AttemptKey ensures k in LeaseKeys(e, j) <==> k in LeaseKeys(db, j) {
      LeaseKeysAre(e, j, k);
      LeaseKeysAre(db, j, k);
    }
  }

  lemma ExpiryOfNext(db: Db, batch: set<ImportId>, j: ImportId, now: Time, k: AttemptKey)
    requires j in db.jobs && j !in batch && k in db.attempts
    ensures ExhaustedDb(db, batch + {j}, now).attempts[k]
            == if db.jobs[j].status == Processing && k in LeaseKeys(db, j)
               then ExpiredAttempt(ExhaustedDb(db, batch, now).attempts[k], now)
               else ExhaustedDb(db, batch, now).attempts[k]
  {
    hide LeaseKeys, ExpiredAttempt;
    LeaseKeysAre(db, j, k);
  }

  lemma ExpireUnfolds(db: Db, j: ImportId, now: Time)
    requires j in db.jobs
    ensures ErrorOf(ExpireAttempt(db, j, now)) == if |LeaseKeys(db, j)| != 1 then Some(StateError) else None
    ensures ExpireAttempt(db, j, now).Ok? ==>
              && ExpireAttempt(db, j, now).value == db.(attempts := ExpireAttempt(db, j, now).value.attempts)
              && ExpireAttempt(db, j, now).value.attempts.Keys == db.attempts.Keys
              && forall k | k in db.attempts :: ExpireAttempt(db, j, now).value.attempts[k]
                                             == if k in LeaseKeys(db, j) then ExpiredAttempt(db.attempts[k], now)
                                                else db.attempts[k]
  {
    hide LeaseKeys, ExpiredAttempt;
  }

  /** Failing one more job of the batch, after the first `n`. */
  lemma ExhaustOne(db: Db, batch: seq<ImportId>, n: nat, now: Time)
    requires n < |batch| && (forall j | j in batch :: j in db.jobs)
             && forall a, b | 0 <= a < b < |batch| :: batch[a] != batch[b]
    ensures var j, e := batch[n], ExhaustedDb(db, Members(batch[..n]), now);
            && j in e.jobs && e.jobs[j] == db.jobs[j]
            && ErrorOf(ExpireAttempt(e, j, now)) == (if |LeaseKeys(db, j)| != 1 then Some(StateError) else None)
            && var expired := if db.jobs[j].status == Processing then ExpireAttempt(e, j, now) else Ok(e);
               expired.Ok? ==>
                 ExhaustedDb(db, Members(batch[..n + 1]), now)
                   == expired.value.(jobs := expired.value.jobs[j := ExhaustedJob(e.jobs[j], now)])
  {
    hide LeaseKeys, ExhaustedJob, ExpiredAttempt, ExpireAttempt, Members, ErrorOf;
    var j, before := batch[n], Members(batch[..n]);
    var e, e' := ExhaustedDb(db, before, now), ExhaustedDb(db, before + {j}, now);
    MembersNext(batch, n);
    ExhaustedElsewhere(db, before, j, now);
    ExpireUnfolds(e, j, now);
    forall k | k in db.attempts
      ensures e'.attempts[k]
              == if db.jobs[j].status == Processing && k in LeaseKeys(db, j) then ExpiredAttempt(e.attempts[k], now)
                 else e.attempts[k]
    {
      ExpiryOfNext(db, before, j, now, k);
    }
    assert e'.jobs == e.jobs[j := ExhaustedJob(e.jobs[j], now)];
    if db.jobs[j].status != Processing {
      assert e'.attempts == e.attempts;
    } else if ExpireAttempt(e, j, now).Ok? {
      assert e'.attempts == ExpireAttempt(e, j, now).value.attempts;
    }
  }

  lemma MembersSize(batch: seq<ImportId>)
    ensures |Members(batch)| <= |batch|
  {
    if batch != [] {
      MembersSize(batch[..|batch| - 1]);
      assert Members(batch) == Members(batch[..|batch| - 1]) + {batch[|batch| - 1]};
    }
  }

  /** The cleanup of a reachable queue never fails, and keeps the token fresh. */
  lemma CleanupSafe(db: Db, now: Time, locked: set<ImportId>, batch: seq<ImportId>, token: Token)
    requires Inv(db) && ExhaustedSelection(db, now, locked, batch) && token !in UsedTokens(db)
    ensures Exhaust(db, Members(batch), now) == Ok(ExhaustedDb(db, Members(batch), now))
    ensures Inv(ExhaustedDb(db, Members(batch), now)) && Evolves(db, ExhaustedDb(db, Members(batch), now))
    ensures token !in UsedTokens(ExhaustedDb(db, Members(batch), now))
  {
    hide Inv, Evolves, AtLimit, Precedes, LeaseKeys, ExhaustedJob, ExpiredAttempt;
    SelectionExists(db, now, locked, batch);
    MembersSize(batch);
    ExhaustSafe(db, Members(batch), now);
    ExhaustUnfolds(db, Members(batch), now);
    ExpiryKeepsTokens(db, Members(batch), now);
  }

  lemma ExpiryKeepsTokens(db: Db, batch: set<ImportId>, now: Time)
    ensures UsedTokens(ExhaustedDb(db, batch, now)) == UsedTokens(db)
  {
    hide LeaseKeys;
    var d := ExhaustedDb(db, batch, now);
    assert d.attempts.Keys == db.attempts.Keys
           && forall k | k in db.attempts :: d.attempts[k].token == db.attempts[k].token;
  }

  /** On a reachable queue the claim transaction meets no state error and no duplicate attempt number. */
  lemma FirstClaimSafe(db: Db, worker: string, lease: Time, now: Time, token: Token, locked: set<ImportId>)
    requires Inv(db) && WorkerAccepted(worker) && lease > 0 && token !in UsedTokens(db)
    ensures forall j | FirstClaimable(db, now, locked, j) ::
              Claim(db, j, worker, lease, now, token).Ok? && Safe(db, Claim(db, j, worker, lease, now, token))
  {
    hide Inv, Evolves, Claim, Claimable, WorkerAccepted, UsedTokens, Safe, Precedes;
    forall j | FirstClaimable(db, now, locked, j)
      ensures Claim(db, j, worker, lease, now, token).Ok? && Safe(db, Claim(db, j, worker, lease, now, token))
    {
      ClaimSafe(db, j, worker, lease, now, token);
    }
  }

  /** The rows a live claim names exist; without one the claim is lost. */
  lemma LiveRows(db: Db, j: ImportId, token: Token, now: Time)
    requires Inv(db)
    ensures var live := LockedLiveClaim(db, j, token, now);
            if HoldsLease(db, j, token, now) then
              && live == Ok(Newest(db, j)) && live.value.job == j && j in db.jobs
              && live.value in db.attempts && live.value in db.staged && live.value in db.issues
            else live == Err(ClaimLost)
  {
    hide Inv, AttemptData, AttemptMatchesJob, JobConstraints, Coupled;
    LiveClaimDecides(db, j, token, now);
    if HoldsLease(db, j, token, now) {
      NewestFacts(db, j);
    }
  }

  // ----- Other processes -----

  /** What other processes commit between two of our transactions. */
  type Others = Db -> Db

  ghost predicate Legal(others: Others) {
    forall d: Db :: Inv(d) ==> Inv(others(d)) && Evolves(d, others(d))
  }

  lemma LegalStep(start: Db, d: Db, others: Others)
    requires Legal(others) && Inv(d) && Evolves(start, d)
    ensures Inv(others(d)) && Evolves(d, others(d)) && Evolves(start, others(d))
  {
    hide Inv, Evolves;
    InvParts(d);
    EvolvesTransitive(start, d, others(d));
  }

  // ----- Parse batches -----

  /** A parse batch whose rows and issues fit the constraints is recorded exactly while the attempt's claim is live. */
  lemma ParseBatchCommits(db: Db, k: AttemptKey, token: Token, rows: seq<StagedRow>, issues: seq<Issue>,
                          progress: Counts, now: Time)
    requires Inv(db) && k in db.staged && k in db.issues && progress.inserted == 0 && progress.reused == 0
    requires BatchConstraints(db.staged[k] + rows, db.issues[k] + issues, progress)
    ensures var r := RecordParseBatch(db, k, token, rows, issues, progress, now);
            && (r.Ok? <==> HoldsLease(db, k.job, token, now) && k == Newest(db, k.job))
            && (r.Ok? ==>
                  && r.value.staged == db.staged[k := db.staged[k] + rows]
                  && r.value.issues == db.issues[k := db.issues[k] + issues]
                  && r.value.jobs[k.job].counts == progress && r.value.attempts[k].counts == progress
                  && r.value.jobs[k.job] == db.jobs[k.job].(counts := progress, heartbeatAt := Some(now),
                                                            leaseExpiresAt := Some(now + 300_000_000))
                  && r.value.attempts[k] == db.attempts[k].(counts := progress, heartbeatAt := now, phase := Parse)
                  && r.value.jobs.Keys == db.jobs.Keys && r.value.attempts.Keys == db.attempts.Keys)
            && (r.Err? ==> r.error == ClaimLost)
  {
    hide Inv, AttemptData, HoldsLease, LockedLiveClaim, BatchConstraints, StagedRowConstraints;
    LiveRows(db, k.job, token, now);
    if HoldsLease(db, k.job, token, now) {
      LeasedCounts(db, k.job, token, now);
      assert ParseCounts(db.jobs[k.job].counts, progress) == progress;
    }
  }

  lemma LeasedCounts(db: Db, j: ImportId, token: Token, now: Time)
    requires Inv(db) && HoldsLease(db, j, token, now)
    ensures j in db.jobs && db.jobs[j].counts.inserted == 0 && db.jobs[j].counts.reused == 0
    ensures Newest(db, j) in db.attempts && db.attempts[Newest(db, j)].counts == db.jobs[j].counts
  {
    hide Inv, AttemptData, ValidFor, JobConstraints, AttemptConstraints, Coupled;
    NewestFacts(db, j);
    UnappliedCounts(db.jobs[j]);
  }
}
