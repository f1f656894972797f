/**
  What the queue and intake transactions mean for their callers: when they succeed,
  what they grant, and what they leave alone.
 */
module QueueMeaning {
  import opened Results
  import opened Text
  import opened Tables
  import opened QueueSpec
  import opened QueueInvariant
  import opened QueueSafety
  import opened RetryDelay

  /** Everything outside job `j`, its upload and its attempts is as it was. */
  ghost predicate OnlyTouches(db: Db, d: Db, j: ImportId) {
    d.facts == db.facts && d.master == db.master && forall i: ImportId | i != j :: SameJob(db, d, i)
  }

  lemma ClaimTouches(db: Db, k: AttemptKey, job: Job, attempt: Attempt)
    ensures OnlyTouches(db, WithClaim(db, k, job, attempt), k.job)
  {
    ghost var d := WithClaim(db, k, job, attempt);
    forall i: ImportId | i != k.job ensures SameJob(db, d, i) {
      forall n: nat ensures SameAttempt(db, d, AttemptKey(i, n)) {
      }
    }
  }

  // ----- Leases -----

  /** A heartbeat succeeds exactly for a live lease, and makes it live exactly until the new expiry. */
  lemma HeartbeatRenews(db: Db, j: ImportId, token: Token, lease: Time, now: Time)
    requires Inv(db)
    ensures var r := Heartbeat(db, j, token, lease, now);
            && (r.Ok? <==> lease > 0 && HoldsLease(db, j, token, now))
            && (r.Err? ==> After(db, r) == db)
            && (r.Ok? ==>
                  && Inv(r.value) && Evolves(db, r.value) && OnlyTouches(db, r.value, j)
                  && (forall later :: HoldsLease(r.value, j, token, later) <==> later < now + lease)
                  && Newest(r.value, j) == Newest(db, j) && Newest(db, j) in r.value.attempts
                  && r.value.jobs[j].heartbeatAt == Some(now) && r.value.attempts[Newest(db, j)].heartbeatAt == now
                  && r.value.imports == db.imports && r.value.staged == db.staged && r.value.issues == db.issues)
  {
    hide Inv, Evolves, OnlyTouches, RunningKeys, AttemptData, AttemptMatchesJob, JobConstraints, Coupled;
    LiveClaimDecides(db, j, token, now);
    HeartbeatSafe(db, j, token, lease, now);
    if lease > 0 && HoldsLease(db, j, token, now) {
      NewestFacts(db, j);
      var k := Newest(db, j);
      ClaimTouches(db, k, BeatenJob(db.jobs[j], lease, now), db.attempts[k].(heartbeatAt := now));
    }
  }

  /**
    A phase change succeeds exactly for a live lease; the lease, the job and everything
    but the phase stay as they are.
   */
  lemma PhaseMoves(db: Db, j: ImportId, token: Token, phase: Phase, now: Time)
    requires Inv(db)
    ensures var r := AdvancePhase(db, j, token, phase, now);
            && (r.Ok? <==> HoldsLease(db, j, token, now))
            && (r.Err? ==> After(db, r) == db)
            && (r.Ok? ==>
                  && Inv(r.value) && Evolves(db, r.value) && OnlyTouches(db, r.value, j) && r.value.jobs == db.jobs
                  && r.value == db.(attempts := r.value.attempts) && Newest(db, j) in r.value.attempts
                  && (forall k | k in db.attempts ::
                        k in r.value.attempts && r.value.attempts[k].(phase := db.attempts[k].phase) == db.attempts[k])
                  && r.value.attempts[Newest(db, j)].phase == phase)
  {
    hide Inv, Evolves, OnlyTouches, RunningKeys, AttemptData, AttemptMatchesJob, JobConstraints, Coupled;
    LiveClaimDecides(db, j, token, now);
    AdvancePhaseSafe(db, j, token, phase, now);
    if HoldsLease(db, j, token, now) {
      NewestFacts(db, j);
      var k := Newest(db, j);
      ClaimTouches(db, k, db.jobs[j], db.attempts[k].(phase := phase));
      assert db.jobs[j := db.jobs[j]] == db.jobs;
    }
  }

  // ----- Uploads -----

  /** The compare-and-set transitions of an upload. */
  datatype Transition = ToReceived(version: string, at: Time) | ToFailed(code: FailureCode, at: Time)
    | StoredToFailed(code: FailureCode, at: Time)

  function Transit(db: Db, j: ImportId, step: Transition): Commit {
    match step
    case ToReceived(version, now) => QueueSpec.MarkReceived(db, j, version, now)
    case ToFailed(code, now) => QueueSpec.MarkFailed(db, j, code, now)
    case StoredToFailed(code, now) => QueueSpec.MarkStoredObjectFailed(db, j, code, now)
  }

  /** The status a transition leaves, and the one it leads to. */
  function From(step: Transition): IntakeStatus {
    if step.StoredToFailed? then Received else Receiving
  }

  function To(step: Transition): IntakeStatus {
    if step.ToReceived? then Received else IntakeFailed
  }

  /** What a transition records, and that everything else about the upload stays. */
  predicate Records(step: Transition, before: Intake, after: Intake) {
    && after.source == before.source && after.format == before.format && after.sha256 == before.sha256
    && match step
       case ToReceived(version, now) =>
         && after.versionId == Strip(version) && after.receivedAt == Some(now)
         && after.failure == NoFailure && after.failedAt == None
       case ToFailed(code, now) =>
         && after.failure == code != NoFailure && after.failedAt == Some(now)
         && after.versionId == [] && after.receivedAt == None
       case StoredToFailed(code, now) =>
         && after.failure == code && (code == ObjectMissing || code == VerificationFailed)
         && after.failedAt == Some(now)
         && after.versionId == before.versionId && after.receivedAt == before.receivedAt
  }

  /** A transition that succeeds moves the one upload along, within its constraints; one that fails changes nothing. */
  lemma TransitionMoves(db: Db, j: ImportId, step: Transition)
    ensures var r := Transit(db, j, step);
            && (r.Err? ==> After(db, r) == db)
            && (r.Ok? ==>
                  && j in db.imports && j in r.value.imports
                  && r.value == db.(imports := r.value.imports)
                  && r.value.imports == db.imports[j := r.value.imports[j]]
                  && db.imports[j].status == From(step) && r.value.imports[j].status == To(step)
                  && Records(step, db.imports[j], r.value.imports[j])
                  && IntakeEvolves(db.imports[j], r.value.imports[j])
                  && (IntakeConstraints(db.imports[j]) ==> IntakeConstraints(r.value.imports[j])))
  {
    hide Strip;
  }

  /**
    Whichever transition of an upload comes first wins: none from the same status
    succeeds after it, and a failed upload never leaves its state.
   */
  lemma FirstTransitionWins(db: Db, j: ImportId, first: Transition, second: Transition)
    requires Transit(db, j, first).Ok? && (From(second) == From(first) || To(first) == IntakeFailed)
    ensures var d := Transit(db, j, first).value;
            Transit(d, j, second).Err? && After(d, Transit(d, j, second)) == d
  {
    hide Transit, IntakeConstraints, IntakeEvolves;
    TransitionMoves(db, j, first);
    TransitionMoves(Transit(db, j, first).value, j, second);
  }

  // ----- Queueing -----

  /**
    Every upload has at most one job, whose state follows the upload's until it is
    queued: enqueueing again, with any arguments, changes nothing, and a job that
    becomes queued can be claimed at once.
   */
  lemma EnqueueOnce(db: Db, j: ImportId, maxAttempts: int, now: Time, again: int, later: Time)
    requires Inv(db)
    ensures var r := Enqueue(db, j, maxAttempts, now);
            && (r.Ok? <==> 1 <= maxAttempts <= 32767 && j in db.imports)
            && (r.Err? ==> After(db, r) == db)
            && (r.Ok? ==>
                  && Inv(r.value) && Evolves(db, r.value) && OnlyTouches(db, r.value, j)
                  && r.value == db.(jobs := r.value.jobs) && r.value.jobs.Keys == db.jobs.Keys + {j}
                  && After(r.value, Enqueue(r.value, j, again, later)) == r.value
                  && (j in db.jobs && db.jobs[j].status != WaitingForFile ==> r.value == db)
                  && (j !in db.jobs || db.jobs[j].status == WaitingForFile
                      ==> r.value.jobs[j].status == (match db.imports[j].status
                                                     case Receiving => WaitingForFile
                                                     case IntakeFailed => Failed
                                                     case Received => if db.imports[j].format == Csv then Queued
                                                                      else AwaitingParser))
                  && (j !in db.jobs ==> FreshJob(r.value.jobs[j], maxAttempts, now))
                  && (j in db.jobs ==>
                        && r.value.jobs[j].maxAttempts == db.jobs[j].maxAttempts
                        && r.value.jobs[j].attemptCount == db.jobs[j].attemptCount
                        && r.value.jobs[j].counts == db.jobs[j].counts
                        && r.value.jobs[j].createdAt == db.jobs[j].createdAt)
                  && (j in db.jobs && db.jobs[j].status == WaitingForFile && r.value.jobs[j].status == Failed
                      ==> r.value.jobs[j].errorCode == IntakeStorageFailedCode
                          && r.value.jobs[j].finishedAt == Some(now))
                  && (r.value.jobs[j].status == AwaitingParser && r.value != db ==> r.value.jobs[j].availableAt == now)
                  && (r.value.jobs[j].status == Queued && r.value != db ==> Claimable(r.value, j, now)))
  {
    hide Inv, Evolves, Coupled, JobInv;
    PlainEnqueueSafe(db, j, maxAttempts, now);
    var r := Enqueue(db, j, maxAttempts, now);
    if r.Ok? {
      JobWriteTouches(db, r.value, j);
      if j in db.jobs {
        assert db.jobs[j := db.jobs[j]] == db.jobs;
        JobFacts(db, j);
        JobRowFacts(db, j);
        if db.jobs[j].status == WaitingForFile {
          WaitingUnclaimed(db, j);
        }
      }
      assert r.value.jobs[j := r.value.jobs[j]] == r.value.jobs;
    }
  }

  /** A job that was just created: nothing attempted, nothing counted, the given limit. */
  predicate FreshJob(job: Job, maxAttempts: int, now: Time) {
    && job.createdAt == now && job.availableAt == now && job.attemptCount == 0 && job.maxAttempts == maxAttempts
    && job.leaseToken == None && job.firstStartedAt == None && job.counts == Counts(0, 0, 0, 0, 0, 0)
    && job.finishedAt == (if job.status == Failed then Some(now) else None) && job.errorCode == NoErrorCode
  }

  lemma WaitingUnclaimed(db: Db, j: ImportId)
    requires j in db.jobs && JobInv(db, j) && db.jobs[j].status == WaitingForFile
    ensures db.jobs[j].attemptCount == 0 && db.jobs[j].maxAttempts > 0
  {
    hide AttemptData, AttemptMatchesJob, Coupled;
  }

  lemma JobWriteTouches(db: Db, d: Db, j: ImportId)
    requires d == db.(jobs := d.jobs) && j in d.jobs && d.jobs == db.jobs[j := d.jobs[j]]
    ensures OnlyTouches(db, d, j)
  {
    forall i: ImportId | i != j ensures SameJob(db, d, i) {
      forall n: nat ensures SameAttempt(db, d, AttemptKey(i, n)) {
      }
    }
  }

  /**
    On a reachable queue an operator can requeue exactly the failed jobs whose upload
    was received and the rejected jobs without a stored conflict, within the limit on
    attempts. The job can be claimed at once, has the additional attempts left, and
    cannot be requeued twice; earlier attempts, rows, issues and facts stay.
   */
  lemma RequeueReopens(db: Db, j: ImportId, additional: int, now: Time, again: int, later: Time)
    requires Inv(db)
    ensures var r := Requeue(db, j, additional, now);
            && (r.Err? ==> After(db, r) == db)
            && (r.Ok? <==>
                  && additional >= 1 && j in db.jobs && j in db.imports
                  && db.jobs[j].maxAttempts + additional <= 32767
                  && (|| (db.jobs[j].status == Failed && db.imports[j].status == Received)
                      || (db.jobs[j].status == Rejected && db.jobs[j].errorCode != ConflictCode
                          && !HasConflictIssue(db, j))))
            && (r.Ok? ==>
                  && Inv(r.value) && Evolves(db, r.value) && OnlyTouches(db, r.value, j)
                  && r.value == db.(jobs := r.value.jobs)
                  && j in r.value.jobs && Claimable(r.value, j, now)
                  && r.value.jobs[j].status == Queued && r.value.jobs[j].availableAt == now
                  && r.value.jobs[j].attemptCount == db.jobs[j].attemptCount
                  && r.value.jobs[j].maxAttempts == db.jobs[j].maxAttempts + additional
                  && r.value.jobs[j].finishedAt == None && r.value.jobs[j].errorCode == NoErrorCode
                  && r.value.jobs[j].counts == Counts(0, 0, 0, 0, 0, 0)
                  && r.value.jobs[j].firstStartedAt == db.jobs[j].firstStartedAt
                  && Requeue(r.value, j, again, later).Err?)
  {
    hide Inv, Evolves, JobInv, HasConflictIssue, JobConstraints;
    RequeueSafe(db, j, additional, now);
    if j in db.jobs {
      JobFacts(db, j);
      JobRowFacts(db, j);
      WithinLimit(db.jobs[j]);
    }
    var r := Requeue(db, j, additional, now);
    if r.Ok? {
      JobWriteTouches(db, r.value, j);
    }
  }

  lemma WithinLimit(job: Job)
    requires JobConstraints(job)
    ensures job.attemptCount <= job.maxAttempts
  {
  }

  // ----- Claiming -----

  /** Which jobs can be claimed: they have attempts left, and have waited, or their lease has run out. */
  lemma ClaimableMeans(db: Db, j: ImportId, now: Time)
    ensures Claimable(db, j, now) <==>
              && j in db.jobs && db.jobs[j].attemptCount < db.jobs[j].maxAttempts
              && (|| ((db.jobs[j].status == Queued || db.jobs[j].status == RetryWait) && db.jobs[j].availableAt <= now)
                  || (db.jobs[j].status == Processing && db.jobs[j].leaseExpiresAt.Some?
                      && db.jobs[j].leaseExpiresAt.value <= now))
    ensures AtLimit(db, j, now) <==>
              && j in db.jobs && db.jobs[j].attemptCount >= db.jobs[j].maxAttempts
              && (|| ((db.jobs[j].status == Queued || db.jobs[j].status == RetryWait) && db.jobs[j].availableAt <= now)
                  || (db.jobs[j].status == Processing && db.jobs[j].leaseExpiresAt.Some?
                      && db.jobs[j].leaseExpiresAt.value <= now))
  {
  }

  /** What a claim leaves of the job, of its new attempt, and of an attempt whose lease ran out. */
  ghost predicate ClaimRecorded(db: Db, d: Db, j: ImportId, worker: string, lease: Time, now: Time, token: Token) {
    && j in db.jobs && j in d.jobs
    && var job, k := db.jobs[j], AttemptKey(j, db.jobs[j].attemptCount + 1);
       && d.jobs == db.jobs[j := d.jobs[j]]
       && d.jobs[j] == job.(status := Processing, attemptCount := job.attemptCount + 1, leaseToken := Some(token),
                            leasedBy := Strip(worker), leaseExpiresAt := Some(now + lease), heartbeatAt := Some(now),
                            firstStartedAt := if job.firstStartedAt.Some? then job.firstStartedAt else Some(now),
                            finishedAt := None, errorCode := NoErrorCode, counts := Counts(0, 0, 0, 0, 0, 0))
       && k !in db.attempts && d.attempts.Keys == db.attempts.Keys + {k}
       && d.attempts[k]
          == Attempt(token, Strip(worker), Claimed, Running, now, now, None, Counts(0, 0, 0, 0, 0, 0), NoErrorCode)
       && d.staged == db.staged[k := []] && d.issues == db.issues[k := []]
       && d == db.(jobs := d.jobs, attempts := d.attempts, staged := d.staged, issues := d.issues)
       && (forall l | l in db.attempts ::
             d.attempts[l] == if job.status == Processing && l == AttemptKey(j, job.attemptCount)
                              then Expired(db.attempts[l], now) else db.attempts[l])
  }

  function Expired(a: Attempt, now: Time): Attempt {
    a.(outcome := LeaseExpired, finishedAt := Some(now), errorCode := LeaseExpiredCode)
  }

  /**
    A claim leases the job to the worker under the new token until `now + lease`,
    starts a new attempt with no rows, issues or counts, and closes an attempt whose
    lease ran out.
   */
  lemma ClaimMeans(db: Db, j: ImportId, worker: string, lease: Time, now: Time, token: Token)
    requires Inv(db) && Claimable(db, j, now) && WorkerAccepted(worker) && lease > 0 && j in db.jobs
    ensures Claim(db, j, worker, lease, now, token).Ok?
    ensures ClaimRecorded(db, Claim(db, j, worker, lease, now, token).value, j, worker, lease, now, token)
  {
    hide Inv, JobInv, LeaseKeys, WorkerAccepted, AttemptMatchesJob, AttemptData, JobConstraints, Coupled, Claim,
         Claimable, Strip;
    ClaimUnfolds(db, j, worker, lease, now, token);
    JobFacts(db, j);
    JobRowFacts(db, j);
    ClaimedRecorded(db, j, worker, lease, now, token);
  }

  lemma ClaimedRecorded(db: Db, j: ImportId, worker: string, lease: Time, now: Time, token: Token)
    requires ClaimReady(db, j, worker, lease, now) && AttemptKey(j, db.jobs[j].attemptCount + 1) !in db.attempts
    ensures ClaimRecorded(db, ClaimedDb(db, j, worker, lease, now, token), j, worker, lease, now, token)
  {
    hide Strip;
  }

  // ----- Retrying -----

  /** The wait after attempt `n`: the base doubled for every earlier attempt, but at most the maximum. */
  function Wait(n: nat, base: Time, maximum: Time): Time
    requires n >= 1
  {
    if base * Power2(n - 1) <= maximum then base * Power2(n - 1) else maximum
  }

  /**
    A retry succeeds exactly for a live lease, with positive durations if attempts
    are left. Then the job waits and can be claimed exactly when the wait is over;
    otherwise it fails.
   */
  lemma RetryMeans(db: Db, j: ImportId, token: Token, code: ErrorCode, base: Time, maximum: Time, now: Time)
    requires Inv(db)
    ensures var r := ScheduleRetry(db, j, token, code, base, maximum, now);
            && (r.Ok? <==> HoldsLease(db, j, token, now)
                           && (db.jobs[j].attemptCount < db.jobs[j].maxAttempts ==> base > 0 && maximum > 0))
            && (r.Err? ==> After(db, r) == db)
            && (r.Ok? ==>
                  && Inv(r.value) && Evolves(db, r.value) && OnlyTouches(db, r.value, j)
                  && RetryRecorded(db, r.value, j, code, now)
                  && (if db.jobs[j].attemptCount >= db.jobs[j].maxAttempts
                      then r.value.jobs[j].status == Failed && r.value.jobs[j].finishedAt == Some(now)
                      else
                        && db.jobs[j].attemptCount >= 1 && r.value.jobs[j].status == RetryWait
                        && r.value.jobs[j].availableAt - now == Wait(db.jobs[j].attemptCount, base, maximum)
                        && forall later ::
                             Claimable(r.value, j, later)
                             <==> later - now >= Wait(db.jobs[j].attemptCount, base, maximum)))
  {
    hide Inv, Evolves, OnlyTouches, HoldsLease, ValidFor, Power2, Claimable, ScheduleRetry, JobConstraints;
    ScheduleRetrySafe(db, j, token, code, base, maximum, now);
    RetryUnfolds(db, j, token, code, base, maximum, now);
    var r := ScheduleRetry(db, j, token, code, base, maximum, now);
    if r.Ok? {
      LeaseIs(db, j, token, now);
      var k, job := Newest(db, j), db.jobs[j];
      ClaimTouches(db, k, RetriedJob(job, code, base, maximum, now),
                   RetriedAttempt(db.attempts[k], job.counts, code, now));
      forall later
        ensures Claimable(r.value, j, later)
                <==> r.value.jobs[j].status == RetryWait && later >= r.value.jobs[j].availableAt
                     && job.attemptCount < job.maxAttempts
      {
        ClaimableMeans(r.value, j, later);
      }
    }
  }

  lemma RetryUnfolds(db: Db, j: ImportId, token: Token, code: ErrorCode, base: Time, maximum: Time, now: Time)
    requires Inv(db)
    ensures HoldsLease(db, j, token, now) ==>
              && j in db.jobs && Newest(db, j) in db.attempts && db.jobs[j].attemptCount >= 1
              && db.attempts[Newest(db, j)].counts == db.jobs[j].counts
    ensures ScheduleRetry(db, j, token, code, base, maximum, now)
            == if !HoldsLease(db, j, token, now) then Err(ClaimLost)
               else if db.jobs[j].attemptCount < db.jobs[j].maxAttempts
               && (base <= 0 || maximum <= 0) then Err(InvalidValue)
               else Ok(WithClaim(db, Newest(db, j), RetriedJob(db.jobs[j], code, base, maximum, now),
                                 RetriedAttempt(db.attempts[Newest(db, j)], db.jobs[j].counts, code, now)))
  {
    hide Inv, RunningKeys, AttemptData, Coupled, HoldsLease, ValidFor, RetriedJob, RetriedAttempt, WithClaim,
         AttemptConstraints;
    LiveClaimDecides(db, j, token, now);
    if HoldsLease(db, j, token, now) {
      LeaseIs(db, j, token, now);
      NewestFacts(db, j);
      UnappliedCounts(db.jobs[j]);
    }
  }

  lemma LeaseIs(db: Db, j: ImportId, token: Token, now: Time)
    requires HoldsLease(db, j, token, now)
    ensures j in db.jobs && db.jobs[j].status == Processing
  {
  }

  /** The job loses its lease and keeps its counters; its attempt ends as a retryable failure. */
  ghost predicate RetryRecorded(db: Db, d: Db, j: ImportId, code: ErrorCode, now: Time) {
    && j in db.jobs && j in d.jobs
    && var k := AttemptKey(j, db.jobs[j].attemptCount);
       && k in db.attempts && k in d.attempts
       && d.attempts[k] == db.attempts[k].(outcome := RetryableFailure, finishedAt := Some(now), errorCode := code)
       && d.jobs[j]
         == db.jobs[j].(status := d.jobs[j].status, leaseToken := None, leasedBy := "", leaseExpiresAt := None,
                                   heartbeatAt := None, errorCode := code, finishedAt := d.jobs[j].finishedAt,
                                   availableAt := d.jobs[j].availableAt)
       && d.jobs[j].finishedAt == (if d.jobs[j].status == Failed then Some(now) else None)
       && d.staged == db.staged && d.issues == db.issues && d.imports == db.imports
  }

  /** Later retries of a job never wait less. */
  lemma LaterRetriesWaitLonger(db: Db, d: Db, j: ImportId, token: Token, token': Token, code: ErrorCode,
                               code': ErrorCode, base: Time, maximum: Time, now: Time, later: Time)
    requires Inv(db) && Inv(d) && ScheduleRetry(db, j, token, code, base, maximum, now).Ok?
    requires Evolves(ScheduleRetry(db, j, token, code, base, maximum, now).value, d)
    requires ScheduleRetry(d, j, token', code', base, maximum, later).Ok?
    ensures var first, second := ScheduleRetry(db, j, token, code, base, maximum, now).value,
              ScheduleRetry(d, j, token', code', base, maximum, later).value;
            && j in first.jobs && j in second.jobs
            && (first.jobs[j].status == RetryWait && second.jobs[j].status == RetryWait
                ==> first.jobs[j].availableAt - now <= second.jobs[j].availableAt - later)
  {
    hide Inv, HoldsLease, ScheduleRetry, OnlyTouches, FactsGrow, UsedGrow, UsedTokens, Power2, Claimable;
    var first := ScheduleRetry(db, j, token, code, base, maximum, now).value;
    var second := ScheduleRetry(d, j, token', code', base, maximum, later).value;
    RetryMeans(db, j, token, code, base, maximum, now);
    RetryMeans(d, j, token', code', base, maximum, later);
    LeaseIs(db, j, token, now);
    assert JobEvolves(first, d, j);
    if first.jobs[j].status == RetryWait && second.jobs[j].status == RetryWait {
      DelayMonotone(db.jobs[j].attemptCount, d.jobs[j].attemptCount, base, maximum);
    }
  }

  // ----- Ending -----

  /** Which counters a terminal status accepts. */
  lemma ValidMeans(c: Counts, status: JobStatus)
    ensures ValidFor(c, status) <==>
              && c.total >= 0 && c.valid >= 0 && c.invalid >= 0 && c.issues >= 0 && c.inserted >= 0 && c.reused >= 0
              && c.total == c.valid + c.invalid && c.issues >= c.invalid
              && (status == Published ==> c.invalid == 0 && c.issues == 0 && c.total == c.inserted + c.reused)
              && (status != Published ==> c.inserted == 0 && c.reused == 0)
              && (status == Rejected ==> c.issues >= 1)
  {
  }

  /**
    A terminal transition succeeds exactly for a live lease and accepted counters, and
    records how the attempt ended.
   */
  lemma CompleteMeans(db: Db, j: ImportId, token: Token, status: JobStatus, counts: Option<Counts>, code: ErrorCode,
                      now: Time)
    requires Inv(db)
    ensures var r := CompleteJob(db, j, token, status, counts, code, now);
            && (r.Ok? <==>
                  && (status == Published || status == Rejected || status == Failed || status == Cancelled)
                  && HoldsLease(db, j, token, now)
                  && ValidFor(if counts.Some? then counts.value else db.jobs[j].counts, status))
            && (r.Err? ==> After(db, r) == db)
            && (r.Ok? ==> OnlyTouches(db, r.value, j) && EndRecorded(db, r.value, j, status, counts, code, now))
  {
    hide Inv, OnlyTouches, RunningKeys, AttemptData, AttemptMatchesJob, Coupled, HoldsLease, ValidFor, JobConstraints;
    LiveClaimDecides(db, j, token, now);
    if HoldsLease(db, j, token, now) {
      LeaseIs(db, j, token, now);
      NewestFacts(db, j);
      var k, final := Newest(db, j), if counts.Some? then counts.value else db.jobs[j].counts;
      if TerminalOutcome(status).Some? {
        ClaimTouches(db, k, FinishedJob(db.jobs[j], status, final, code, now),
                     FinishedAttempt(db.attempts[k], status, final, code, now));
      }
    }
  }

  ghost predicate EndRecorded(db: Db, d: Db, j: ImportId, status: JobStatus, counts: Option<Counts>, code: ErrorCode,
                              now: Time) {
    && j in db.jobs && j in d.jobs
    && var k, final := AttemptKey(j, db.jobs[j].attemptCount), if counts.Some? then counts.value else db.jobs[j].counts;
       && k in db.attempts && k in d.attempts
       && d.jobs[j]
         == db.jobs[j].(status := status, counts := final, leaseToken := None, leasedBy := "", leaseExpiresAt := None,
                                   heartbeatAt := None, finishedAt := Some(now), errorCode := code)
       && d.attempts[k].counts == final && d.attempts[k].finishedAt == Some(now) && d.attempts[k].errorCode == code
       && d.attempts[k].phase == (if status == Published then Complete else db.attempts[k].phase)
       && (status == Published ==> d.attempts[k].outcome == OutPublished)
       && (status == Rejected ==> d.attempts[k].outcome == OutRejected)
       && (status == Failed ==> d.attempts[k].outcome == PermanentFailure)
       && (status == Cancelled ==> d.attempts[k].outcome == OutCancelled)
       && d.staged == db.staged && d.issues == db.issues && d.imports == db.imports
  }

  /** The cleanup fails each job of its batch and closes the attempt of an expired lease; nothing else changes. */
  lemma ExhaustMeans(db: Db, batch: set<ImportId>, now: Time)
    requires Inv(db) && forall j | j in batch :: AtLimit(db, j, now)
    ensures var d := ExhaustedDb(db, batch, now);
            && d.jobs.Keys == db.jobs.Keys && d.attempts.Keys == db.attempts.Keys
            && d == db.(jobs := d.jobs, attempts := d.attempts)
            && (forall j | j in db.jobs ::
                  d.jobs[j] == if j in batch
                               then db.jobs[j].(status := Failed, leaseToken := None, leasedBy := "",
                                                leaseExpiresAt := None,
                                                heartbeatAt := None, finishedAt := Some(now),
                                                errorCode := AttemptLimitCode)
                               else db.jobs[j])
            && (forall k | k in db.attempts ::
                  d.attempts[k] == if k.job in batch && k.job in db.jobs && db.jobs[k.job].status == Processing
                                      && k.number == db.jobs[k.job].attemptCount
                                   then Expired(db.attempts[k], now)
                                   else db.attempts[k])
  {
    hide Inv, LeaseKeys, JobConstraints, AttemptData, AttemptMatchesJob, Coupled;
    forall k | k in db.attempts && k.job in batch && k.job in db.jobs && db.jobs[k.job].status == Processing
      ensures k in LeaseKeys(db, k.job) <==> k.number == db.jobs[k.job].attemptCount
    {
      NewestFacts(db, k.job);
      ProcessingHasLease(db.jobs[k.job]);
      LiveClaimIsNewest(db, k.job, db.jobs[k.job].leaseToken.value);
    }
  }
}
