/**
  What a queue or intake transaction leaves alone: facts, master data, and every
  processing job whose row it does not lock.
 */
module QueueFrames {
  import opened Results
  import opened Text
  import opened Tables
  import opened QueueSpec
  import opened QueueInvariant
  import opened QueueSafety

  /** The job rows that a transaction selects for update. */
  function RowLocks(op: Op): set<ImportId> {
    match op
    case OpCreate(_, _, _, _) => {}
    case OpEnqueue(_, _) => {}
    case OpReceived(_, _) => {}
    case OpIntakeFailed(_, _) => {}
    case OpExhaust(batch) => batch
    case OpParse(k, _, _, _, _) => {k.job}
    case _ => {op.j}
  }

  ghost predicate Keeps(db: Db, d: Db, jobs: set<ImportId>) {
    && d.facts == db.facts && d.master == db.master
    && forall j | j in db.jobs && j !in jobs && db.jobs[j].status == Processing :: SameJob(db, d, j)
  }

  lemma ClaimKeeps(db: Db, d: Db, k: AttemptKey, job: Job, attempt: Attempt)
    requires d == WithClaim(db, k, job, attempt)
    ensures Keeps(db, d, {k.job})
  {
    forall j: ImportId | j != k.job ensures SameJob(db, d, j) {
      forall n: nat ensures SameAttempt(db, d, AttemptKey(j, n)) {
      }
    }
  }

  lemma LiveJob(db: Db, j: ImportId, token: Token, now: Time)
    ensures var live := LockedLiveClaim(db, j, token, now);
            live.Ok? ==> live.value.job == j && live.value in db.attempts && j in db.jobs
  {
  }

  lemma WorkerKeeps(db: Db, op: Op, now: Time)
    requires Enabled(db, op, now) && (op.OpHeartbeat? || op.OpPhase? || op.OpRetry? || op.OpComplete?)
    ensures Keeps(db, After(db, Perform(db, op, now)), RowLocks(op))
  {
    hide RunningKeys, HoldsLease, LockedLiveClaim, Keeps, WithClaim, ValidFor, FinishedJob, FinishedAttempt, RetriedJob,
         RetriedAttempt, BeatenJob;
    LiveJob(db, op.j, op.token, now);
    SameKeeps(db, {op.j});
    var live, r := LockedLiveClaim(db, op.j, op.token, now), Perform(db, op, now);
    if r.Ok? {
      match op
      case OpHeartbeat(j, token, lease) =>
        ClaimKeeps(db, r.value, live.value, BeatenJob(db.jobs[j], lease, now),
                   db.attempts[live.value].(heartbeatAt := now));
      case OpPhase(j, token, phase) =>
        ClaimKeeps(db, r.value, live.value, db.jobs[j], db.attempts[live.value].(phase := phase));
      case OpRetry(j, token, code, base, maximum) =>
        ClaimKeeps(db, r.value, live.value, RetriedJob(db.jobs[j], code, base, maximum, now),
                   RetriedAttempt(db.attempts[live.value], db.jobs[j].counts, code, now));
      case OpComplete(j, token, status, counts, code) =>
        var final := if counts.Some? then counts.value else db.jobs[j].counts;
        ClaimKeeps(db, r.value, live.value, FinishedJob(db.jobs[j], status, final, code, now),
                   FinishedAttempt(db.attempts[live.value], status, final, code, now));
    }
  }

  lemma SameKeeps(db: Db, jobs: set<ImportId>)
    ensures Keeps(db, db, jobs)
  {
  }

  lemma ParseKeeps(db: Db, k: AttemptKey, token: Token, rows: seq<StagedRow>, issues: seq<Issue>, progress: Counts,
                   now: Time)
    ensures Keeps(db, After(db, RecordParseBatch(db, k, token, rows, issues, progress, now)), {k.job})
  {
    hide RunningKeys, HoldsLease, BatchConstraints, ParsedJob, ParsedAttempt;
    var d := After(db, RecordParseBatch(db, k, token, rows, issues, progress, now));
    forall j: ImportId | j != k.job ensures SameJob(db, d, j) {
      forall n: nat ensures SameAttempt(db, d, AttemptKey(j, n)) {
      }
    }
  }

  lemma ObjectFailureKeeps(db: Db, j: ImportId, token: Token, failure: FailureCode, code: ErrorCode, now: Time)
    ensures Keeps(db, After(db, StoredObjectFailure(db, j, token, failure, code, now)), {j})
  {
    hide RunningKeys, HoldsLease, ValidFor, FinishedJob, FinishedAttempt, LockedLiveClaim;
    if MarkStoredObjectFailed(db, j, failure, now).Ok? {
      LiveJob(MarkStoredObjectFailed(db, j, failure, now).value, j, token, now);
    }
    var d := After(db, StoredObjectFailure(db, j, token, failure, code, now));
    forall i: ImportId | i != j ensures SameJob(db, d, i) {
      forall n: nat ensures SameAttempt(db, d, AttemptKey(i, n)) {
      }
    }
  }

  ghost predicate Outside(db: Db, d: Db, j: ImportId) {
    && d.facts == db.facts && d.master == db.master && forall i: ImportId | i != j :: SameJob(db, d, i)
  }

  lemma OutsideThen(a: Db, b: Db, c: Db, j: ImportId)
    requires Outside(a, b, j) && Outside(b, c, j)
    ensures Keeps(a, c, {j})
  {
    forall i: ImportId | i != j ensures SameJob(a, c, i) {
      assert SameJob(a, b, i) && SameJob(b, c, i);
      forall n: nat ensures SameAttempt(a, c, AttemptKey(i, n)) {
        assert SameAttempt(a, b, AttemptKey(i, n)) && SameAttempt(b, c, AttemptKey(i, n));
      }
    }
  }

  lemma ExpireOutside(db: Db, j: ImportId, now: Time)
    requires j in db.jobs
    ensures Outside(db, After(db, ExpireAttempt(db, j, now)), j) && Outside(db, db, j)
    ensures After(db, ExpireAttempt(db, j, now)).jobs == db.jobs
  {
    hide ExpiredAttempt;
  }

  lemma AddOutside(db: Db, k: AttemptKey, job: Job, attempt: Attempt)
    ensures Outside(db, AddAttempt(db, k, job, attempt), k.job) && Outside(db, db, k.job)
  {
  }

  lemma ClaimOpKeeps(db: Db, j: ImportId, worker: string, lease: Time, now: Time, token: Token)
    requires j in db.jobs
    ensures Keeps(db, After(db, Claim(db, j, worker, lease, now, token)), {j})
  {
    hide WorkerAccepted, ClaimedJob, NewAttempt, ExpireAttempt, Outside, AddAttempt, Keeps;
    SameKeeps(db, {j});
    ExpireOutside(db, j, now);
    var job := db.jobs[j];
    var expired := if job.status == Processing then ExpireAttempt(db, j, now) else Ok(db);
    var e, k, a := After(db, expired), AttemptKey(j, job.attemptCount + 1), NewAttempt(Strip(worker), now, token);
    AddOutside(e, k, ClaimedJob(job, Strip(worker), lease, now, token), a);
    OutsideThen(db, e, AddAttempt(e, k, ClaimedJob(job, Strip(worker), lease, now, token), a), j);
  }

  lemma ExhaustKeeps(db: Db, batch: set<ImportId>, now: Time)
    ensures Keeps(db, After(db, Exhaust(db, batch, now)), batch)
  {
    hide ExhaustedJob, ExpiredAttempt, LeaseKeys;
    var d := After(db, Exhaust(db, batch, now));
    forall i: ImportId | i !in batch ensures SameJob(db, d, i) {
      forall n: nat ensures SameAttempt(db, d, AttemptKey(i, n)) {
      }
    }
  }

  ghost predicate OnlyIdle(db: Db, d: Db, i: ImportId) {
    && d == db.(imports := d.imports, jobs := d.jobs)
    && (i in db.jobs && db.jobs[i].status == Processing
        ==> i in d.jobs && d.jobs[i] == db.jobs[i] && i in db.imports && i in d.imports
            && d.imports[i] == db.imports[i])
    && forall j: ImportId | j != i ::
         && (j in d.jobs <==> j in db.jobs) && (j in db.jobs ==> d.jobs[j] == db.jobs[j])
         && (j in d.imports <==> j in db.imports) && (j in db.imports ==> d.imports[j] == db.imports[j])
  }

  lemma IdleKeeps(db: Db, d: Db, i: ImportId)
    requires OnlyIdle(db, d, i)
    ensures Keeps(db, d, {})
  {
    forall j | j in db.jobs && db.jobs[j].status == Processing ensures SameJob(db, d, j) {
      forall n: nat ensures SameAttempt(db, d, AttemptKey(j, n)) {
      }
    }
  }

  predicate IntakeSettled(db: Db, j: ImportId) {
    j in db.jobs ==> j in db.imports && (db.jobs[j].status == Processing ==> db.imports[j].status == Received)
  }

  lemma EnqueueIdle(db: Db, j: ImportId, maxAttempts: int, now: Time)
    requires IntakeSettled(db, j)
    ensures OnlyIdle(db, After(db, Enqueue(db, j, maxAttempts, now)), j)
  {
    hide NewJob;
  }

  lemma CreateIdle(db: Db, j: ImportId, source: Source, format: FileFormat, sha256: string, now: Time)
    requires IntakeSettled(db, j)
    ensures OnlyIdle(db, After(db, CreateIntake(db, j, source, format, sha256, now)), j)
  {
    hide NewJob, ExistsActive;
  }

  lemma ReceivedIdle(db: Db, j: ImportId, version: string, now: Time)
    requires IntakeSettled(db, j)
    ensures OnlyIdle(db, After(db, ConfirmReceived(db, j, version, now)), j)
  {
    hide NewJob, Strip;
  }

  lemma FailedIdle(db: Db, j: ImportId, failure: FailureCode, now: Time)
    requires IntakeSettled(db, j)
    ensures OnlyIdle(db, After(db, ConfirmFailed(db, j, failure, now)), j)
  {
    hide NewJob;
  }

  lemma Settled(db: Db, j: ImportId)
    requires Inv(db)
    ensures IntakeSettled(db, j)
  {
    hide Inv, JobInv;
    if j in db.jobs {
      JobFacts(db, j);
      if db.jobs[j].status == Processing {
        ProcessingReceived(db, j);
      }
    }
  }

  /** Intake transactions never touch a job that is being processed. */
  lemma IntakeKeeps(db: Db, op: Op, now: Time)
    requires Inv(db) && Enabled(db, op, now) && (op.OpCreate? || op.OpEnqueue? || op.OpReceived? || op.OpIntakeFailed?)
    ensures Keeps(db, After(db, Perform(db, op, now)), {})
  {
    hide Inv, Keeps, OnlyIdle, IntakeSettled, CreateIntake, Enqueue, ConfirmReceived, ConfirmFailed;
    Settled(db, op.j);
    match op {
      case OpCreate(j, source, format, sha256) => CreateIdle(db, j, source, format, sha256, now);
      case OpEnqueue(j, maxAttempts) => EnqueueIdle(db, j, maxAttempts, now);
      case OpReceived(j, version) => ReceivedIdle(db, j, version, now);
      case OpIntakeFailed(j, failure) => FailedIdle(db, j, failure, now);
    }
    IdleKeeps(db, After(db, Perform(db, op, now)), op.j);
  }

  lemma ProcessingReceived(db: Db, j: ImportId)
    requires Inv(db) && j in db.jobs && db.jobs[j].status == Processing
    ensures j in db.imports && db.imports[j].status == Received
  {
    hide JobConstraints, AttemptData, AttemptMatchesJob, TokensUnique, ActiveUnique, IntakeConstraints;
    JobFacts(db, j);
  }

  lemma RequeueKeeps(db: Db, j: ImportId, additional: int, now: Time)
    ensures Keeps(db, After(db, Requeue(db, j, additional, now)), {j})
  {
    hide HasConflictIssue, RequeuedJob;
    var d := After(db, Requeue(db, j, additional, now));
    forall i: ImportId | i != j ensures SameJob(db, d, i) {
      forall n: nat ensures SameAttempt(db, d, AttemptKey(i, n)) {
      }
    }
  }

  /** A transaction writes no facts, no master data, and no processing job whose row it does not lock. */
  lemma PerformKeeps(db: Db, op: Op, now: Time)
    requires Inv(db) && Enabled(db, op, now)
    ensures Keeps(db, After(db, Perform(db, op, now)), RowLocks(op))
  {
    hide Inv, Keeps, UsedTokens, Claimable, AtLimit, CreateIntake, Enqueue, ConfirmReceived, ConfirmFailed, Requeue,
         Claim, Exhaust, RecordParseBatch, StoredObjectFailure, Heartbeat, AdvancePhase, ScheduleRetry, CompleteJob;
    match op
    case OpCreate(_, _, _, _) => IntakeKeeps(db, op, now);
    case OpEnqueue(_, _) => IntakeKeeps(db, op, now);
    case OpReceived(_, _) => IntakeKeeps(db, op, now);
    case OpIntakeFailed(_, _) => IntakeKeeps(db, op, now);
    case OpRequeue(j, additional) => RequeueKeeps(db, j, additional, now);
    case OpClaim(j, worker, lease, token) => EnabledClaim(db, op, now); ClaimOpKeeps(db, j, worker, lease, now, token);
    case OpExhaust(batch) => ExhaustKeeps(db, batch, now);
    case OpParse(k, token, rows, issues, progress) => ParseKeeps(db, k, token, rows, issues, progress, now);
    case OpObjectFailure(j, token, failure, code) => ObjectFailureKeeps(db, j, token, failure, code, now);
    case _ => WorkerKeeps(db, op, now);
  }

  lemma EnabledClaim(db: Db, op: Op, now: Time)
    requires op.OpClaim? && Enabled(db, op, now)
    ensures op.j in db.jobs
  {
  }
}
