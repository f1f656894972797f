/** How `process_claim` ends: every outcome of a live claim is accepted by the queue, with the counters it carries. */
module ClaimProcessing {
  import opened Results
  import opened Tables
  import opened RetryDelay
  import opened QueueSpec
  import opened QueueInvariant
  import opened QueueSafety
  import opened QueueService
  import QueueMeaning
  import opened SalesRows
  import Staging

  /** The exceptions that `process_claim` catches, by the branch that handles them. */
  datatype ProcessingFailure =
    | WrongFormat | DownloadRetryable | KmsProvenance | ObjectNotFound | ObjectMismatch | StorageConfiguration
    | ClaimWasLost | DatabaseTrouble

  /** The transaction that a failure leads to; a lost claim is re-raised. */
  function FailureOp(job: Job, j: ImportId, token: Token, failure: ProcessingFailure): Option<Op> {
    match failure
    case WrongFormat => Some(OpComplete(j, token, Failed, Some(job.counts), FormatCode))
    case DownloadRetryable => Some(OpRetry(j, token, DownloadCode, RETRY_BASE, RETRY_MAXIMUM))
    case KmsProvenance => Some(OpComplete(j, token, Failed, Some(job.counts), KmsMissingCode))
    case ObjectNotFound => Some(OpObjectFailure(j, token, ObjectMissing, ObjectNotFoundCode))
    case ObjectMismatch => Some(OpObjectFailure(j, token, VerificationFailed, VerificationCode))
    case StorageConfiguration => Some(OpComplete(j, token, Failed, Some(job.counts), ConfigurationCode))
    case ClaimWasLost => None
    case DatabaseTrouble => Some(OpRetry(j, token, DatabaseCode, RETRY_BASE, RETRY_MAXIMUM))
  }

  /**
    The exception handlers of `process_claim`. Under a live lease each one settles
    the job; without one nothing changes.
   */
  method RouteFailure(q: ImportQueue, j: ImportId, token: Token, failure: ProcessingFailure, now: Time)
    returns (error: Option<QueueError>)
    requires Inv(q.Contents()) && j in q.jobs
    modifies q
    ensures FailureOp(old(q.jobs[j]), j, token, failure).None?
            ==> q.Contents() == old(q.Contents()) && error == Some(ClaimLost)
    ensures FailureOp(old(q.jobs[j]), j, token, failure).Some? ==>
              var result := Perform(old(q.Contents()), FailureOp(old(q.jobs[j]), j, token, failure).value, now);
              q.Contents() == After(old(q.Contents()), result) && error == ErrorOf(result)
    ensures HoldsLease(old(q.Contents()), j, token, now) && !failure.ClaimWasLost? ==>
              error.None? && FailureSettles(old(q.jobs[j]), q.Contents(), j, failure, now)
    ensures !HoldsLease(old(q.Contents()), j, token, now) || failure.ClaimWasLost? ==>
              error.Some? && q.Contents() == old(q.Contents())
  {
    hide Inv, CompleteJob, ScheduleRetry, StoredObjectFailure, HoldsLease, FailureSettles;
    if !failure.ClaimWasLost? {
      if HoldsLease(q.Contents(), j, token, now) {
        RoutedFailureSettles(q.Contents(), j, token, failure, now);
      } else {
        RoutedWithoutLease(q.Contents(), j, token, failure, now);
      }
    }
    match failure {
      case WrongFormat => error := q.CompleteClaim(j, token, Failed, Some(q.jobs[j].counts), FormatCode, now);
      case DownloadRetryable => error := q.ScheduleRetryJob(j, token, DownloadCode, RETRY_BASE, RETRY_MAXIMUM, now);
      case KmsProvenance => error := q.CompleteClaim(j, token, Failed, Some(q.jobs[j].counts), KmsMissingCode, now);
      case ObjectNotFound => error := q.CompleteStoredObjectFailure(j, token, ObjectMissing, ObjectNotFoundCode, now);
      case ObjectMismatch =>
        error := q.CompleteStoredObjectFailure(j, token, VerificationFailed, VerificationCode, now);
      case StorageConfiguration =>
        error := q.CompleteClaim(j, token, Failed, Some(q.jobs[j].counts), ConfigurationCode, now);
      case ClaimWasLost => error := Some(ClaimLost);
      case DatabaseTrouble => error := q.ScheduleRetryJob(j, token, DatabaseCode, RETRY_BASE, RETRY_MAXIMUM, now);
    }
  }

  predicate Retryable(failure: ProcessingFailure) {
    failure.DownloadRetryable? || failure.DatabaseTrouble?
  }

  /** The code that each failure leaves at the job. */
  predicate CodeOf(failure: ProcessingFailure, code: ErrorCode) {
    match failure
    case WrongFormat => code == FormatCode
    case DownloadRetryable => code == DownloadCode
    case KmsProvenance => code == KmsMissingCode
    case ObjectNotFound => code == ObjectNotFoundCode
    case ObjectMismatch => code == VerificationCode
    case StorageConfiguration => code == ConfigurationCode
    case ClaimWasLost => false
    case DatabaseTrouble => code == DatabaseCode
  }

  /**
    Where a failure leaves a job: retried while attempts are left, after half a minute
    doubled for every earlier attempt but at most a quarter of an hour, otherwise
    failed; and which codes it leaves at the job and at the upload.
   */
  predicate FailureSettles(job: Job, d: Db, j: ImportId, failure: ProcessingFailure, now: Time) {
    && j in d.jobs && j in d.imports && d.jobs[j].leaseToken.None? && d.jobs[j].counts == job.counts
    && CodeOf(failure, d.jobs[j].errorCode)
    && (if Retryable(failure) && job.attemptCount < job.maxAttempts
        then
          && d.jobs[j].status == RetryWait && job.attemptCount >= 1
          && d.jobs[j].availableAt - now
             == (if 30_000_000 * Power2(job.attemptCount - 1) <= 900_000_000
                 then 30_000_000 * Power2(job.attemptCount - 1) else 900_000_000)
        else d.jobs[j].status == Failed && d.jobs[j].finishedAt == Some(now))
    && (failure.ObjectNotFound? || failure.ObjectMismatch? <==> d.imports[j].status == IntakeFailed)
    && (failure.ObjectNotFound? ==> d.imports[j].failure == ObjectMissing && d.imports[j].failedAt == Some(now))
    && (failure.ObjectMismatch? ==> d.imports[j].failure == VerificationFailed && d.imports[j].failedAt == Some(now))
  }

  lemma RetrySettles(db: Db, j: ImportId, token: Token, failure: ProcessingFailure, code: ErrorCode, now: Time)
    requires Inv(db) && HoldsLease(db, j, token, now) && Retryable(failure) && CodeOf(failure, code)
    ensures var r := ScheduleRetry(db, j, token, code, RETRY_BASE, RETRY_MAXIMUM, now);
            r.Ok? && FailureSettles(db.jobs[j], r.value, j, failure, now)
  {
    hide Inv, AttemptData, AttemptMatchesJob, HoldsLease, ValidFor, RunningKeys, Power2, ScheduleRetry;
    LiveJobRow(db, j, token, now);
    QueueMeaning.RetryMeans(db, j, token, code, RETRY_BASE, RETRY_MAXIMUM, now);
  }

  lemma CompletionSettles(db: Db, j: ImportId, token: Token, failure: ProcessingFailure, code: ErrorCode, now: Time)
    requires Inv(db) && HoldsLease(db, j, token, now) && CodeOf(failure, code)
             && (failure.WrongFormat? || failure.KmsProvenance? || failure.StorageConfiguration?)
    ensures var r := CompleteJob(db, j, token, Failed, Some(db.jobs[j].counts), code, now);
            r.Ok? && FailureSettles(db.jobs[j], r.value, j, failure, now)
  {
    hide Inv, AttemptData, AttemptMatchesJob, HoldsLease, LockedLiveClaim, ValidFor, CompleteJob, FinishedAttempt;
    LiveJobRow(db, j, token, now);
    CompleteUnfolds(db, j, token, Failed, Some(db.jobs[j].counts), code, now);
  }

  lemma ObjectFailureSettles(db: Db, j: ImportId, token: Token, failure: ProcessingFailure, reason: FailureCode,
                             code: ErrorCode, now: Time)
    requires Inv(db) && HoldsLease(db, j, token, now) && CodeOf(failure, code)
    requires (failure.ObjectNotFound? && reason == ObjectMissing)
             || (failure.ObjectMismatch? && reason == VerificationFailed)
    ensures var r := StoredObjectFailure(db, j, token, reason, code, now);
            r.Ok? && FailureSettles(db.jobs[j], r.value, j, failure, now)
  {
    hide Inv, AttemptData, AttemptMatchesJob, HoldsLease, LockedLiveClaim, ValidFor, StoredObjectFailure,
         FinishedAttempt;
    LiveJobRow(db, j, token, now);
    StoredObjectFailureUnfolds(db, j, token, reason, code, now);
  }

  lemma LiveJobRow(db: Db, j: ImportId, token: Token, now: Time)
    requires Inv(db) && HoldsLease(db, j, token, now)
    ensures j in db.jobs && j in db.imports && db.imports[j].status == Received && db.jobs[j].attemptCount >= 1
    ensures ValidFor(db.jobs[j].counts, Failed)
  {
    hide Inv, AttemptData, AttemptMatchesJob, ValidFor, JobConstraints;
    NewestFacts(db, j);
    UnappliedCounts(db.jobs[j]);
  }

  /** No handler of a live claim can raise: each one settles the job. */
  lemma RoutedFailureSettles(db: Db, j: ImportId, token: Token, failure: ProcessingFailure, now: Time)
    requires Inv(db) && HoldsLease(db, j, token, now) && !failure.ClaimWasLost?
    ensures j in db.jobs && FailureOp(db.jobs[j], j, token, failure).Some?
    ensures var r := Perform(db, FailureOp(db.jobs[j], j, token, failure).value, now);
            r.Ok? && FailureSettles(db.jobs[j], r.value, j, failure, now)
  {
    hide Inv, HoldsLease, CompleteJob, ScheduleRetry, StoredObjectFailure, FailureSettles;
    LiveJobRow(db, j, token, now);
    match failure
    case WrongFormat => CompletionSettles(db, j, token, failure, FormatCode, now);
    case DownloadRetryable => RetrySettles(db, j, token, failure, DownloadCode, now);
    case KmsProvenance => CompletionSettles(db, j, token, failure, KmsMissingCode, now);
    case ObjectNotFound => ObjectFailureSettles(db, j, token, failure, ObjectMissing, ObjectNotFoundCode, now);
    case ObjectMismatch => ObjectFailureSettles(db, j, token, failure, VerificationFailed, VerificationCode, now);
    case StorageConfiguration => CompletionSettles(db, j, token, failure, ConfigurationCode, now);
    case DatabaseTrouble => RetrySettles(db, j, token, failure, DatabaseCode, now);
  }

  lemma RoutedWithoutLease(db: Db, j: ImportId, token: Token, failure: ProcessingFailure, now: Time)
    requires Inv(db) && j in db.jobs && !HoldsLease(db, j, token, now) && !failure.ClaimWasLost?
    ensures FailureOp(db.jobs[j], j, token, failure).Some?
    ensures Perform(db, FailureOp(db.jobs[j], j, token, failure).value, now).Err?
  {
    hide Inv, RunningKeys, HoldsLease, ValidFor, BoundedDelay, StoredObjectFailure;
    LiveClaimDecides(db, j, token, now);
    StoredObjectFailureUnfolds(db, j, token, ObjectMissing, ObjectNotFoundCode, now);
    StoredObjectFailureUnfolds(db, j, token, VerificationFailed, VerificationCode, now);
  }

  /**
    A file that staging rejects is completed as rejected by every live claim: its
    counters carry at least one issue.
   */
  lemma ContractRejectionSettles(db: Db, j: ImportId, token: Token, results: seq<RowResult>, end: StreamEnd, now: Time)
    requires Inv(db) && HoldsLease(db, j, token, now) && GoodResults(results) && Staging.GoodEnd(end)
    requires Staging.FileRejected(results, end)
    ensures var counts := Staging.Progress(results, |Staging.AllIssues(results, end)|);
            var r := CompleteJob(db, j, token, Rejected, Some(counts), ContractRejectedCode, now);
            r.Ok? && j in r.value.jobs && r.value.jobs[j].status == Rejected && r.value.jobs[j].counts == counts
            && counts.issues > 0
  {
    hide Inv, HoldsLease, CompleteJob, FinishedAttempt, GoodResults, Staging.GoodEnd, Staging.AllIssues,
         Staging.InvalidRows;
    Staging.StagedCountersAccepted(results, end);
    CompleteUnfolds(db, j, token, Rejected, Some(Staging.Progress(results, |Staging.AllIssues(results, end)|)),
                    ContractRejectedCode, now);
  }
}
