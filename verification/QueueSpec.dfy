/**
  The queue and intake transactions as functions on the whole database value.
  A transaction either commits a new value or fails and leaves the old one.
 */
module QueueSpec {
  import opened Results
  import opened Text
  import opened Tables
  import opened RetryDelay

  datatype QueueError = ClaimLost | StateError | InvalidValue | TransitionLost | NotFound | ConstraintViolated

  type Commit = Result<Db, QueueError>

  const MAX_SUPPORTED_ATTEMPTS := 32767
  const EXHAUSTED_BATCH := 100
  const DEFAULT_LEASE: Time := 300_000_000
  const RETRY_BASE: Time := 30_000_000
  const RETRY_MAXIMUM: Time := 900_000_000

  /** The database after a transaction: unchanged when it failed. */
  function After(db: Db, result: Commit): Db {
    if result.Ok? then result.value else db
  }

  // ----- Counters -----

  /** `SalesImportJobCounts.validate_for`: true when it raises nothing. */
  predicate ValidFor(c: Counts, status: JobStatus) {
    && CountsNonNegative(c)
    && c.total == c.valid + c.invalid
    && c.issues >= c.invalid
    && (if status == Published then c.invalid == 0 && c.issues == 0 && c.valid == c.inserted + c.reused
        else c.inserted == 0 && c.reused == 0)
    && (status == Rejected ==> c.issues != 0)
  }

  // ----- Live claims -----

  function RunningKeys(db: Db, j: ImportId, token: Token): set<AttemptKey> {
    set k | k in db.attempts && k.job == j && db.attempts[k].token == token && db.attempts[k].outcome == Running
  }

  predicate HoldsLease(db: Db, j: ImportId, token: Token, now: Time) {
    && j in db.jobs && db.jobs[j].status == Processing && db.jobs[j].leaseToken == Some(token)
    && db.jobs[j].leaseExpiresAt.Some? && db.jobs[j].leaseExpiresAt.value > now
  }

  ghost function LockedLiveClaim(db: Db, j: ImportId, token: Token, now: Time): (r: Result<AttemptKey, QueueError>)
    ensures r.Ok? ==> HoldsLease(db, j, token, now) && r.value in RunningKeys(db, j, token)
    ensures r.Err? ==> r.error == ClaimLost || r.error == StateError
  {
    if !HoldsLease(db, j, token, now) then Err(ClaimLost)
    else if RunningKeys(db, j, token) == {} then Err(StateError)
    else var k :| k in RunningKeys(db, j, token); Ok(k)
  }

  function ClearLease(job: Job): Job {
    job.(leaseToken := None, leasedBy := "", leaseExpiresAt := None, heartbeatAt := None)
  }

  function WithClaim(db: Db, k: AttemptKey, job: Job, attempt: Attempt): Db {
    db.(jobs := db.jobs[k.job := job], attempts := db.attempts[k := attempt])
  }

  // ----- Intake -----

  predicate ActiveIntake(i: Intake) {
    i.status == Receiving || i.status == Received
  }

  predicate ExistsActive(db: Db, source: Source, sha256: string) {
    exists j | j in db.imports ::
      ActiveIntake(db.imports[j]) && db.imports[j].source == source && db.imports[j].sha256 == sha256
  }

  function DesiredStatus(i: Intake): JobStatus {
    match i.status
    case Receiving => WaitingForFile
    case Received => if i.format == Csv then Queued else AwaitingParser
    case IntakeFailed => Failed
  }

  function NewJob(i: Intake, maxAttempts: nat, now: Time): Job {
    Job(DesiredStatus(i), now, now, 0, maxAttempts, None, "", None, None, None,
        if i.status == IntakeFailed then Some(now) else None, NO_COUNTS, NoErrorCode)
  }

  function AdvancedJob(job: Job, desired: JobStatus, now: Time): Job {
    if job.status != WaitingForFile then job
    else match desired
      case Queued => job.(status := Queued, availableAt := now)
      case AwaitingParser => job.(status := AwaitingParser, availableAt := now)
      case Failed => job.(status := Failed, finishedAt := Some(now), errorCode := IntakeStorageFailedCode)
      case _ => job
  }

  /** `enqueue_import`: create the one job of an intake, or move it on from waiting. */
  function Enqueue(db: Db, j: ImportId, maxAttempts: int, now: Time): Commit {
    if !(1 <= maxAttempts <= MAX_SUPPORTED_ATTEMPTS) then Err(InvalidValue)
    else if j !in db.imports then Err(NotFound)
    else
      var i := db.imports[j];
      var job := if j in db.jobs then AdvancedJob(db.jobs[j], DesiredStatus(i), now) else NewJob(i, maxAttempts, now);
      Ok(db.(jobs := db.jobs[j := job]))
  }

  /** The first transaction of `receive_sales_import`: the audit row and its waiting job. */
  function CreateIntake(db: Db, j: ImportId, source: Source, format: FileFormat, sha256: string, now: Time): Commit {
    if j in db.imports || ExistsActive(db, source, sha256) then Err(ConstraintViolated)
    else
      var i := Intake(source, format, sha256, Receiving, "", NoFailure, None, None);
      Enqueue(db.(imports := db.imports[j := i]), j, 5, now)
  }

  function MarkReceived(db: Db, j: ImportId, version: string, now: Time): Commit {
    if |Strip(version)| == 0 then Err(InvalidValue)
    else if j !in db.imports || db.imports[j].status != Receiving then Err(TransitionLost)
    else Ok(db.(imports := db.imports[j := db.imports[j].(
                  status := Received, versionId := Strip(version), receivedAt := Some(now), failure := NoFailure,
                  failedAt := None)]))
  }

  function MarkFailed(db: Db, j: ImportId, code: FailureCode, now: Time): Commit {
    if code == NoFailure then Err(InvalidValue)
    else if j !in db.imports || db.imports[j].status != Receiving then Err(TransitionLost)
    else Ok(db.(imports := db.imports[j := db.imports[j].(
                  status := IntakeFailed, versionId := "", receivedAt := None, failure := code,
                  failedAt := Some(now))]))
  }

  function MarkStoredObjectFailed(db: Db, j: ImportId, code: FailureCode, now: Time): Commit {
    if code != ObjectMissing && code != VerificationFailed then Err(InvalidValue)
    else if j !in db.imports || db.imports[j].status != Received then Err(TransitionLost)
    else Ok(db.(imports := db.imports[j := db.imports[j].(
                  status := IntakeFailed, failure := code, failedAt := Some(now))]))
  }

  function Then(first: Commit, second: Db -> Commit): Commit {
    if first.Err? then first else second(first.value)
  }

  /** Upload confirmation, reconciliation and key backfill all commit these two steps together. */
  function ConfirmReceived(db: Db, j: ImportId, version: string, now: Time): Commit {
    Then(MarkReceived(db, j, version, now), d => Enqueue(d, j, 5, now))
  }

  function ConfirmFailed(db: Db, j: ImportId, code: FailureCode, now: Time): Commit {
    Then(MarkFailed(db, j, code, now), d => Enqueue(d, j, 5, now))
  }

  // ----- Operator requeue -----

  predicate HasConflictIssue(db: Db, j: ImportId) {
    exists k | k in db.issues && k.job == j :: exists i | i in db.issues[k] :: i.code == SourceRecordConflict
  }

  function Max(a: int, b: int): int {
    if a >= b then a else b
  }

  function RequeuedJob(job: Job, maximum: nat, now: Time): Job {
    ClearLease(job).(status := Queued, availableAt := now, maxAttempts := maximum, finishedAt := None,
                     errorCode := NoErrorCode, counts := NO_COUNTS)
  }

  function Requeue(db: Db, j: ImportId, additional: int, now: Time): Commit {
    if additional < 1 then Err(InvalidValue)
    else if j !in db.jobs || j !in db.imports then Err(NotFound)
    else
      var job := db.jobs[j];
      if job.status != Failed && job.status != Rejected then Err(StateError)
      else if db.imports[j].status != Received then Err(StateError)
      else if db.imports[j].format != Csv then Err(StateError)
      else if job.status == Rejected && (job.errorCode == ConflictCode || HasConflictIssue(db, j)) then Err(StateError)
      else
        var newMaximum := Max(job.maxAttempts, job.attemptCount) + additional;
        if newMaximum > MAX_SUPPORTED_ATTEMPTS then Err(InvalidValue)
        else Ok(db.(jobs := db.jobs[j := RequeuedJob(job, newMaximum, now)]))
  }

  // ----- Claiming -----

  predicate Due(job: Job, now: Time) {
    || ((job.status == Queued || job.status == RetryWait) && job.availableAt <= now)
    || (job.status == Processing && job.leaseExpiresAt.Some? && job.leaseExpiresAt.value <= now)
  }

  predicate Claimable(db: Db, j: ImportId, now: Time) {
    j in db.jobs && db.jobs[j].attemptCount < db.jobs[j].maxAttempts && Due(db.jobs[j], now)
  }

  predicate AtLimit(db: Db, j: ImportId, now: Time) {
    j in db.jobs && db.jobs[j].attemptCount >= db.jobs[j].maxAttempts && Due(db.jobs[j], now)
  }

  /** `ORDER BY available_at, created_at, pk`. */
  predicate Precedes(db: Db, a: ImportId, b: ImportId)
    requires a in db.jobs && b in db.jobs
  {
    var x, y := db.jobs[a], db.jobs[b];
    || x.availableAt < y.availableAt
    || (x.availableAt == y.availableAt && x.createdAt < y.createdAt)
    || (x.availableAt == y.availableAt && x.createdAt == y.createdAt && a < b)
  }

  function ExpiredAttempt(a: Attempt, now: Time): Attempt {
    a.(outcome := LeaseExpired, finishedAt := Some(now), errorCode := LeaseExpiredCode)
  }

  function LeaseKeys(db: Db, j: ImportId): set<AttemptKey>
    requires j in db.jobs
  {
    if db.jobs[j].leaseToken.None? then {} else RunningKeys(db, j, db.jobs[j].leaseToken.value)
  }

  /** `_finish_expired_attempt`: exactly one running attempt must carry the job's token. */
  function ExpireAttempt(db: Db, j: ImportId, now: Time): Commit
    requires j in db.jobs
  {
    var keys := LeaseKeys(db, j);
    if |keys| != 1 then Err(StateError)
    else Ok(db.(attempts := map k | k in db.attempts ::
                              if k in keys then ExpiredAttempt(db.attempts[k], now) else db.attempts[k]))
  }

  function ClaimedJob(job: Job, worker: string, lease: Time, now: Time, token: Token): Job {
    job.(status := Processing, attemptCount := job.attemptCount + 1, leaseToken := Some(token), leasedBy := worker,
         leaseExpiresAt := Some(now + lease), heartbeatAt := Some(now),
         firstStartedAt := if job.firstStartedAt.None? then Some(now) else job.firstStartedAt,
         finishedAt := None, errorCode := NoErrorCode, counts := NO_COUNTS)
  }

  function NewAttempt(worker: string, now: Time, token: Token): Attempt {
    Attempt(token, worker, Claimed, Running, now, now, None, NO_COUNTS, NoErrorCode)
  }

  predicate WorkerAccepted(worker: string) {
    0 < |Strip(worker)| <= 255
  }

  function AddAttempt(db: Db, k: AttemptKey, job: Job, attempt: Attempt): Db {
    db.(jobs := db.jobs[k.job := job], attempts := db.attempts[k := attempt],
        staged := db.staged[k := []], issues := db.issues[k := []])
  }

  /** The claim transaction of `claim_next_job`, for the job its query selected. */
  function Claim(db: Db, j: ImportId, worker: string, lease: Time, now: Time, token: Token): Commit
    requires j in db.jobs
  {
    if !WorkerAccepted(worker) || lease <= 0 then Err(InvalidValue)
    else
      var job := db.jobs[j];
      var expired := if job.status == Processing then ExpireAttempt(db, j, now) else Ok(db);
      if expired.Err? then expired
      else
        var k := AttemptKey(j, job.attemptCount + 1);
        if k in expired.value.attempts then Err(ConstraintViolated)
        else Ok(AddAttempt(expired.value, k, ClaimedJob(job, Strip(worker), lease, now, token),
                           NewAttempt(Strip(worker), now, token)))
  }

  function ExhaustedJob(job: Job, now: Time): Job {
    ClearLease(job).(status := Failed, finishedAt := Some(now), errorCode := AttemptLimitCode)
  }

  function ExhaustedDb(db: Db, batch: set<ImportId>, now: Time): Db {
    db.(jobs := map j | j in db.jobs :: if j in batch then ExhaustedJob(db.jobs[j], now) else db.jobs[j],
        attempts := map k | k in db.attempts ::
          if k.job in batch && k.job in db.jobs && db.jobs[k.job].status == Processing && k in LeaseKeys(db, k.job)
          then ExpiredAttempt(db.attempts[k], now) else db.attempts[k])
  }

  /** `_mark_exhausted_batch`, for the jobs its query selected: all of them fail at once. */
  function Exhaust(db: Db, batch: set<ImportId>, now: Time): Commit {
    if exists j | j in batch ::
         j !in db.jobs || (db.jobs[j].status == Processing && |LeaseKeys(db, j)| != 1) then Err(StateError)
    else Ok(ExhaustedDb(db, batch, now))
  }

  // ----- Fenced worker transactions -----

  function BeatenJob(job: Job, lease: Time, now: Time): Job {
    job.(heartbeatAt := Some(now), leaseExpiresAt := Some(now + lease))
  }

  ghost function Heartbeat(db: Db, j: ImportId, token: Token, lease: Time, now: Time): Commit {
    if lease <= 0 then Err(InvalidValue)
    else
      var live := LockedLiveClaim(db, j, token, now);
      if live.Err? then Err(live.error)
      else Ok(WithClaim(db, live.value, BeatenJob(db.jobs[j], lease, now),
                        db.attempts[live.value].(heartbeatAt := now)))
  }

  ghost function AdvancePhase(db: Db, j: ImportId, token: Token, phase: Phase, now: Time): Commit {
    var live := LockedLiveClaim(db, j, token, now);
    if live.Err? then Err(live.error)
    else Ok(WithClaim(db, live.value, db.jobs[j], db.attempts[live.value].(phase := phase)))
  }

  function ParseCounts(before: Counts, progress: Counts): Counts {
    progress.(inserted := before.inserted, reused := before.reused)
  }

  /** What `_stage_csv` hands to the database: freshly staged rows and contract issues. */
  predicate ParsedRow(r: StagedRow) {
    r.outcome == Staged && r.fact.None? && r.links.None?
  }

  predicate ParsedIssue(i: Issue) {
    i.phase == ContractPhase && i.code != SourceRecordConflict
  }

  predicate BatchConstraints(rows: seq<StagedRow>, issues: seq<Issue>, counts: Counts) {
    && (forall r | r in rows :: StagedRowConstraints(r))
    && RowsUnique(rows) && IssuesUnique(issues)
    && CountsNonNegative(counts) && CountsConstraint(counts)
  }

  function ParsedJob(job: Job, counts: Counts, now: Time): Job {
    job.(counts := counts, heartbeatAt := Some(now), leaseExpiresAt := Some(now + DEFAULT_LEASE))
  }

  function ParsedAttempt(a: Attempt, counts: Counts, now: Time): Attempt {
    a.(counts := counts, heartbeatAt := now, phase := Parse)
  }

  ghost function RecordParseBatch(db: Db, k: AttemptKey, token: Token, rows: seq<StagedRow>, issues: seq<Issue>,
                                  progress: Counts, now: Time): Commit
  {
    var live := LockedLiveClaim(db, k.job, token, now);
    if live.Err? then Err(live.error)
    else if live.value != k || k !in db.staged || k !in db.issues then Err(ClaimLost)
    else
      var allRows, allIssues := db.staged[k] + rows, db.issues[k] + issues;
      var counts := ParseCounts(db.jobs[k.job].counts, progress);
      if !BatchConstraints(allRows, allIssues, counts) then Err(ConstraintViolated)
      else Ok(WithClaim(db, k, ParsedJob(db.jobs[k.job], counts, now),
                        ParsedAttempt(db.attempts[k], ParseCounts(db.attempts[k].counts, progress), now))
              .(staged := db.staged[k := allRows], issues := db.issues[k := allIssues]))
  }

  function RetriedJob(job: Job, code: ErrorCode, base: Time, maximum: Time, now: Time): Job {
    if job.attemptCount >= job.maxAttempts || job.attemptCount < 1 then
      ClearLease(job).(status := Failed, finishedAt := Some(now), errorCode := code)
    else
      ClearLease(job).(status := RetryWait, finishedAt := None, errorCode := code,
                       availableAt := now + BoundedDelay(job.attemptCount, base, maximum))
  }

  function RetriedAttempt(a: Attempt, counts: Counts, code: ErrorCode, now: Time): Attempt {
    a.(counts := counts, outcome := RetryableFailure, finishedAt := Some(now), errorCode := code)
  }

  ghost function ScheduleRetry(db: Db, j: ImportId, token: Token, code: ErrorCode, base: Time, maximum: Time,
                               now: Time): Commit {
    var live := LockedLiveClaim(db, j, token, now);
    if live.Err? then Err(live.error)
    else
      var job, k := db.jobs[j], live.value;
      if !ValidFor(job.counts, Failed) then Err(InvalidValue)
      else if job.attemptCount < job.maxAttempts
      && (job.attemptCount < 1 || base <= 0 || maximum <= 0) then Err(InvalidValue)
      else Ok(WithClaim(db, k, RetriedJob(job, code, base, maximum, now),
                        RetriedAttempt(db.attempts[k], job.counts, code, now)))
  }

  function TerminalOutcome(status: JobStatus): Option<Outcome> {
    match status
    case Published => Some(OutPublished)
    case Rejected => Some(OutRejected)
    case Failed => Some(PermanentFailure)
    case Cancelled => Some(OutCancelled)
    case _ => None
  }

  function FinishedJob(job: Job, status: JobStatus, counts: Counts, code: ErrorCode, now: Time): Job {
    ClearLease(job).(status := status, counts := counts, finishedAt := Some(now), errorCode := code)
  }

  function FinishedAttempt(a: Attempt, status: JobStatus, counts: Counts, code: ErrorCode, now: Time): Attempt
    requires TerminalOutcome(status).Some?
  {
    a.(outcome := TerminalOutcome(status).value, counts := counts, finishedAt := Some(now), errorCode := code,
       phase := if status == Published then Complete else a.phase)
  }

  ghost function CompleteJob(db: Db, j: ImportId, token: Token, status: JobStatus, counts: Option<Counts>,
                             code: ErrorCode, now: Time): Commit {
    if TerminalOutcome(status).None? then Err(InvalidValue)
    else
      var live := LockedLiveClaim(db, j, token, now);
      if live.Err? then Err(live.error)
      else
        var final := if counts.Some? then counts.value else db.jobs[j].counts;
        if !ValidFor(final, status) then Err(InvalidValue)
        else Ok(WithClaim(db, live.value, FinishedJob(db.jobs[j], status, final, code, now),
                          FinishedAttempt(db.attempts[live.value], status, final, code, now)))
  }

  /** `_complete_stored_object_failure`: the intake and the fenced claim fail together or not at all. */
  ghost function StoredObjectFailure(db: Db, j: ImportId, token: Token, failure: FailureCode, code: ErrorCode,
                                     now: Time): Commit {
    var marked := MarkStoredObjectFailed(db, j, failure, now);
    if marked.Err? then marked
    else if j !in db.jobs then Err(NotFound)
    else CompleteJob(marked.value, j, token, Failed, Some(db.jobs[j].counts), code, now)
  }

  // ----- One transaction of any process -----

  datatype Op =
    | OpCreate(j: ImportId, source: Source, format: FileFormat, sha256: string)
    | OpEnqueue(j: ImportId, maxAttempts: int)
    | OpReceived(j: ImportId, version: string)
    | OpIntakeFailed(j: ImportId, failure: FailureCode)
    | OpRequeue(j: ImportId, additional: int)
    | OpClaim(j: ImportId, worker: string, lease: Time, token: Token)
    | OpExhaust(batch: set<ImportId>)
    | OpHeartbeat(j: ImportId, token: Token, lease: Time)
    | OpPhase(j: ImportId, token: Token, phase: Phase)
    | OpParse(k: AttemptKey, token: Token, rows: seq<StagedRow>, issues: seq<Issue>, progress: Counts)
    | OpRetry(j: ImportId, token: Token, code: ErrorCode, base: Time, maximum: Time)
    | OpComplete(j: ImportId, token: Token, status: JobStatus, counts: Option<Counts>, code: ErrorCode)
    | OpObjectFailure(j: ImportId, token: Token, failure: FailureCode, code: ErrorCode)

  function UsedTokens(db: Db): set<Token> {
    set k | k in db.attempts :: db.attempts[k].token
  }

  /**
    What the environment guarantees about an operation: claim queries return
    eligible rows, `uuid4` tokens are fresh, parsers stage new rows, in file
    order, and contract issues, and only publication reports a published job.
   */
  predicate Enabled(db: Db, op: Op, now: Time) {
    match op
    case OpClaim(j, _, _, token) => Claimable(db, j, now) && token !in UsedTokens(db)
    case OpExhaust(batch) => |batch| <= EXHAUSTED_BATCH && forall j | j in batch :: AtLimit(db, j, now)
    case OpParse(k, _, rows, issues, _) =>
      && (forall r | r in rows :: ParsedRow(r)) && (forall i | i in issues :: ParsedIssue(i))
      && (k in db.staged ==> InRowOrder(db.staged[k] + rows))
    case OpComplete(_, _, status, _, _) => status != Published
    case _ => true
  }

  ghost function Perform(db: Db, op: Op, now: Time): Commit
    requires Enabled(db, op, now)
  {
    match op
    case OpCreate(j, source, format, sha256) => CreateIntake(db, j, source, format, sha256, now)
    case OpEnqueue(j, maxAttempts) => Enqueue(db, j, maxAttempts, now)
    case OpReceived(j, version) => ConfirmReceived(db, j, version, now)
    case OpIntakeFailed(j, failure) => ConfirmFailed(db, j, failure, now)
    case OpRequeue(j, additional) => Requeue(db, j, additional, now)
    case OpClaim(j, worker, lease, token) => Claim(db, j, worker, lease, now, token)
    case OpExhaust(batch) => Exhaust(db, batch, now)
    case OpHeartbeat(j, token, lease) => Heartbeat(db, j, token, lease, now)
    case OpPhase(j, token, phase) => AdvancePhase(db, j, token, phase, now)
    case OpParse(k, token, rows, issues, progress) => RecordParseBatch(db, k, token, rows, issues, progress, now)
    case OpRetry(j, token, code, base, maximum) => ScheduleRetry(db, j, token, code, base, maximum, now)
    case OpComplete(j, token, status, counts, code) => CompleteJob(db, j, token, status, counts, code, now)
    case OpObjectFailure(j, token, failure, code) => StoredObjectFailure(db, j, token, failure, code, now)
  }
}
