/**
  The database rows the import pipeline works on, the check constraints declared
  on them, and the audit triggers every update has to satisfy.
 */
module Tables {
  import opened Results
  import opened Text

  type ImportId = nat
  type Token = nat
  type Time = int // microseconds
  type Day = int // proleptic Gregorian ordinal
  type Source = string

  datatype IntakeStatus = Receiving | Received | IntakeFailed
  datatype FileFormat = Csv | Xlsx
  datatype FailureCode = NoFailure | StorageError | ObjectMissing | VerificationFailed

  /** A `SalesImport` row, without its display metadata and KMS key. */
  datatype Intake = Intake(
    source: Source, format: FileFormat, sha256: string, status: IntakeStatus,
    versionId: string, failure: FailureCode, receivedAt: Option<Time>, failedAt: Option<Time>)

  datatype JobStatus =
    | WaitingForFile | AwaitingParser | Queued | Processing | RetryWait
    | Published | Rejected | Failed | Cancelled

  datatype Counts = Counts(total: int, valid: int, invalid: int, issues: int, inserted: int, reused: int)

  const NO_COUNTS := Counts(0, 0, 0, 0, 0, 0)

  /** The constant values of the `last_error_code` and `error_code` columns. */
  datatype ErrorCode =
    | NoErrorCode | IntakeStorageFailedCode | LeaseExpiredCode | AttemptLimitCode | DownloadCode | KmsMissingCode
    | ObjectNotFoundCode | VerificationCode | ConfigurationCode | DatabaseCode | FormatCode
    | ContractRejectedCode | ValidationRejectedCode | ConflictCode

  /** A `SalesImportJob` row; its primary key is the intake's. */
  datatype Job = Job(
    status: JobStatus, createdAt: Time, availableAt: Time, attemptCount: nat, maxAttempts: nat,
    leaseToken: Option<Token>, leasedBy: string, leaseExpiresAt: Option<Time>, heartbeatAt: Option<Time>,
    firstStartedAt: Option<Time>, finishedAt: Option<Time>, counts: Counts, errorCode: ErrorCode)

  datatype Phase = Claimed | Download | Parse | Validate | Publish | Complete
  datatype Outcome =
    | Running | OutPublished | OutRejected | RetryableFailure | PermanentFailure | LeaseExpired | OutCancelled

  /** Attempts are identified by the unique pair (job, attempt number). */
  datatype AttemptKey = AttemptKey(job: ImportId, number: nat)

  datatype Attempt = Attempt(
    token: Token, worker: string, phase: Phase, outcome: Outcome,
    startedAt: Time, heartbeatAt: Time, finishedAt: Option<Time>, counts: Counts, errorCode: ErrorCode)

  datatype StagedOutcome = Staged | RowPublished | RowReused

  /** The foreign keys that validation resolves together. */
  datatype Links = Links(date: Day, product: nat, territory: nat, hospital: Option<nat>, representative: Option<nat>)

  datatype StagedRow = StagedRow(
    rowNumber: nat, recordId: string, date: Day, product: string, territory: string,
    hospital: string, representative: string, quantity: int, revenue: int, currency: string,
    links: Option<Links>, outcome: StagedOutcome, fact: Option<FactKey>)

  datatype IssuePhase = ContractPhase | MasterDataPhase | IdempotencyPhase

  datatype IssueCode =
    | CsvMalformed | SchemaMissingColumn | SchemaDuplicateColumn | SchemaUnknownColumn
    | FileNoDataRows | FileRowLimitExceeded | RowColumnCountMismatch | RequiredValueMissing
    | ValueTooLong | InvalidControlCharacter | DateInvalidFormat | DecimalInvalidFormat
    | DecimalPrecisionExceeded | QuantityZero | MeasureSignMismatch | CurrencyCodeInvalid
    | DuplicateSourceRecordId | FileEncodingInvalid | IssueLimitReached
    | CalendarDateNotFound | ProductNotFound | TerritoryNotFound | TerritoryNotLeaf
    | HospitalNotFound | RepresentativeNotFound | HospitalTerritoryMismatch
    | RepresentativeTerritoryMismatch | SourceRecordConflict

  /** The nine columns of the row contract, and the two markers for issues of a whole row or file. */
  datatype Column =
    | SourceRecordIdColumn | TransactionDateColumn | ProductColumn | TerritoryColumn | HospitalColumn
    | RepresentativeColumn | QuantityColumn | RevenueColumn | CurrencyColumn | WholeRow | WholeFile

  datatype Issue = Issue(row: Option<nat>, column: Column, code: IssueCode, phase: IssuePhase)

  /** A `SalesTransaction` row is identified by its unique (source, record id). */
  datatype FactKey = FactKey(source: Source, recordId: string)
  datatype Fact = Fact(links: Links, quantity: int, revenue: int, currency: string)

  datatype TerritoryRow = TerritoryRow(id: nat, isLeaf: bool)
  datatype Assignment = Assignment(identity: nat, territory: nat, from: Day, to: Option<Day>)

  /** The reporting calendar and the master data that validation reads. */
  datatype Master = Master(
    calendar: set<Day>, products: map<string, nat>, territories: map<string, TerritoryRow>,
    hospitals: map<string, nat>, representatives: map<string, nat>,
    hospitalAssignments: seq<Assignment>, representativeAssignments: seq<Assignment>)

  datatype Db = Db(
    imports: map<ImportId, Intake>, jobs: map<ImportId, Job>, attempts: map<AttemptKey, Attempt>,
    staged: map<AttemptKey, seq<StagedRow>>, issues: map<AttemptKey, seq<Issue>>,
    facts: map<FactKey, Fact>, master: Master)

  // ----- Check constraints -----

  predicate Terminal(status: JobStatus) {
    status == Published || status == Rejected || status == Failed || status == Cancelled
  }

  predicate IntakeConstraints(i: Intake) {
    match i.status
    case Receiving => i.receivedAt.None? && i.failedAt.None? && |i.versionId| == 0 && i.failure == NoFailure
    case Received => i.receivedAt.Some? && i.failedAt.None? && i.failure == NoFailure && |i.versionId| > 0
    case IntakeFailed =>
      && i.failedAt.Some? && i.failure != NoFailure
      && (|| (i.receivedAt.None? && |i.versionId| == 0)
          || (i.receivedAt.Some? && (i.failure == ObjectMissing || i.failure == VerificationFailed)
              && |i.versionId| > 0))
  }

  predicate CountsConstraint(c: Counts) {
    c.total == c.valid + c.invalid && c.issues >= c.invalid
  }

  predicate CountsNonNegative(c: Counts) {
    c.total >= 0 && c.valid >= 0 && c.invalid >= 0 && c.issues >= 0 && c.inserted >= 0 && c.reused >= 0
  }

  predicate AppliedCountsConstraint(published: bool, c: Counts) {
    if published then c.invalid == 0 && c.issues == 0 && c.total == c.valid && c.valid == c.inserted + c.reused
    else c.inserted == 0 && c.reused == 0
  }

  predicate JobConstraints(job: Job) {
    && 0 < job.maxAttempts <= 32767 && job.attemptCount <= job.maxAttempts
    && CountsNonNegative(job.counts) && CountsConstraint(job.counts)
    && (if job.status == Processing then
          && job.leaseToken.Some? && job.leaseExpiresAt.Some? && job.heartbeatAt.Some?
          && job.firstStartedAt.Some? && job.finishedAt.None? && |job.leasedBy| > 0 && Trimmed(job.leasedBy)
        else
          job.leaseToken.None? && |job.leasedBy| == 0 && job.leaseExpiresAt.None? && job.heartbeatAt.None?)
    && (Terminal(job.status) <==> job.finishedAt.Some?)
    && AppliedCountsConstraint(job.status == Published, job.counts)
    && (job.status == Rejected ==> job.counts.issues > 0)
  }

  predicate AttemptConstraints(number: nat, a: Attempt) {
    && number > 0
    && |a.worker| > 0 && Trimmed(a.worker)
    && (a.outcome == Running <==> a.finishedAt.None?)
    && CountsNonNegative(a.counts) && CountsConstraint(a.counts)
    && AppliedCountsConstraint(a.outcome == OutPublished, a.counts)
    && (a.outcome == OutRejected ==> a.counts.issues > 0)
  }

  predicate StagedRowConstraints(r: StagedRow) {
    && r.rowNumber >= 2
    && |r.recordId| > 0 && Trimmed(r.recordId) && |r.recordId| <= 255
    && |r.product| > 0 && Trimmed(r.product) && Uppercase(r.product) && |r.product| <= 64
    && |r.territory| > 0 && Trimmed(r.territory) && Uppercase(r.territory) && |r.territory| <= 64
    && Trimmed(r.hospital) && Uppercase(r.hospital) && |r.hospital| <= 64
    && Trimmed(r.representative) && Uppercase(r.representative) && |r.representative| <= 64
    && CurrencyFormat(r.currency)
    && MeasuresConstraint(r.quantity, r.revenue)
    && StagedResultConsistent(r)
  }

  predicate CurrencyFormat(s: string) {
    |s| == 3 && forall c | c in s :: 'A' <= c <= 'Z'
  }

  predicate MeasuresConstraint(quantity: int, revenue: int) {
    (quantity > 0 && revenue >= 0) || (quantity < 0 && revenue <= 0)
  }

  predicate StagedResultConsistent(r: StagedRow) {
    if r.outcome == Staged then r.fact.None?
    else
      && r.fact.Some? && r.links.Some?
      && (|r.hospital| == 0 <==> r.links.value.hospital.None?)
      && (|r.representative| == 0 <==> r.links.value.representative.None?)
  }

  /** The unique constraints (attempt, row number) and (attempt, source record id). */
  predicate RowsUnique(rows: seq<StagedRow>) {
    forall i, j | 0 <= i < j < |rows| :: rows[i].rowNumber != rows[j].rowNumber && rows[i].recordId != rows[j].recordId
  }

  /** Parsers append rows in file order, and queries return them in that order. */
  predicate InRowOrder(rows: seq<StagedRow>) {
    forall i, j | 0 <= i < j < |rows| :: rows[i].rowNumber < rows[j].rowNumber
  }

  /** The unique constraint on (attempt, row number, column, code), nulls not distinct. */
  predicate IssuesUnique(issues: seq<Issue>) {
    forall i, j | 0 <= i < j < |issues| :: !SameIdentity(issues[i], issues[j])
  }

  predicate SameIdentity(a: Issue, b: Issue) {
    a.row == b.row && a.column == b.column && a.code == b.code
  }

  // ----- Audit triggers -----

  /** The attempt trigger: only a running attempt may change, and never its identity. */
  predicate AttemptTrigger(before: Attempt, after: Attempt) {
    before.outcome == Running && after.token == before.token && after.worker == before.worker
    && after.startedAt == before.startedAt
  }

  predicate FactLinked(r: StagedRow, source: Source, facts: map<FactKey, Fact>) {
    && r.fact == Some(FactKey(source, r.recordId)) && r.fact.value in facts && r.links.Some?
    && var fact := facts[r.fact.value];
       && fact.links.date == r.date && fact.links == r.links.value
       && fact.quantity == r.quantity && fact.revenue == r.revenue && fact.currency == r.currency
  }

  predicate SameSourceValues(a: StagedRow, b: StagedRow) {
    && a.rowNumber == b.rowNumber && a.recordId == b.recordId && a.date == b.date && a.product == b.product
    && a.territory == b.territory && a.hospital == b.hospital && a.representative == b.representative
    && a.quantity == b.quantity && a.revenue == b.revenue && a.currency == b.currency
  }

  /** The staged-row trigger, for one row of an attempt whose intake names `source`. */
  predicate StagedRowTrigger(before: StagedRow, after: StagedRow, attempt: Outcome, source: Source,
                             facts: map<FactKey, Fact>) {
    && before.outcome == Staged
    && SameSourceValues(before, after)
    && attempt == Running
    && (after.outcome != Staged ==> FactLinked(after, source, facts))
  }
}
