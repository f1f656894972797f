/** From the records of a file to the facts table: what decides publication, and what publication leaves behind. */
module FileToFacts {
  import opened Results
  import opened Tables
  import opened QueueSpec
  import opened QueueInvariant
  import opened QueueSafety
  import opened SalesRows
  import opened ReferenceValidation
  import opened Publication
  import opened PublishTransaction
  import opened PublicationOutcomes
  import opened SalesFile
  import opened QueueService
  import opened PublicationService
  import Staging
  import IssueCollection

  /** The row that staging makes of a valid result. */
  function StagedOf(r: RowResult): StagedRow
    requires r.IsValid()
  {
    ToStaged(r.rowNumber, r.row.value)
  }

  lemma {:induction false} PrefixesClean(results: seq<RowResult>, n: nat)
    requires n <= |results| && Staging.InvalidRows(results) == 0
    ensures Staging.InvalidRows(results[..n]) == 0 && (n < |results| ==> results[n].IsValid())
  {
    if n < |results| {
      PrefixesClean(results[..|results| - 1], if n < |results| - 1 then n else |results| - 1);
      assert n < |results| - 1 ==> results[..|results| - 1][..n] == results[..n];
    } else {
      assert results[..n] == results;
    }
  }

  /** Without invalid rows, staging keeps every row at its place. */
  lemma StagedInPlace(results: seq<RowResult>, i: nat)
    requires Staging.InvalidRows(results) == 0 && i < |results|
    ensures results[i].IsValid() && |Staging.ValidRows(results)| == |results|
            && Staging.ValidRows(results)[i] == StagedOf(results[i])
  {
    PrefixesClean(results, i);
    Staging.CountRows(results);
    Staging.EveryValidRowStaged(results, i);
  }

  function CodeOf(code: Option<string>): string {
    if code.Some? then code.value else ""
  }

  /** The fact of a published row carries the row's own values, and names what the row's own codes name. */
  predicate Recorded(r: RowResult, source: Source, m: Master, facts: Facts)
    requires r.IsValid()
  {
    var row, key := r.row.value, FactKey(source, r.row.value.recordId);
    && key in facts
    && facts[key].links.date == row.date && facts[key].quantity == row.quantity
    && facts[key].revenue == row.revenue && facts[key].currency == row.currency
    && row.product in m.products && facts[key].links.product == m.products[row.product]
    && row.territory in m.territories && facts[key].links.territory == m.territories[row.territory].id
    && Identified(row.hospital, facts[key].links.hospital, m.hospitals)
    && Identified(row.representative, facts[key].links.representative, m.representatives)
  }

  /** An optional code and what it names: nothing if it is absent or empty. */
  predicate Identified(code: Option<string>, identity: Option<nat>, table: map<string, nat>) {
    if code.None? || |code.value| == 0 then identity == None
    else code.value in table && identity == Some(table[code.value])
  }

  lemma NamedRecords(r: RowResult, source: Source, m: Master, facts: Facts)
    requires r.IsValid() && FactKey(source, StagedOf(r).recordId) in facts
    requires FactIs(facts[FactKey(source, StagedOf(r).recordId)], StagedOf(r), m)
    ensures Recorded(r, source, m, facts)
  {
  }

  lemma AcceptanceOfFile(results: seq<RowResult>, source: Source, m: Master, facts: Facts)
    requires Staging.InvalidRows(results) == 0
    ensures forall i | 0 <= i < |results| :: results[i].IsValid()
    ensures |Staging.ValidRows(results)| == |results|
    ensures (forall i | 0 <= i < |results| :: RowAccepted(Staging.ValidRows(results)[i], source, m, facts))
            <==> forall i | 0 <= i < |results| :: RowAccepted(StagedOf(results[i]), source, m, facts)
  {
    hide RowAccepted, Staging.ValidRows, Staging.InvalidRows;
    Staging.CountRows(results);
    forall i | 0 <= i < |results|
      ensures results[i].IsValid() && Staging.ValidRows(results)[i] == StagedOf(results[i])
    {
      StagedInPlace(results, i);
    }
  }

  /** The status and rows that applying a plan leaves. */
  lemma AppliedStatus(db: Db, k: AttemptKey, plan: Plan, finished: Time)
    requires k.job in db.jobs && k in db.attempts && k in db.staged && k in db.issues
             && ApplyPlan(db, k, plan, finished).Ok?
    ensures var d := ApplyPlan(db, k, plan, finished).value;
            && k.job in d.jobs && d.jobs[k.job].status == (if plan.PublishPlan? then Published else Rejected)
            && k in d.attempts && (plan.PublishPlan? ==> d.attempts[k].outcome == OutPublished) && k in d.staged
            && d.staged[k] == plan.rows
            && d.jobs[k.job].counts == plan.counts && d.imports == db.imports
            && d.jobs[k.job].finishedAt == Some(finished) && d.jobs[k.job].leaseToken == None
            && d.jobs[k.job].errorCode == (if plan.PublishPlan? then NoErrorCode else ValidationRejectedCode)
            && d.facts == (if plan.PublishPlan? then db.facts + plan.inserted else db.facts)
  {
    hide ValidFor, IssuesUnique;
  }

  lemma PlanTotals(rows: seq<StagedRow>, source: Source, m: Master, facts: Facts, maximum: nat)
    ensures Planned(rows, source, m, facts, maximum).counts.total == |rows|
  {
    hide AllRowIssues, InvalidCount, ValidatedRows, Inserted, InsertedCount, LinkedRows;
  }

  /**
    The whole pipeline. A file that the contract accepts and that was staged under
    a live claim is published when every row's references resolve and no fact under
    its id differs; then every row of the file is recorded with its own values
    and the references of its own codes. Otherwise it is rejected as a whole.
   */
  lemma FileDecides(db: Db, k: AttemptKey, token: Token, records: seq<Record>, tail: Tail, maxRows: nat, m: Master,
                    maximum: nat, started: Time, finished: Time)
    requires Inv(db) && maximum >= 1 && maxRows >= 1 && forall r | r in records :: r.lines >= 1
    requires HoldsLease(db, k.job, token, started) && k == Newest(db, k.job) && k in db.staged && k in db.issues
             && k.job in db.imports
    requires var (results, end) := Read(records, tail, maxRows);
             !Staging.FileRejected(results, end) && db.staged[k] == Staging.ValidRows(results) && db.issues[k] == []
    ensures var results, source := Read(records, tail, maxRows).0, db.imports[k.job].source;
            && PublishOnce(db, k, token, m, maximum, started, finished).Ok?
            && (forall i | 0 <= i < |results| :: results[i].IsValid())
            && var d := PublishOnce(db, k, token, m, maximum, started, finished).value;
               && k.job in d.jobs
               && d.jobs[k.job].status
                 == (if forall i | 0 <= i < |results| ::
                          RowAccepted(StagedOf(results[i]), source, m, db.facts) then Published
                                           else Rejected)
               && d.jobs[k.job].counts.total == |results|
               && d.jobs[k.job].finishedAt == Some(finished) && d.jobs[k.job].leaseToken == None
               && d.jobs[k.job].errorCode
                  == (if d.jobs[k.job].status == Published then NoErrorCode else ValidationRejectedCode)
               && (d.jobs[k.job].status == Rejected ==> d.facts == db.facts)
               && (d.jobs[k.job].status == Published
                   ==> forall i | 0 <= i < |results| :: Recorded(results[i], source, m, d.facts))
  {
    hide Inv, HoldsLease, PublishOnce, Planned, PlanFits, RowAccepted, Read, Staging.ValidRows, Staging.InvalidRows,
         ApplyPlan, FactLinked, Recorded, SameSourceValues, Evolves, InRowOrder, RowsUnique, NamesReferences, FactIs;
    var results, source := Read(records, tail, maxRows).0, db.imports[k.job].source;
    PublishOnceSafe(db, k, token, m, maximum, started, finished);
    AcceptanceOfFile(results, source, m, db.facts);
    PublishesExactly(db.staged[k], source, m, db.facts, maximum);
    PlanTotals(db.staged[k], source, m, db.facts, maximum);
    var plan := PlanOf(db, k, m, maximum);
    LeasedRow(db, k.job, token, started);
    LivePlan(db, k, token, maximum, started, finished);
    AppliedStatus(db, k, plan, finished);
    var d := PublishOnce(db, k, token, m, maximum, started, finished).value;
    if plan.PublishPlan? {
      forall i | 0 <= i < |results| ensures Recorded(results[i], source, m, d.facts) {
        StagedInPlace(results, i);
        PublishedMeans(db.staged[k], source, m, db.facts, maximum, i);
        NamedRecords(results[i], source, m, d.facts);
      }
    }
  }

  lemma LeasedRow(db: Db, j: ImportId, token: Token, now: Time)
    requires HoldsLease(db, j, token, now)
    ensures j in db.jobs
  {
  }

  // ----- The successful path of `process_claim` -----

  datatype FileEnd = FileRejectedByContract | FilePublished | FileRejectedByData | ClaimGone

  /** What the file, and the database `at` in which its last transaction ran, say about the outcome in `d`. */
  ghost predicate Decided(fileEnd: FileEnd, results: seq<RowResult>, end: StreamEnd, j: ImportId, at: Db, d: Db) {
    match fileEnd
    case ClaimGone => d == at
    case FileRejectedByContract =>
      Staging.FileRejected(results, end) && j in d.jobs && d.jobs[j].status == Rejected && d.facts == at.facts
    case FilePublished =>
      && !Staging.FileRejected(results, end) && j in d.jobs && d.jobs[j].status == Published && j in at.imports
      && AllAccepted(results, at.imports[j].source, at)
      && forall i | 0 <= i < |results| ::
           results[i].IsValid() && Recorded(results[i], at.imports[j].source, at.master, d.facts)
    case FileRejectedByData =>
      && !Staging.FileRejected(results, end) && j in d.jobs && d.jobs[j].status == Rejected && j in at.imports
      && !AllAccepted(results, at.imports[j].source, at) && d.facts == at.facts
  }

  ghost predicate AllAccepted(results: seq<RowResult>, source: Source, at: Db) {
    forall i | 0 <= i < |results| ::
      results[i].IsValid() && RowAccepted(StagedOf(results[i]), source, at.master, at.facts)
  }

  /** The last transaction of a file that the contract rejects. */
  lemma RejectionDecides(results: seq<RowResult>, end: StreamEnd, at: Db, k: AttemptKey, token: Token, counts: Counts,
                         now: Time)
    requires Inv(at) && Staging.FileRejected(results, end)
    requires GoodResults(results) && Staging.GoodEnd(end)
             && counts == Staging.Progress(results, |Staging.AllIssues(results, end)|)
    ensures var r := CompleteJob(at, k.job, token, Rejected, Some(counts), ContractRejectedCode, now);
            && (r.Ok? <==> HoldsLease(at, k.job, token, now))
            && (r.Ok? ==> Decided(FileRejectedByContract, results, end, k.job, at, r.value))
  {
    hide Inv, HoldsLease, ValidFor, FinishedAttempt, CompleteJob, GoodResults, Staging.GoodEnd, Staging.FileRejected,
         Staging.AllIssues, Staging.Progress;
    Staging.StagedCountersAccepted(results, end);
    CompleteUnfolds(at, k.job, token, Rejected, Some(counts), ContractRejectedCode, now);
  }

  /** The last transaction of a file that the contract accepts. */
  lemma PublicationDecides(at: Db, k: AttemptKey, token: Token, records: seq<Record>, tail: Tail, maxRows: nat,
                           maximum: nat, started: Time, finished: Time)
    requires Inv(at) && maximum >= 1 && maxRows >= 1 && k in at.staged && k in at.issues
             && forall r | r in records :: r.lines >= 1
    requires var (results, end) := Read(records, tail, maxRows);
             !Staging.FileRejected(results, end) && at.staged[k] == Staging.ValidRows(results) && at.issues[k] == []
    ensures var (results, end) := Read(records, tail, maxRows);
            var r := PublishOnce(at, k, token, at.master, maximum, started, finished);
            && (r.Ok? <==> HoldsLease(at, k.job, token, started) && k == Newest(at, k.job))
            && (r.Ok? ==>
                  && k.job in r.value.jobs
                  && Decided(if r.value.jobs[k.job].status == Published then FilePublished
                             else FileRejectedByData, results, end, k.job, at, r.value))
  {
    hide Inv, HoldsLease, PublishOnce, RowAccepted, Read, Staging.FileRejected, Staging.ValidRows, Recorded, PlanFits,
         ApplyPlan, PlanOf;
    PublishOnceSafe(at, k, token, at.master, maximum, started, finished);
    if PublishOnce(at, k, token, at.master, maximum, started, finished).Ok? {
      FileDecides(at, k, token, records, tail, maxRows, at.master, maximum, started, finished);
    }
  }

  /**
    Read, stage, then reject or publish. Other processes may run before every
    transaction. Unless the claim is lost, the outcome is decided by the contents of
    the file and by the database `at` of the last transaction; it is not lost when
    nobody touches it and each transaction comes within the lease of the previous one.
    A lost claim writes nothing from then on.
  */
  method ProcessFile(q: ImportQueue, k: AttemptKey, token: Token, records: seq<Record>, tail: Tail, maxRows: nat,
                     batch: nat, maximum: nat, clock: nat -> Time, others: nat -> Others)
    returns (fileEnd: FileEnd, ghost at: Db)
    requires Inv(q.Contents()) && k in q.staged && k in q.issues && q.staged[k] == [] && q.issues[k] == []
    requires maxRows >= 1 && batch >= 1 && maximum >= 1 && forall r | r in records :: r.lines >= 1
    requires Staging.Environment(others, k, token) && Staging.OwnAttempt(q.Contents(), k, token)
    modifies q
    ensures Inv(q.Contents()) && Evolves(old(q.Contents()), at) && Evolves(at, q.Contents())
    ensures Decided(fileEnd, Read(records, tail, maxRows).0, Read(records, tail, maxRows).1, k.job, at, q.Contents())
    ensures Staging.OwnsClaim(old(q.Contents()), k, token, clock(0)) && Staging.Unhindered(others, k, token, clock)
            && Staging.InTime(clock) ==>
              fileEnd != ClaimGone
  {
    hide Inv, Evolves, Legal, Staging.LeavesAttempt, Staging.LeavesClaim, Staging.InTime, Staging.Environment,
         Staging.Unhindered, Staging.OwnAttempt, GoodResults, Staging.GoodEnd, Read, Staging.FileRejected, Decided,
         PublishOnce, CompleteJob, Staging.AllIssues, Staging.Progress, Staging.ValidRows, HoldsLease,
         IssueCollection.Stored, IssueCollection.DetailLimit;
    ghost var start := q.Contents();
    EvolvesReflexive(start);
    ReadIsGood(records, tail, maxRows);
    var results, end := IterSalesRows(records, tail, maxRows);
    var staged, ticks := Staging.StageCsv(results, end, batch, maximum, q, k, token, clock, others);
    at := q.Contents();
    EvolvesReflexive(at);
    if staged.Lost? {
      Lost(results, end, k.job, at);
      return ClaimGone, at;
    }
    Staging.AtTick(others, k, token, clock, ticks);
    Staging.OthersLeave(others(ticks), k, start, q.Contents(), token, clock(ticks));
    q.Restore(others(ticks)(q.Contents()));
    at := q.Contents();
    EvolvesReflexive(at);
    var error;
    if staged.rejected {
      RejectionDecides(results, end, at, k, token, staged.progress, clock(ticks));
      CompleteJobSafe(at, k.job, token, Rejected, Some(staged.progress), ContractRejectedCode, clock(ticks));
      error := q.CompleteClaim(k.job, token, Rejected, Some(staged.progress), ContractRejectedCode, clock(ticks));
      fileEnd := FileRejectedByContract;
    } else {
      CleanFile(results, end, maximum);
      PublicationDecides(at, k, token, records, tail, maxRows, maximum, clock(ticks), clock(ticks + 1));
      PublishOnceSafe(at, k, token, at.master, maximum, clock(ticks), clock(ticks + 1));
      error := PublishClaim(q, k, token, batch, maximum, clock(ticks), clock(ticks + 1));
      fileEnd := if k.job in q.jobs && q.jobs[k.job].status == Published then FilePublished else FileRejectedByData;
    }
    if error.Some? {
      fileEnd := ClaimGone;
      Lost(results, end, k.job, at);
    }
  }

  lemma Lost(results: seq<RowResult>, end: StreamEnd, j: ImportId, at: Db)
    ensures Decided(ClaimGone, results, end, j, at, at)
  {
  }

  /** A file that staging does not reject leaves no issues. */
  lemma CleanFile(results: seq<RowResult>, end: StreamEnd, maximum: nat)
    requires GoodResults(results) && Staging.GoodEnd(end) && !Staging.FileRejected(results, end)
    ensures Staging.AllIssues(results, end) == []
            && |Staging.AllIssues(results, end)| <= IssueCollection.DetailLimit(maximum)
  {
    Staging.StagedCountersAccepted(results, end);
  }
}
