/** Parsing one file into staged rows and issues, batch by batch under a fence. */
module Staging {
  import opened Results
  import opened Tables
  import opened SalesRows
  import opened IssueCollection
  import opened QueueSpec
  import opened QueueInvariant
  import opened QueueSafety
  import opened QueueService

  // ----- What staging stores, without batches -----

  function ValidRows(results: seq<RowResult>): seq<StagedRow> {
    if results == [] then []
    else
      var r := results[|results| - 1];
      ValidRows(results[..|results| - 1]) + if r.IsValid() then [ToStaged(r.rowNumber, r.row.value)] else []
  }

  /** The issues of one row, each identity once. */
  function Distinct(issues: seq<Issue>): seq<Issue> {
    if issues == [] then []
    else
      var before := Distinct(issues[..|issues| - 1]);
      Counted(before, 0, issues[|issues| - 1])
  }

  function RowDetails(results: seq<RowResult>): seq<Issue> {
    if results == [] then []
    else
      var r := results[|results| - 1];
      RowDetails(results[..|results| - 1]) + if r.IsValid() then [] else Distinct(r.issues)
  }

  function InvalidRows(results: seq<RowResult>): nat {
    if results == [] then 0
    else InvalidRows(results[..|results| - 1]) + if results[|results| - 1].IsValid() then 0 else 1
  }

  function FileIssues(end: StreamEnd): seq<Issue> {
    match end
    case Finished => []
    case FileError(code) => [Issue(None, WholeFile, code, ContractPhase)]
    case Undecodable => [Issue(None, WholeFile, FileEncodingInvalid, ContractPhase)]
  }

  function AllIssues(results: seq<RowResult>, end: StreamEnd): seq<Issue> {
    RowDetails(results) + FileIssues(end)
  }

  function Progress(results: seq<RowResult>, issueCount: nat): Counts {
    Counts(|results|, |results| - InvalidRows(results), InvalidRows(results), issueCount, 0, 0)
  }

  predicate FileRejected(results: seq<RowResult>, end: StreamEnd) {
    !end.Finished? || InvalidRows(results) > 0
  }

  predicate GoodEnd(end: StreamEnd) {
    end.FileError? ==> ContractCode(end.code)
  }

  // ----- Facts about the specification -----

  lemma CountedFacts(before: seq<Issue>, issue: Issue)
    requires IssuesUnique(before)
    ensures IssuesUnique(Counted(before, 0, issue)) && Counted(before, 0, issue) != []
    ensures forall i | i in Counted(before, 0, issue) :: i in before || i == issue
  {
    assert before[0..] == before;
    if IdentityOf(issue) !in Identities(before) {
      forall i | i in before ensures !SameIdentity(i, issue) {
        assert IdentityOf(i) in Identities(before);
      }
    } else {
      assert before != [];
    }
  }

  lemma {:induction false} DistinctFacts(issues: seq<Issue>)
    ensures IssuesUnique(Distinct(issues))
    ensures forall i | i in Distinct(issues) :: i in issues
    ensures issues != [] ==> Distinct(issues) != []
  {
    hide Counted, IssuesUnique;
    if issues != [] {
      var n := |issues| - 1;
      DistinctFacts(issues[..n]);
      CountedFacts(Distinct(issues[..n]), issues[n]);
    } else {
      NothingUnique();
    }
  }

  lemma NothingUnique()
    ensures IssuesUnique([])
  {
  }

  lemma GoodPrefix(results: seq<RowResult>, n: nat)
    requires GoodResults(results) && n <= |results|
    ensures GoodResults(results[..n])
  {
  }

  /** Every detail belongs to one of the rows, so issues of different rows never coincide. */
  lemma {:induction false} RowDetailsFacts(results: seq<RowResult>)
    requires GoodResults(results)
    ensures forall i | i in RowDetails(results) ::
              i.row.Some? && i.row.value <= results[|results| - 1].rowNumber && ParsedIssue(i) && ContractCode(i.code)
    ensures IssuesUnique(RowDetails(results))
    ensures InvalidRows(results) <= |RowDetails(results)| && InvalidRows(results) <= |results|
    ensures results == [] ==> RowDetails(results) == []
  {
    if results != [] {
      var n := |results| - 1;
      var r := results[n];
      GoodPrefix(results, n);
      RowDetailsFacts(results[..n]);
      assert r in results && GoodResult(r);
      DistinctFacts(r.issues);
      JoinUnique(RowDetails(results[..n]), Distinct(r.issues));
    }
  }

  lemma JoinUnique(a: seq<Issue>, b: seq<Issue>)
    requires IssuesUnique(a) && IssuesUnique(b)
    ensures (forall i, j | i in a && j in b :: i.row != j.row) ==> IssuesUnique(a + b)
  {
  }

  lemma AllIssuesFacts(results: seq<RowResult>, end: StreamEnd)
    requires GoodResults(results) && GoodEnd(end)
    ensures IssuesUnique(AllIssues(results, end))
    ensures forall i | i in AllIssues(results, end) :: ParsedIssue(i) && ContractCode(i.code)
    ensures InvalidRows(results) <= |AllIssues(results, end)|
    ensures FileRejected(results, end) ==> AllIssues(results, end) != []
  {
    RowDetailsFacts(results);
    JoinUnique(RowDetails(results), FileIssues(end));
  }

  lemma AppendRow(rows: seq<StagedRow>, row: StagedRow)
    requires RowsUnique(rows) && InRowOrder(rows)
    requires forall r | r in rows :: r.rowNumber < row.rowNumber && r.recordId != row.recordId
    ensures RowsUnique(rows + [row]) && InRowOrder(rows + [row])
  {
  }

  /** Every staged row comes from a valid result. */
  lemma {:induction false} StagedFrom(results: seq<RowResult>, r: StagedRow) returns (k: nat)
    requires r in ValidRows(results)
    ensures k < |results| && Stages(results[k], r)
  {
    var n := |results| - 1;
    if r in ValidRows(results[..n]) {
      k := StagedFrom(results[..n], r);
    } else {
      k := n;
    }
  }

  lemma {:induction false} ValidRowsFacts(results: seq<RowResult>)
    requires GoodResults(results)
    ensures |ValidRows(results)| == |results| - InvalidRows(results)
    ensures forall r | r in ValidRows(results) :: StagedRowConstraints(r) && ParsedRow(r)
    ensures RowsUnique(ValidRows(results)) && InRowOrder(ValidRows(results))
  {
    hide StagedRowConstraints, RowsUnique, InRowOrder;
    if results != [] {
      var n := |results| - 1;
      GoodPrefix(results, n);
      ValidRowsFacts(results[..n]);
      assert results[n] in results;
      if results[n].IsValid() {
        forall r | r in ValidRows(results[..n])
          ensures r.rowNumber < results[n].rowNumber && r.recordId != results[n].row.value.recordId
        {
          var k := StagedFrom(results[..n], r);
          assert results[..n][k] == results[k];
        }
        AppendRow(ValidRows(results[..n]), ToStaged(results[n].rowNumber, results[n].row.value));
      } else {
        assert ValidRows(results) == ValidRows(results[..n]);
      }
    } else {
      NoRows();
    }
  }

  lemma NoRows()
    ensures RowsUnique([]) && InRowOrder([])
  {
  }

  predicate Stages(result: RowResult, row: StagedRow) {
    result.IsValid() && row == ToStaged(result.rowNumber, result.row.value)
  }

  /** Every valid row is staged, once, in file order. */
  lemma {:induction false} EveryValidRowStaged(results: seq<RowResult>, k: nat)
    requires k < |results| && results[k].IsValid()
    ensures k - InvalidRows(results[..k]) >= 0 && k - InvalidRows(results[..k]) < |ValidRows(results)|
    ensures ValidRows(results)[k - InvalidRows(results[..k])] == ToStaged(results[k].rowNumber, results[k].row.value)
  {
    var n := |results| - 1;
    if k < n {
      assert results[..n][..k] == results[..k];
      EveryValidRowStaged(results[..n], k);
    } else {
      CountRows(results[..n]);
    }
  }

  lemma {:induction false} CountRows(results: seq<RowResult>)
    ensures |ValidRows(results)| == |results| - InvalidRows(results)
  {
    if results != [] {
      CountRows(results[..|results| - 1]);
    }
  }

  lemma {:induction false} ValidRowsPrefix(results: seq<RowResult>, n: nat)
    requires n <= |results|
    ensures ValidRows(results[..n]) <= ValidRows(results)
  {
    if n < |results| {
      assert results[..|results| - 1][..n] == results[..n];
      ValidRowsPrefix(results[..|results| - 1], n);
    } else {
      assert results[..n] == results;
    }
  }

  // ----- One batch behind the fence -----

  /** `_record_parse_batch`: everything is appended and the lease renewed, or the claim is lost and nothing changes. */
  method RecordFenced(q: ImportQueue, k: AttemptKey, token: Token, rows: seq<StagedRow>, found: seq<Issue>,
                      progress: Counts, now: Time)
    returns (live: bool)
    requires Inv(q.Contents()) && k in q.staged && k in q.issues && progress.inserted == 0 && progress.reused == 0
    requires BatchConstraints(q.staged[k] + rows, q.issues[k] + found, progress) && InRowOrder(q.staged[k] + rows)
    requires (forall r | r in rows :: ParsedRow(r)) && (forall i | i in found :: ParsedIssue(i))
    modifies q
    ensures Inv(q.Contents()) && Evolves(old(q.Contents()), q.Contents())
    ensures live <==> HoldsLease(old(q.Contents()), k.job, token, now) && k == Newest(old(q.Contents()), k.job)
    ensures k in q.staged && k in q.issues
    ensures live ==>
              && q.staged[k] == old(q.staged[k]) + rows && q.issues[k] == old(q.issues[k]) + found
              && k.job in q.jobs && q.jobs[k.job].counts == progress && k == Newest(q.Contents(), k.job)
              && forall later | later < now + DEFAULT_LEASE :: HoldsLease(q.Contents(), k.job, token, later)
    ensures !live ==> q.Contents() == old(q.Contents())
  {
    hide Inv, Evolves, RecordParseBatch, BatchConstraints, HoldsLease, ParsedRow, ParsedIssue, InRowOrder;
    ParseBatchCommits(q.Contents(), k, token, rows, found, progress, now);
    RecordParseBatchSafe(q.Contents(), k, token, rows, found, progress, now);
    EvolvesReflexive(q.Contents());
    RenewedLease(q.Contents(), k, token, rows, found, progress, now);
    var error := q.RecordBatch(k, token, rows, found, progress, now);
    live := error.None?;
  }

  lemma RenewedLease(db: Db, k: AttemptKey, token: Token, rows: seq<StagedRow>, found: seq<Issue>, progress: Counts,
                     now: Time)
    ensures var r := RecordParseBatch(db, k, token, rows, found, progress, now);
            r.Ok? ==>
              && k.job in db.jobs && k.job in r.value.jobs && k in r.value.staged && k in r.value.issues
              && r.value.jobs[k.job].attemptCount == db.jobs[k.job].attemptCount
              && forall later | later < now + DEFAULT_LEASE :: HoldsLease(r.value, k.job, token, later)
  {
    hide BatchConstraints, RunningKeys;
  }

  // ----- The staging loop -----

  /** Issues of a row no earlier issue belongs to are deduplicated among themselves only. */
  lemma CountedApart(base: seq<Issue>, mark: nat, own: seq<Issue>, issue: Issue)
    requires mark <= |base| && forall i | i in base :: i.row != issue.row
    ensures Counted(base + own, mark, issue) == base + Counted(own, 0, issue)
  {
    assert (base + own)[mark..] == base[mark..] + own;
    assert own[0..] == own;
    assert IdentityOf(issue) !in Identities(base[mark..]);
  }

  lemma NoneDistinct()
    ensures Distinct([]) == []
  {
  }

  lemma DistinctNext(issues: seq<Issue>)
    requires issues != []
    ensures Distinct(issues) == Counted(Distinct(issues[..|issues| - 1]), 0, issues[|issues| - 1])
  {
  }

  method AddRowIssues(collector: IssueCollector, r: RowResult)
    requires collector.Valid() && GoodResult(r) && forall i | i in collector.counted :: i.row != Some(r.rowNumber)
    modifies collector
    ensures collector.Valid() && collector.drained == old(collector.drained) && collector.mark == old(collector.mark)
    ensures collector.counted == old(collector.counted) + Distinct(r.issues)
  {
    hide Distinct, Identities, IssueCollection.Details, Counted, ContractCode, StagedRowConstraints;
    NoneDistinct();
    for j := 0 to |r.issues|
      invariant collector.Valid() && collector.drained == old(collector.drained)
                && collector.mark == old(collector.mark)
      invariant collector.counted == old(collector.counted) + Distinct(r.issues[..j])
    {
      assert r.issues[j] in r.issues && r.issues[..j + 1][..j] == r.issues[..j];
      CountedApart(old(collector.counted), collector.mark, Distinct(r.issues[..j]), r.issues[j]);
      DistinctNext(r.issues[..j + 1]);
      collector.Add(r.issues[j]);
    }
    assert r.issues[..|r.issues|] == r.issues;
  }

  /** The part of the specification that covers the first `n` results. */
  lemma PrefixStep(results: seq<RowResult>, n: nat)
    requires n < |results|
    ensures ValidRows(results[..n + 1])
            == ValidRows(results[..n])
              + if results[n].IsValid() then [ToStaged(results[n].rowNumber, results[n].row.value)] else []
    ensures RowDetails(results[..n + 1])
            == RowDetails(results[..n]) + if results[n].IsValid() then [] else Distinct(results[n].issues)
    ensures InvalidRows(results[..n + 1]) == InvalidRows(results[..n]) + if results[n].IsValid() then 0 else 1
  {
    assert results[..n + 1][..n] == results[..n];
  }

  lemma EarlierRows(results: seq<RowResult>, n: nat)
    requires GoodResults(results) && n < |results|
    ensures GoodResult(results[n]) && forall i | i in RowDetails(results[..n]) :: i.row != Some(results[n].rowNumber)
  {
    GoodPrefix(results, n);
    RowDetailsFacts(results[..n]);
    assert results[n] in results;
  }

  /** Every batch the loop records satisfies the database constraints. */
  lemma BatchAllowed(results: seq<RowResult>, n: nat, maximum: nat)
    requires GoodResults(results) && n <= |results|
    ensures BatchConstraints(ValidRows(results[..n]), IssueCollection.Details(RowDetails(results[..n]), maximum),
                             Progress(results[..n], |RowDetails(results[..n])|))
    ensures InRowOrder(ValidRows(results[..n]))
    ensures forall r | r in ValidRows(results[..n]) :: ParsedRow(r)
    ensures forall i | i in RowDetails(results[..n]) :: ParsedIssue(i)
  {
    GoodPrefix(results, n);
    RowDetailsFacts(results[..n]);
    ValidRowsFacts(results[..n]);
  }

  lemma ReleaseFacts(all: seq<Issue>, maximum: nat, mark: nat)
    requires maximum >= 1 && mark <= |all| && IssuesUnique(all)
             && forall i | i in all :: ParsedIssue(i) && ContractCode(i.code)
    ensures IssuesUnique(Release(maximum, all, mark)) && forall i | i in Release(maximum, all, mark) :: ParsedIssue(i)
  {
    StoredUnique(all, maximum);
    if all != [] {
      assert all[|all| - 1] in all;
    }
    assert forall i | i in all[..mark] :: i in all;
  }

  lemma FinalBatchAllowed(results: seq<RowResult>, end: StreamEnd, maximum: nat, mark: nat)
    requires GoodResults(results) && GoodEnd(end) && maximum >= 1 && mark <= |AllIssues(results, end)|
    ensures BatchConstraints(ValidRows(results), Release(maximum, AllIssues(results, end), mark),
                             Progress(results, |AllIssues(results, end)|))
    ensures InRowOrder(ValidRows(results))
    ensures forall r | r in ValidRows(results) :: ParsedRow(r)
    ensures forall i | i in Release(maximum, AllIssues(results, end), mark) :: ParsedIssue(i)
  {
    hide Release, Stored;
    AllIssuesFacts(results, end);
    ReleaseFacts(AllIssues(results, end), maximum, mark);
    ValidRowsFacts(results);
    RowDetailsFacts(results);
  }

  datatype StageOutcome = Lost | Completed(progress: Counts, rejected: bool)

  lemma DrainedParsed(all: seq<Issue>, maximum: nat, stored: seq<Issue>, drained: seq<Issue>)
    requires (forall i | i in all :: ParsedIssue(i)) && stored + drained == IssueCollection.Details(all, maximum)
    ensures forall i | i in drained :: ParsedIssue(i)
  {
    forall i | i in drained ensures ParsedIssue(i) {
      assert i in stored + drained && i in all;
    }
  }

  lemma StagedParsed(all: seq<StagedRow>, stored: seq<StagedRow>, pending: seq<StagedRow>)
    requires (forall r | r in all :: ParsedRow(r)) && stored + pending == all
    ensures forall r | r in pending :: ParsedRow(r)
  {
    assert forall r | r in pending :: r in all;
  }

  lemma ReleasedParsed(released: seq<Issue>, stored: seq<Issue>, persisted: seq<Issue>)
    requires (forall i | i in released :: ParsedIssue(i)) && stored + persisted == released
    ensures forall i | i in persisted :: ParsedIssue(i)
  {
    assert forall i | i in persisted :: i in released;
  }

  lemma NothingDropped(counted: seq<Issue>, maximum: nat, mark: nat)
    requires mark <= |counted|
    ensures |counted| <= DetailLimit(maximum) ==> Release(maximum, counted, mark) == counted
  {
  }

  /** The file-level issue, if any, is counted last. */
  method AddFileIssue(collector: IssueCollector, end: StreamEnd)
    requires collector.Valid() && forall i | i in collector.counted :: i.row.Some?
    modifies collector
    ensures collector.Valid() && collector.drained == old(collector.drained) && collector.mark == old(collector.mark)
    ensures collector.counted == old(collector.counted) + FileIssues(end)
  {
    match end
    case Finished =>
    case FileError(code) =>
      CountedApart(collector.counted, collector.mark, [], Issue(None, WholeFile, code, ContractPhase));
      collector.Add(Issue(None, WholeFile, code, ContractPhase));
    case Undecodable =>
      CountedApart(collector.counted, collector.mark, [], Issue(None, WholeFile, FileEncodingInvalid, ContractPhase));
      collector.Add(Issue(None, WholeFile, FileEncodingInvalid, ContractPhase));
  }

  lemma EmptyPrefix(results: seq<RowResult>)
    ensures ValidRows(results[..0]) == [] && RowDetails(results[..0]) == [] && InvalidRows(results[..0]) == 0
  {
  }

  lemma SomeRows(results: seq<RowResult>)
    requires GoodResults(results)
    ensures forall i | i in RowDetails(results) :: i.row.Some?
  {
    RowDetailsFacts(results);
  }

  /** The attempt was claimed under `token`. */
  predicate OwnAttempt(db: Db, k: AttemptKey, token: Token) {
    k in db.attempts && db.attempts[k].token == token
  }

  predicate RowsLeft(db: Db, d: Db, k: AttemptKey) {
    && k in db.staged && k in d.staged && d.staged[k] == db.staged[k]
    && k in db.issues && k in d.issues && d.issues[k] == db.issues[k]
  }

  /** Other processes do not write the rows and issues of the attempt. */
  ghost predicate LeavesAttempt(others: Others, k: AttemptKey, token: Token) {
    forall d: Db | Inv(d) && OwnAttempt(d, k, token) :: RowsLeft(d, others(d), k)
  }

  /** The worker's claim on the attempt is live at `now`. */
  predicate OwnsClaim(db: Db, k: AttemptKey, token: Token, now: Time) {
    k.job in db.jobs && HoldsLease(db, k.job, token, now) && k == Newest(db, k.job)
  }

  /** Nor do they expire or finish a claim that is live at `now`. */
  ghost predicate LeavesClaim(others: Others, k: AttemptKey, token: Token, now: Time) {
    forall d: Db | Inv(d) && OwnsClaim(d, k, token, now) ::
      k.job in others(d).jobs && others(d).jobs[k.job] == d.jobs[k.job]
  }

  /**
    What other processes do before each batch of a worker that claimed the attempt
    under `token`. `OtherProcesses` shows that every run of the system in which
    nobody else presents the token is such an environment.
   */
  ghost predicate Environment(others: nat -> Others, k: AttemptKey, token: Token) {
    forall b: nat :: Legal(others(b)) && LeavesAttempt(others(b), k, token)
  }

  /** They leave the claim alone at every reading of the worker's clock. */
  ghost predicate Unhindered(others: nat -> Others, k: AttemptKey, token: Token, clock: nat -> Time) {
    forall b: nat :: LeavesClaim(others(b), k, token, clock(b))
  }

  lemma AtTick(others: nat -> Others, k: AttemptKey, token: Token, clock: nat -> Time, b: nat)
    ensures Environment(others, k, token) ==> Legal(others(b)) && LeavesAttempt(others(b), k, token)
    ensures Unhindered(others, k, token, clock) ==> LeavesClaim(others(b), k, token, clock(b))
  {
    hide Legal, LeavesAttempt, LeavesClaim;
  }

  /** Each batch comes before the lease renewed by the previous one runs out. */
  ghost predicate InTime(clock: nat -> Time) {
    forall b: nat :: clock(b + 1) < clock(b) + DEFAULT_LEASE
  }

  lemma OwnStays(start: Db, d: Db, k: AttemptKey, token: Token)
    requires Evolves(start, d) && OwnAttempt(start, k, token)
    ensures OwnAttempt(d, k, token)
  {
    hide FactsGrow, UsedGrow, UsedTokens;
    assert JobEvolves(start, d, k.job);
    assert AttemptEvolves(start, d, k);
  }

  lemma OthersLeave(others: Others, k: AttemptKey, start: Db, d: Db, token: Token, now: Time)
    requires Legal(others) && LeavesAttempt(others, k, token) && Inv(d) && Evolves(start, d)
             && OwnAttempt(start, k, token)
    ensures Inv(others(d)) && Evolves(start, others(d)) && RowsLeft(d, others(d), k)
    ensures LeavesClaim(others, k, token, now) && OwnsClaim(d, k, token, now) ==> OwnsClaim(others(d), k, token, now)
  {
    hide Inv, Evolves, Legal;
    LegalStep(start, d, others);
    OwnStays(start, d, k, token);
  }

  /** One batch of the loop: others may run first. */
  method Flush(q: ImportQueue, k: AttemptKey, token: Token, rows: seq<StagedRow>, found: seq<Issue>, progress: Counts,
               now: Time, others: Others, ghost start: Db)
    returns (live: bool)
    requires Inv(q.Contents()) && Evolves(start, q.Contents()) && k in q.staged && k in q.issues
    requires Legal(others) && LeavesAttempt(others, k, token) && OwnAttempt(start, k, token)
    requires BatchConstraints(q.staged[k] + rows, q.issues[k] + found, progress) && InRowOrder(q.staged[k] + rows)
    requires (forall r | r in rows :: ParsedRow(r)) && (forall i | i in found :: ParsedIssue(i))
             && progress.inserted == 0 && progress.reused == 0
    modifies q
    ensures Inv(q.Contents()) && Evolves(start, q.Contents()) && k in q.staged && k in q.issues
    ensures live ==>
              && q.staged[k] == old(q.staged[k]) + rows && q.issues[k] == old(q.issues[k]) + found
              && k.job in q.jobs && q.jobs[k.job].counts == progress
              && forall later | later < now + DEFAULT_LEASE :: OwnsClaim(q.Contents(), k, token, later)
    ensures !live ==> q.staged[k] == old(q.staged[k])
    ensures LeavesClaim(others, k, token, now) && OwnsClaim(old(q.Contents()), k, token, now) ==> live
  {
    hide Inv, Evolves, BatchConstraints, HoldsLease, ParsedRow, ParsedIssue, InRowOrder, Legal, LeavesAttempt,
         LeavesClaim;
    OthersLeave(others, k, start, q.Contents(), token, now);
    q.Restore(others(q.Contents()));
    ghost var before := q.Contents();
    live := RecordFenced(q, k, token, rows, found, progress, now);
    InvParts(before);
    EvolvesTransitive(start, before, q.Contents());
  }

  /** A full batch: the details retained so far are drained and stored with the pending rows. */
  method FlushBatch(q: ImportQueue, k: AttemptKey, token: Token, ghost results: seq<RowResult>, ghost n: nat,
                    collector: IssueCollector, pendingRows: seq<StagedRow>, progress: Counts, now: Time, others: Others,
                    ghost start: Db)
    returns (live: bool)
    requires Inv(q.Contents()) && Evolves(start, q.Contents()) && k in q.staged && k in q.issues
    requires Legal(others) && LeavesAttempt(others, k, token) && OwnAttempt(start, k, token)
    requires GoodResults(results) && n <= |results| && progress == Progress(results[..n], |RowDetails(results[..n])|)
    requires collector.Valid() && collector.counted == RowDetails(results[..n])
    requires q.staged[k] + pendingRows == ValidRows(results[..n]) && q.issues[k] == collector.drained
    modifies q, collector
    ensures Inv(q.Contents()) && Evolves(start, q.Contents()) && k in q.staged && k in q.issues
    ensures collector.Valid() && collector.counted == old(collector.counted)
    ensures live ==>
              && q.staged[k] == ValidRows(results[..n]) && q.issues[k] == collector.drained
              && forall later | later < now + DEFAULT_LEASE :: OwnsClaim(q.Contents(), k, token, later)
    ensures !live ==> q.staged[k] == old(q.staged[k])
    ensures LeavesClaim(others, k, token, now) && OwnsClaim(old(q.Contents()), k, token, now) ==> live
  {
    hide ValidRows, RowDetails, InvalidRows, GoodResults, BatchConstraints, ParsedRow, ParsedIssue,
         IssueCollection.Details, Inv, Evolves, Legal, LeavesAttempt, LeavesClaim, OwnsClaim, InRowOrder;
    BatchAllowed(results, n, collector.maximum);
    var drained := collector.Drain();
    DrainedParsed(RowDetails(results[..n]), collector.maximum, q.issues[k], drained);
    StagedParsed(ValidRows(results[..n]), q.staged[k], pendingRows);
    live := Flush(q, k, token, pendingRows, drained, progress, now, others, start);
  }

  /** The last batch, with the summary if details were dropped. */
  method FlushLast(q: ImportQueue, k: AttemptKey, token: Token, ghost results: seq<RowResult>, ghost end: StreamEnd,
                   collector: IssueCollector, pendingRows: seq<StagedRow>, progress: Counts, now: Time, others: Others,
                   ghost start: Db)
    returns (live: bool)
    requires Inv(q.Contents()) && Evolves(start, q.Contents()) && k in q.staged && k in q.issues
    requires Legal(others) && LeavesAttempt(others, k, token) && OwnAttempt(start, k, token)
    requires GoodResults(results) && GoodEnd(end) && progress == Progress(results, |AllIssues(results, end)|)
    requires collector.Valid() && collector.maximum >= 1 && collector.counted == AllIssues(results, end)
    requires q.staged[k] + pendingRows == ValidRows(results) && q.issues[k] == collector.drained
    modifies q, collector
    ensures Inv(q.Contents()) && Evolves(start, q.Contents()) && k in q.staged && k in q.issues
    ensures live ==>
              && q.staged[k] == ValidRows(results)
              && (collector.maximum >= 2 ==> q.issues[k] == Stored(AllIssues(results, end), collector.maximum))
              && (|AllIssues(results, end)| <= DetailLimit(collector.maximum)
                  ==> q.issues[k] == AllIssues(results, end))
              && k.job in q.jobs && q.jobs[k.job].counts == progress
              && forall later | later < now + DEFAULT_LEASE :: OwnsClaim(q.Contents(), k, token, later)
    ensures !live ==> q.staged[k] == old(q.staged[k])
    ensures LeavesClaim(others, k, token, now) && OwnsClaim(old(q.Contents()), k, token, now) ==> live
  {
    hide ValidRows, AllIssues, InvalidRows, GoodResults, GoodEnd, BatchConstraints, ParsedRow, ParsedIssue,
         IssueCollection.Details, Release, Stored, Inv, Evolves, Legal, LeavesAttempt, LeavesClaim, OwnsClaim,
         InRowOrder;
    ghost var maximum, mark := collector.maximum, collector.mark;
    collector.TotalIsCounted();
    FinalBatchAllowed(results, end, maximum, mark);
    if maximum >= 2 {
      ReleaseIsStored(maximum, collector.counted, mark);
    }
    NothingDropped(collector.counted, maximum, mark);
    var persisted := collector.Persisted();
    ReleasedParsed(Release(maximum, AllIssues(results, end), mark), q.issues[k], persisted);
    StagedParsed(ValidRows(results), q.staged[k], pendingRows);
    live := Flush(q, k, token, pendingRows, persisted, progress, now, others, start);
  }

  /** After the last row: the error of the file is counted, and the last batch decides. */
  method StageEnd(ghost results: seq<RowResult>, end: StreamEnd, totalRows: nat, validRows: nat, invalidRows: nat,
                  ghost maximum: nat, collector: IssueCollector, pendingRows: seq<StagedRow>, q: ImportQueue,
                  k: AttemptKey, token: Token, now: Time, others: Others, ghost start: Db)
    returns (outcome: StageOutcome)
    requires Inv(q.Contents()) && Evolves(start, q.Contents()) && k in q.staged && k in q.issues
    requires Legal(others) && LeavesAttempt(others, k, token) && OwnAttempt(start, k, token)
    requires GoodResults(results) && GoodEnd(end)
    requires totalRows == |results| && invalidRows == InvalidRows(results) && validRows == totalRows - invalidRows
    requires collector.Valid() && collector.maximum == maximum >= 1 && collector.counted == RowDetails(results)
    requires q.staged[k] + pendingRows == ValidRows(results) && q.issues[k] == collector.drained
    modifies q, collector
    ensures Inv(q.Contents()) && Evolves(start, q.Contents()) && k in q.staged && k in q.issues
    ensures outcome.Completed? ==>
              && q.staged[k] == ValidRows(results)
              && (maximum >= 2 ==> q.issues[k] == Stored(AllIssues(results, end), maximum))
              && (|AllIssues(results, end)| <= DetailLimit(maximum) ==> q.issues[k] == AllIssues(results, end))
              && outcome.progress == Progress(results, |AllIssues(results, end)|)
              && k.job in q.jobs && q.jobs[k.job].counts == outcome.progress
              && (outcome.rejected <==> FileRejected(results, end))
              && forall later | later < now + DEFAULT_LEASE :: OwnsClaim(q.Contents(), k, token, later)
    ensures outcome.Lost? ==> q.staged[k] == old(q.staged[k])
    ensures LeavesClaim(others, k, token, now) && OwnsClaim(old(q.Contents()), k, token, now) ==> outcome.Completed?
  {
    hide ValidRows, RowDetails, InvalidRows, GoodResults, GoodEnd, FileIssues, Stored, Inv, Evolves, Legal,
         LeavesAttempt, LeavesClaim, OwnsClaim, DetailLimit, Progress, AllIssues, FileRejected, IssueCollection.Details;
    SomeRows(results);
    AddFileIssue(collector, end);
    collector.TotalIsCounted();
    var issueCount := collector.total;
    var rejected := !end.Finished? || invalidRows > 0;
    var progress := Counts(totalRows, validRows, invalidRows, issueCount, 0, 0);
    FileIs(results, end);
    ProgressIs(results, issueCount);
    var live := FlushLast(q, k, token, results, end, collector, pendingRows, progress, now, others, start);
    outcome := if live then Completed(progress, rejected) else Lost;
  }

  /**
    `_stage_csv`, with other processes running before each batch. When the claim
    stays live, what is staged, stored, counted and decided does not depend on
    `batch`; when it is lost, what was staged is a prefix of that. A worker whose
    batches follow each other within the lease, and whose claim nobody touches,
    still has it at the next tick of its clock.
   */
  method StageCsv(results: seq<RowResult>, end: StreamEnd, batch: nat, maximum: nat, q: ImportQueue, k: AttemptKey,
                  token: Token, clock: nat -> Time, others: nat -> Others) returns (outcome: StageOutcome, batches: nat)
    requires batch >= 1 && maximum >= 1 && GoodResults(results) && GoodEnd(end)
    requires Inv(q.Contents()) && k in q.staged && k in q.issues && q.staged[k] == [] && q.issues[k] == []
    requires Environment(others, k, token) && OwnAttempt(q.Contents(), k, token)
    modifies q
    ensures Inv(q.Contents()) && Evolves(old(q.Contents()), q.Contents()) && k in q.staged && k in q.issues
    ensures outcome.Completed? ==>
              && q.staged[k] == ValidRows(results)
              && (maximum >= 2 ==> q.issues[k] == Stored(AllIssues(results, end), maximum))
              && (|AllIssues(results, end)| <= DetailLimit(maximum) ==> q.issues[k] == AllIssues(results, end))
              && outcome.progress == Progress(results, |AllIssues(results, end)|)
              && k.job in q.jobs && q.jobs[k.job].counts == outcome.progress
              && (outcome.rejected <==> FileRejected(results, end))
    ensures outcome.Lost? ==> q.staged[k] <= ValidRows(results)
    ensures OwnsClaim(old(q.Contents()), k, token, clock(0)) && Unhindered(others, k, token, clock) && InTime(clock) ==>
              outcome.Completed? && OwnsClaim(q.Contents(), k, token, clock(batches))
  {
    hide ValidRows, RowDetails, InvalidRows, GoodResults, GoodEnd, ToStaged, Distinct, FileIssues, Stored, GoodResult,
         Inv, Evolves, Legal, LeavesAttempt, LeavesClaim, OwnsClaim, InTime, Environment, Unhindered, OwnAttempt,
         IssueCollector.Valid, DetailLimit, Progress, AllIssues, FileRejected, IssueCollection.Details;
    ghost var start := q.Contents();
    ghost var undisturbed := OwnsClaim(start, k, token, clock(0)) && Unhindered(others, k, token, clock)
      && InTime(clock);
    EvolvesReflexive(start);
    var collector := new IssueCollector(maximum);
    EmptyPrefix(results);
    var totalRows, validRows, invalidRows, issueCount := 0, 0, 0, 0;
    batches := 0;
    var pendingRows: seq<StagedRow> := [];
    for n := 0 to |results|
      invariant Inv(q.Contents()) && Evolves(start, q.Contents()) && k in q.staged && k in q.issues
      invariant collector.Valid() && collector.maximum == maximum && collector.counted == RowDetails(results[..n])
      invariant q.staged[k] + pendingRows == ValidRows(results[..n]) && q.staged[k] <= ValidRows(results)
      invariant q.issues[k] == collector.drained
      invariant totalRows == n && invalidRows == InvalidRows(results[..n]) && validRows == n - invalidRows
      invariant issueCount == |collector.counted|
      invariant undisturbed ==> OwnsClaim(q.Contents(), k, token, clock(batches))
      invariant fresh(collector)
    {
      var result := results[n];
      PrefixStep(results, n);
      EarlierRows(results, n);
      totalRows := totalRows + 1;
      if result.IsValid() {
        validRows := validRows + 1;
        pendingRows := pendingRows + [ToStaged(result.rowNumber, result.row.value)];
      } else {
        invalidRows := invalidRows + 1;
        AddRowIssues(collector, result);
        collector.TotalIsCounted();
        issueCount := collector.total;
      }
      assert collector.counted == RowDetails(results[..n + 1]);
      assert q.staged[k] + pendingRows == ValidRows(results[..n + 1]);
      if totalRows % batch == 0 {
        assert |results[..n + 1]| == n + 1;
        ProgressIs(results[..n + 1], issueCount);
        var progress := Counts(totalRows, validRows, invalidRows, issueCount, 0, 0);
        AtTick(others, k, token, clock, batches);
        var live :=
          FlushBatch(q, k, token, results, n + 1, collector, pendingRows, progress, clock(batches), others(batches),
                     start);
        if !live {
          return Lost, batches;
        }
        ValidRowsPrefix(results, n + 1);
        NextInTime(clock, batches);
        pendingRows := [];
        batches := batches + 1;
      }
    }
    assert results[..|results|] == results;
    AtTick(others, k, token, clock, batches);
    outcome :=
      StageEnd(results, end, totalRows, validRows, invalidRows, maximum, collector, pendingRows, q, k, token,
               clock(batches), others(batches), start);
    NextInTime(clock, batches);
    batches := batches + 1;
  }

  lemma ProgressIs(results: seq<RowResult>, issueCount: nat)
    ensures Progress(results, issueCount)
            == Counts(|results|, |results| - InvalidRows(results), InvalidRows(results), issueCount, 0, 0)
  {
  }

  lemma FileIs(results: seq<RowResult>, end: StreamEnd)
    ensures AllIssues(results, end) == RowDetails(results) + FileIssues(end)
    ensures FileRejected(results, end) <==> !end.Finished? || InvalidRows(results) > 0
  {
  }

  lemma NextInTime(clock: nat -> Time, b: nat)
    ensures InTime(clock) ==> clock(b + 1) < clock(b) + DEFAULT_LEASE
  {
  }

  // ----- What is stored and rejected -----

  /** Which issues a file has: those of its invalid rows, and at its end one for a file-level error. */
  lemma {:induction false} RowDetailsMean(results: seq<RowResult>, i: Issue)
    requires GoodResults(results)
    ensures i in RowDetails(results) <==> exists r | r in results :: !r.IsValid() && i in r.issues
  {
    hide GoodResult;
    if results != [] {
      var n := |results| - 1;
      assert results == results[..n] + [results[n]];
      GoodPrefix(results, n);
      RowDetailsMean(results[..n], i);
      IssuesOfRow(results[n]);
      DistinctMembers(results[n].issues, i);
    }
  }

  lemma {:induction false} DistinctMembers(issues: seq<Issue>, i: Issue)
    requires forall a | a in issues :: a.phase == ContractPhase
    ensures i in Distinct(issues) <==> i in issues
  {
    hide Counted, Distinct;
    if issues == [] {
      NoneDistinct();
    } else {
      var n := |issues| - 1;
      assert issues == issues[..n] + [issues[n]];
      DistinctMembers(issues[..n], i);
      DistinctMembers(issues[..n], issues[n]);
      DistinctNext(issues);
      CountedMembers(Distinct(issues[..n]), issues[n], i);
      DistinctFacts(issues[..n]);
    }
  }

  lemma IssuesOfRow(r: RowResult)
    requires GoodResult(r)
    ensures forall a | a in r.issues :: a.phase == ContractPhase
  {
  }

  lemma CountedMembers(before: seq<Issue>, issue: Issue, i: Issue)
    ensures i in before ==> i in Counted(before, 0, issue)
    ensures i in Counted(before, 0, issue) ==> i in before || i == issue
    ensures (forall a | a in before :: a.phase == issue.phase) ==> issue in Counted(before, 0, issue)
  {
    assert before[0..] == before;
    if IdentityOf(issue) in Identities(before) {
      var a :| a in before && IdentityOf(a) == IdentityOf(issue);
      assert a.phase == issue.phase ==> a == issue;
    }
  }

  /** The issue of a file-level error carries its code and belongs to no row. */
  lemma FileLevelIssue(results: seq<RowResult>, end: StreamEnd)
    ensures AllIssues(results, end)
            == match end
               case Finished => RowDetails(results)
               case FileError(code) => RowDetails(results) + [Issue(None, WholeFile, code, ContractPhase)]
               case Undecodable => RowDetails(results) + [Issue(None, WholeFile, FileEncodingInvalid, ContractPhase)]
  {
  }

  /** A file is rejected exactly when it did not end normally or has an invalid row. */
  lemma {:induction false} RejectedMeans(results: seq<RowResult>, end: StreamEnd)
    ensures FileRejected(results, end) <==> end != Finished || exists r | r in results :: !r.IsValid()
  {
    if results != [] {
      var n := |results| - 1;
      assert results == results[..n] + [results[n]];
      RejectedMeans(results[..n], end);
    }
  }

  // ----- What the counters mean -----

  /** The counters of a completed staging are accepted for every status the pipeline gives them. */
  lemma StagedCountersAccepted(results: seq<RowResult>, end: StreamEnd)
    requires GoodResults(results) && GoodEnd(end)
    ensures var c := Progress(results, |AllIssues(results, end)|);
            && ValidFor(c, Failed)
            && (FileRejected(results, end) ==> ValidFor(c, Rejected))
            && (!FileRejected(results, end) ==> c.invalid == 0 && c.issues == 0 && AllIssues(results, end) == [])
  {
    AllIssuesFacts(results, end);
    RowDetailsFacts(results);
    if !FileRejected(results, end) {
      NoInvalidNoDetails(results);
    }
  }

  lemma {:induction false} NoInvalidNoDetails(results: seq<RowResult>)
    requires InvalidRows(results) == 0
    ensures RowDetails(results) == []
  {
    if results != [] {
      NoInvalidNoDetails(results[..|results| - 1]);
    }
  }
}
