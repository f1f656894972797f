/** What a publication decides, what repeating it does, and which rejections an operator may retry. */
module PublicationOutcomes {
  import opened Results
  import opened Tables
  import opened QueueSpec
  import opened QueueInvariant
  import opened QueueSafety
  import opened IssueCollection
  import opened ReferenceValidation
  import opened Publication
  import opened PublishTransaction

  // ----- When a file is published -----

  predicate RowAccepted(r: StagedRow, source: Source, m: Master, facts: Facts) {
    RowIssues(r, source, m, facts) == []
  }

  lemma {:induction false} AllAccepted(rows: seq<StagedRow>, source: Source, m: Master, facts: Facts)
    requires forall i | 0 <= i < |rows| :: RowAccepted(rows[i], source, m, facts)
    ensures AllRowIssues(rows, source, m, facts) == []
  {
    hide RowIssues;
    if rows != [] {
      assert RowAccepted(rows[|rows| - 1], source, m, facts);
      AllAccepted(rows[..|rows| - 1], source, m, facts);
    }
  }

  /**
    A row is accepted exactly when its date is in the calendar, its codes resolve, its
    territory is a leaf to which its hospital and its representative are assigned on
    that date, and a fact under its id, if there is one, names the same date, product,
    territory, hospital and representative with the same measures and currency.
   */
  lemma AcceptedMeans(r: StagedRow, source: Source, m: Master, facts: Facts)
    ensures RowAccepted(r, source, m, facts) <==>
              && r.date in m.calendar && r.product in m.products && r.territory in m.territories
              && m.territories[r.territory].isLeaf
              && (|r.hospital| > 0 ==>
                    && r.hospital in m.hospitals
                    && exists a | a in m.hospitalAssignments ::
                         && a.identity == m.hospitals[r.hospital] && a.territory == m.territories[r.territory].id
                         && a.from <= r.date && (a.to.None? || r.date <= a.to.value))
              && (|r.representative| > 0 ==>
                    && r.representative in m.representatives
                    && exists a | a in m.representativeAssignments ::
                         && a.identity == m.representatives[r.representative]
                         && a.territory == m.territories[r.territory].id
                         && a.from <= r.date && (a.to.None? || r.date <= a.to.value))
              && (FactKey(source, r.recordId) in facts ==>
                    var fact := facts[FactKey(source, r.recordId)];
                    && fact.links.date == r.date && fact.links.product == m.products[r.product]
                    && fact.links.territory == m.territories[r.territory].id
                    && fact.links.hospital == (if |r.hospital| == 0 then None else Some(m.hospitals[r.hospital]))
                    && fact.links.representative
                       == (if |r.representative| == 0 then None else Some(m.representatives[r.representative]))
                    && fact.quantity == r.quantity && fact.revenue == r.revenue && fact.currency == r.currency)
  {
    hide RowIssues;
    AcceptanceMeans(r, source, m, facts);
  }

  /** All or nothing: one unacceptable row rejects the file, and nothing else does. */
  lemma PublishesExactly(rows: seq<StagedRow>, source: Source, m: Master, facts: Facts, maximum: nat)
    ensures Planned(rows, source, m, facts, maximum).PublishPlan?
            <==> forall i | 0 <= i < |rows| :: RowAccepted(rows[i], source, m, facts)
  {
    hide RowIssues, AllRowIssues;
    if AllRowIssues(rows, source, m, facts) == [] {
      forall i | 0 <= i < |rows| ensures RowAccepted(rows[i], source, m, facts) {
        CleanRows(rows, source, m, facts, i);
      }
    } else if forall i | 0 <= i < |rows| :: RowAccepted(rows[i], source, m, facts) {
      AllAccepted(rows, source, m, facts);
    }
  }

  // ----- Repeating a publication -----

  lemma {:induction false} KnownInsertNothing(rows: seq<StagedRow>, source: Source, facts: Facts)
    requires AllResolved(rows) && forall r | r in rows :: Key(source, r) in facts
    ensures Inserted(rows, source, facts) == map[] && InsertedCount(rows, source, facts) == 0
  {
    if rows != [] {
      KnownInsertNothing(rows[..|rows| - 1], source, facts);
    }
  }

  lemma StillAccepted(rows: seq<StagedRow>, i: nat, source: Source, m: Master, facts: Facts, facts': Facts)
    requires RowsUnique(rows) && InRowOrder(rows) && i < |rows| && AllRowIssues(rows, source, m, facts) == []
    requires FactsGrow(facts + Inserted(AcceptedRows(rows, source, m, facts), source, facts), facts')
    ensures RowAccepted(rows[i], source, m, facts') && Key(source, rows[i]) in facts'
  {
    hide AllRowIssues, RowIssues, Inserted, Resolves, Acceptable, FactOf, InsertedCount, InRowOrder, RowsUnique,
         NamesReferences;
    var accepted := AcceptedRows(rows, source, m, facts);
    AcceptedClean(rows, source, m, facts);
    InsertedSize(accepted, source, facts);
    InsertedFacts(accepted, source, facts);
    CleanRows(rows, source, m, facts, i);
    AcceptanceMeans(rows[i], source, m, facts);
    AcceptanceMeans(rows[i], source, m, facts');
    assert accepted[i] == ValidatedRow(rows[i], source, m, facts) && accepted[i] in accepted;
    FactOfNamed(accepted[i], rows[i], source, m, facts);
    StaysAcceptable(rows[i], source, m, facts, facts');
  }

  lemma StaysAcceptable(r: StagedRow, source: Source, m: Master, facts: Facts, facts': Facts)
    requires Acceptable(r, source, m, facts) && FactKey(source, r.recordId) in facts'
    requires FactIs(facts'[FactKey(source, r.recordId)], r, m)
    ensures Acceptable(r, source, m, facts')
  {
    hide ReferencesResolve, FactIs;
  }

  /**
    Publishing the same rows again with unchanged master data inserts nothing and
    reuses every fact, no matter what other facts were added in between.
   */
  lemma RepublishReuses(rows: seq<StagedRow>, source: Source, m: Master, facts: Facts, facts': Facts, maximum: nat)
    requires RowsUnique(rows) && InRowOrder(rows) && Planned(rows, source, m, facts, maximum).PublishPlan?
    requires FactsGrow(facts + Planned(rows, source, m, facts, maximum).inserted, facts')
    ensures var again := Planned(rows, source, m, facts', maximum);
            && again.PublishPlan? && again.inserted == map[] && again.counts == Counts(|rows|, |rows|, 0, 0, 0, |rows|)
            && forall r | r in again.rows :: r.outcome == RowReused
  {
    hide AllRowIssues, RowIssues, Inserted, InsertedCount, Resolves, RowAccepted, FactOf, FactsGrow, InRowOrder,
         RowsUnique, ValidatedRow;
    forall i | 0 <= i < |rows| ensures RowAccepted(rows[i], source, m, facts') && Key(source, rows[i]) in facts' {
      StillAccepted(rows, i, source, m, facts, facts');
    }
    AllAccepted(rows, source, m, facts');
    var accepted := AcceptedRows(rows, source, m, facts');
    assert forall i | 0 <= i < |rows| :: Key(source, accepted[i]) == Key(source, rows[i]);
    KnownInsertNothing(accepted, source, facts');
  }

  // ----- Retrying a rejection -----

  lemma NoConflictYet(db: Db, j: ImportId)
    requires Inv(db) && j in db.jobs && db.jobs[j].status == Processing
    ensures !HasConflictIssue(db, j)
  {
    hide TokensUnique, ActiveUnique, JobConstraints, Coupled, AttemptMatchesJob, RowsUnique, InRowOrder, IssuesUnique,
         StagedRowConstraints, RowsLinked;
    JobFacts(db, j);
    forall k | k in db.issues && k.job == j ensures !(exists i | i in db.issues[k] :: i.code == SourceRecordConflict) {
      assert k in db.attempts && k == AttemptKey(j, k.number);
      AttemptFacts(db, j, k.number);
    }
  }

  predicate ShowsConflict(issues: seq<Issue>) {
    exists i | i in issues :: i.code == SourceRecordConflict
  }

  lemma StoredConflict(all: seq<Issue>, maximum: nat)
    requires maximum >= 2
    ensures ShowsConflict(Release(maximum, all, |all|)) <==> ShowsConflict(IssueCollection.Details(all, maximum))
  {
    ReleaseIsStored(maximum, all, |all|);
    var details, stored := IssueCollection.Details(all, maximum), Stored(all, maximum);
    if ShowsConflict(stored) {
      var i :| i in stored && i.code == SourceRecordConflict;
      assert i in details;
    }
    if ShowsConflict(details) {
      var i :| i in details && i.code == SourceRecordConflict;
      assert i in stored;
    }
  }

  lemma ConflictAfter(db: Db, d: Db, k: AttemptKey, issues: seq<Issue>)
    requires !HasConflictIssue(db, k.job) && k in db.issues && d.issues == db.issues[k := db.issues[k] + issues]
    ensures HasConflictIssue(d, k.job) <==> ShowsConflict(issues)
  {
    if ShowsConflict(issues) {
      var i :| i in issues && i.code == SourceRecordConflict;
      assert i in d.issues[k];
    }
    assert forall l, i | l in db.issues && l.job == k.job && i in db.issues[l] :: i.code != SourceRecordConflict;
    if HasConflictIssue(d, k.job) {
      var l :| l in d.issues && l.job == k.job && exists i | i in d.issues[l] :: i.code == SourceRecordConflict;
      assert l == k;
      var i :| i in d.issues[k] && i.code == SourceRecordConflict;
      assert i in issues;
    }
  }

  lemma RequeueOfRejected(d: Db, j: ImportId, additional: int, now: Time)
    requires j in d.jobs && j in d.imports && d.imports[j].status == Received && d.imports[j].format == Csv
    requires d.jobs[j].status == Rejected && d.jobs[j].errorCode != ConflictCode
             && d.jobs[j].attemptCount <= d.jobs[j].maxAttempts
    ensures Requeue(d, j, additional, now).Ok? <==> MayAdd(d.jobs[j], additional) && !HasConflictIssue(d, j)
  {
  }

  predicate MayAdd(job: Job, additional: int) {
    additional >= 1 && job.maxAttempts + additional <= MAX_SUPPORTED_ATTEMPTS
  }

  /** The guard after a rejecting plan, whichever facts and master data it was made from. */
  lemma RejectedGuard(db: Db, k: AttemptKey, rows: seq<StagedRow>, source: Source, m: Master, facts: Facts,
                      maximum: nat, finished: Time, additional: int, now: Time)
    requires Inv(db) && maximum >= 2 && k.job in db.jobs && db.jobs[k.job].status == Processing
             && k == Newest(db, k.job)
    requires k in db.attempts && k in db.staged && k in db.issues
    requires Planned(rows, source, m, facts, maximum).RejectPlan?
    requires ApplyPlan(db, k, Planned(rows, source, m, facts, maximum), finished).Ok?
    ensures var d := ApplyPlan(db, k, Planned(rows, source, m, facts, maximum), finished).value;
            Requeue(d, k.job, additional, now).Ok?
            <==> MayAdd(db.jobs[k.job], additional)
                 && !ShowsConflict(IssueCollection.Details(AllRowIssues(rows, source, m, facts), maximum))
  {
    hide Inv, Requeue, HasConflictIssue, AllRowIssues, InvalidCount, Release, ValidFor, IssuesUnique, ValidatedRows,
         JobConstraints, ShowsConflict, Coupled, AttemptMatchesJob, AttemptData, IssueCollection.Details,
         FinishedAttempt;
    var d, all :=
      ApplyPlan(db, k, Planned(rows, source, m, facts, maximum), finished).value, AllRowIssues(rows, source, m, facts);
    NewestFacts(db, k.job);
    AttemptsWithinLimit(db.jobs[k.job], db.imports[k.job]);
    NoConflictYet(db, k.job);
    ConflictAfter(db, d, k, Release(maximum, all, |all|));
    StoredConflict(all, maximum);
    RequeueOfRejected(d, k.job, additional, now);
  }

  /**
    After a rejected publication an operator may requeue the job exactly when no
    conflict is among the details that were kept, within the limit on attempts: a
    conflict dropped by the issue limit is not seen.
   */
  lemma RequeueGuard(db: Db, k: AttemptKey, token: Token, m: Master, maximum: nat, started: Time, finished: Time,
                     additional: int, now: Time)
    requires Inv(db) && maximum >= 2 && PublishOnce(db, k, token, m, maximum, started, finished).Ok?
    requires k in db.issues && k in db.staged && k.job in db.imports && k.job in db.jobs
             && PlanOf(db, k, m, maximum).RejectPlan?
    ensures var d := PublishOnce(db, k, token, m, maximum, started, finished).value;
            var all := AllRowIssues(db.staged[k], db.imports[k.job].source, m, db.facts);
            Requeue(d, k.job, additional, now).Ok?
            <==> MayAdd(db.jobs[k.job], additional) && !ShowsConflict(IssueCollection.Details(all, maximum))
  {
    hide Inv, PublishOnce, Requeue, AllRowIssues, ApplyPlan, ShowsConflict, PlanFits, Planned, IssueCollection.Details;
    PublishOnceSafe(db, k, token, m, maximum, started, finished);
    RejectedGuard(db, k, db.staged[k], db.imports[k.job].source, m, db.facts, maximum, finished, additional, now);
  }

  lemma AttemptsWithinLimit(job: Job, i: Intake)
    requires JobConstraints(job) && Coupled(i, job) && job.status == Processing
    ensures job.attemptCount <= job.maxAttempts && i.status == Received && i.format == Csv
  {
  }

  /** A file whose second row conflicts, while only the first row's issue is kept. */
  lemma TruncatedConflictUnseen()
    ensures var all := AllRowIssues(TruncatedRows(), "s", TruncatedMaster(), TruncatedFacts());
            ShowsConflict(all) && !ShowsConflict(Release(2, all, |all|))
  {
    var rows, m, facts := TruncatedRows(), TruncatedMaster(), TruncatedFacts();
    var first, second := rows[0], rows[1];
    assert RowIssues(first, "s", m, facts) == [Issue(Some(2), ProductColumn, ProductNotFound, MasterDataPhase)];
    assert Resolves(second, m);
    assert RowIssues(second, "s", m, facts) == [ConflictIssue(second)];
    assert rows[..1] == [first] && rows[..1][..0] == [];
    assert AllRowIssues(rows, "s", m, facts)
           == [Issue(Some(2), ProductColumn, ProductNotFound, MasterDataPhase), ConflictIssue(second)];
    var all := AllRowIssues(rows, "s", m, facts);
    assert all[1] == ConflictIssue(second);
    assert Release(2, all, 2) == [all[0], Summary(IdempotencyPhase)];
  }

  /** A row that resolves, after one whose product is unknown. */
  function TruncatedRows(): (rows: seq<StagedRow>)
    ensures |rows| == 2
  {
    [ResolvingRow().(rowNumber := 2, recordId := "a", product := "Q"), ResolvingRow()]
  }

  function ResolvingRow(): StagedRow {
    StagedRow(3, "b", 1, "P", "T", "", "", 1000, 0, "INR", None, Staged, None)
  }

  function TruncatedMaster(): Master {
    Master({1}, map["P" := 7], map["T" := TerritoryRow(3, true)], map[], map[], [], [])
  }

  function TruncatedFacts(): Facts {
    map[FactKey("s", "b") := Fact(Links(1, 7, 3, None, None), 2000, 0, "INR")]
  }
}
