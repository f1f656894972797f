/** The publication transaction on the whole database, what it keeps, and what its outcome means. */
module PublishTransaction {
  import opened Results
  import opened Text
  import opened Tables
  import opened QueueSpec
  import opened QueueInvariant
  import opened QueueSafety
  import opened IssueCollection
  import opened ReferenceValidation
  import opened Publication

  // ----- The transaction -----

  /** The plan applied to the attempt's rows; publication requires the issue and counter constraints to hold. */
  function ApplyPlan(db: Db, k: AttemptKey, plan: Plan, finished: Time): Commit
    requires k.job in db.jobs && k in db.attempts && k in db.staged && k in db.issues
  {
    match plan
    case RejectPlan(rows, issues, counts) =>
      if !IssuesUnique(db.issues[k] + issues) then Err(ConstraintViolated)
      else if !ValidFor(counts, Rejected) then Err(InvalidValue)
      else Ok(WithClaim(db, k, FinishedJob(db.jobs[k.job], Rejected, counts, ValidationRejectedCode, finished),
                        FinishedAttempt(db.attempts[k].(phase := Validate), Rejected, counts, ValidationRejectedCode,
                                        finished))
              .(staged := db.staged[k := rows], issues := db.issues[k := db.issues[k] + issues]))
    case PublishPlan(rows, inserted, counts) =>
      if !ValidFor(counts, Published) then Err(InvalidValue)
      else Ok(WithClaim(db, k, FinishedJob(db.jobs[k.job], Published, counts, NoErrorCode, finished),
                        FinishedAttempt(db.attempts[k].(phase := Publish), Published, counts, NoErrorCode, finished))
              .(staged := db.staged[k := rows], facts := db.facts + inserted))
  }

  function PlanOf(db: Db, k: AttemptKey, m: Master, maximum: nat): Plan
    requires k.job in db.imports && k in db.staged
  {
    Planned(db.staged[k], db.imports[k.job].source, m, db.facts, maximum)
  }

  /** `_publish_once`, fenced by the lease at `started` and finished by the wall clock at `finished`. */
  ghost function PublishOnce(db: Db, k: AttemptKey, token: Token, m: Master, maximum: nat, started: Time,
                             finished: Time): Commit {
    var live := LockedLiveClaim(db, k.job, token, started);
    if live.Err? then Err(live.error)
    else if live.value != k || k !in db.staged || k !in db.issues then Err(ClaimLost)
    else if k.job !in db.imports then Err(NotFound)
    else ApplyPlan(db, k, PlanOf(db, k, m, maximum), finished)
  }

  // ----- What the plan depends on -----

  /** Looking up records of `source` gives the same answers. */
  ghost predicate SameSource(facts: Facts, facts': Facts, source: Source) {
    forall id: string ::
      && (FactKey(source, id) in facts <==> FactKey(source, id) in facts')
      && (FactKey(source, id) in facts && FactKey(source, id) in facts'
          ==> facts[FactKey(source, id)] == facts'[FactKey(source, id)])
  }

  predicate SameAnswers(r: StagedRow, source: Source, facts: Facts, facts': Facts) {
    && (Key(source, r) in facts <==> Key(source, r) in facts')
    && (Key(source, r) in facts && Key(source, r) in facts' ==> facts[Key(source, r)] == facts'[Key(source, r)])
  }

  lemma RowLocal(r: StagedRow, source: Source, m: Master, facts: Facts, facts': Facts)
    requires SameAnswers(r, source, facts, facts')
    ensures RowIssues(r, source, m, facts) == RowIssues(r, source, m, facts')
    ensures ValidatedRow(r, source, m, facts) == ValidatedRow(r, source, m, facts')
  {
    hide Resolves, Resolve, FactMatches;
    if Resolves(r, m) {
      ResolvesFacts(r, m);
      SameRecord(r, m);
    }
  }

  lemma SameRecord(r: StagedRow, m: Master)
    requires r.product in m.products && r.territory in m.territories
    ensures Resolve(r, m).recordId == r.recordId && Resolve(r, m).links.Some?
  {
  }

  lemma {:induction false} IssuesLocal(rows: seq<StagedRow>, source: Source, m: Master, facts: Facts, facts': Facts)
    requires forall r | r in rows :: SameAnswers(r, source, facts, facts')
    ensures AllRowIssues(rows, source, m, facts) == AllRowIssues(rows, source, m, facts')
    ensures InvalidCount(rows, source, m, facts) == InvalidCount(rows, source, m, facts')
    ensures ValidatedRows(rows, source, m, facts) == ValidatedRows(rows, source, m, facts')
  {
    hide RowIssues, ValidatedRow, SameAnswers;
    forall i | 0 <= i < |rows|
      ensures RowIssues(rows[i], source, m, facts) == RowIssues(rows[i], source, m, facts')
      ensures ValidatedRow(rows[i], source, m, facts) == ValidatedRow(rows[i], source, m, facts')
    {
      assert rows[i] in rows;
      RowLocal(rows[i], source, m, facts, facts');
    }
    if rows != [] {
      IssuesLocal(rows[..|rows| - 1], source, m, facts, facts');
    }
  }

  /** A plan looks only at the facts of its own source. */
  lemma PlannedLocal(rows: seq<StagedRow>, source: Source, m: Master, facts: Facts, facts': Facts, maximum: nat)
    requires SameSource(facts, facts', source)
    ensures Planned(rows, source, m, facts, maximum) == Planned(rows, source, m, facts', maximum)
  {
    hide AllRowIssues, InvalidCount, ValidatedRows, Inserted, InsertedCount, LinkedRows, Release, Resolves, Conflicts;
    IssuesLocal(rows, source, m, facts, facts');
    if AllRowIssues(rows, source, m, facts) == [] {
      SameKeysKnown(AcceptedRows(rows, source, m, facts), source, facts, facts');
    }
  }

  // ----- The plan's rows and counters -----

  predicate WellLinked(r: StagedRow) {
    && r.links.Some? && r.links.value.date == r.date
    && (|r.hospital| == 0 <==> r.links.value.hospital.None?)
    && (|r.representative| == 0 <==> r.links.value.representative.None?)
  }

  lemma ResolvedWell(r: StagedRow, m: Master)
    requires Resolves(r, m)
    ensures r.product in m.products && r.territory in m.territories && WellLinked(Resolve(r, m))
  {
    hide Resolves;
    ResolvesFacts(r, m);
  }

  lemma AcceptedWell(rows: seq<StagedRow>, source: Source, m: Master, facts: Facts)
    requires AllRowIssues(rows, source, m, facts) == []
    ensures forall r | r in AcceptedRows(rows, source, m, facts) :: WellLinked(r) && !Conflicts(r, source, facts)
  {
    hide RowIssues, Resolves, WellLinked, Conflicts, Resolve;
    forall i | 0 <= i < |rows| ensures WellLinked(AcceptedRows(rows, source, m, facts)[i]) {
      CleanRows(rows, source, m, facts, i);
      AcceptedResolves(rows[i], source, m, facts);
      ResolvedWell(rows[i], m);
    }
  }

  /** Every finalized row satisfies the staged-row trigger against the facts of the same transaction. */
  lemma LinkedSatisfiesTrigger(r: StagedRow, source: Source, facts: Facts, facts': Facts)
    requires WellLinked(r) && r.outcome == Staged && !Conflicts(r, source, facts)
    requires forall f | f in facts :: f in facts' && facts'[f] == facts[f]
    requires Key(source, r) !in facts ==> Key(source, r) in facts' && facts'[Key(source, r)] == FactOf(r)
    ensures StagedRowTrigger(r, LinkedRow(r, source, facts), Running, source, facts')
    ensures FactLinked(LinkedRow(r, source, facts), source, facts') && LinkedRow(r, source, facts).outcome != Staged
  {
  }

  lemma LinkedConstraints(before: StagedRow, r: StagedRow, source: Source, facts: Facts)
    requires StagedRowConstraints(before) && SameSourceValues(before, r) && WellLinked(r)
    ensures StagedRowConstraints(LinkedRow(r, source, facts))
  {
    hide Trimmed, Uppercase, CurrencyFormat, MeasuresConstraint;
  }

  lemma ValidatedConstraints(r: StagedRow, source: Source, m: Master, facts: Facts)
    requires StagedRowConstraints(r) && r.outcome == Staged
    ensures StagedRowConstraints(ValidatedRow(r, source, m, facts))
            && ValidatedRow(r, source, m, facts).outcome == Staged
    ensures SameSourceValues(r, ValidatedRow(r, source, m, facts))
  {
    hide Trimmed, Uppercase, CurrencyFormat, MeasuresConstraint, RowIssues, ValidatedRow;
    ValidatedSame(r, source, m, facts);
  }

  predicate KeepsValues(before: seq<StagedRow>, after: seq<StagedRow>) {
    && |before| == |after|
    && forall i | 0 <= i < |before| :: before[i].outcome == Staged && SameSourceValues(before[i], after[i])
  }

  lemma KeptOrder(before: seq<StagedRow>, after: seq<StagedRow>)
    requires KeepsValues(before, after) && RowsUnique(before) && InRowOrder(before)
    ensures RowsUnique(after) && InRowOrder(after) && StagedEvolves(before, after)
  {
  }

  /** What the tables need to know about a plan for the rows of a running attempt. */
  ghost predicate PlanFits(rows: seq<StagedRow>, source: Source, facts: Facts, plan: Plan) {
    && KeepsValues(rows, plan.rows) && (forall r | r in plan.rows :: StagedRowConstraints(r))
    && match plan
       case RejectPlan(after, issues, counts) =>
         ValidFor(counts, Rejected) && RowsLinked(after, false, source, facts) && IssuesUnique(issues)
       case PublishPlan(after, inserted, counts) =>
         ValidFor(counts, Published) && RowsLinked(after, true, source, facts + inserted)
         && |inserted| == counts.inserted && forall f | f in inserted :: f !in facts && f.source == source
  }

  predicate FreshRows(rows: seq<StagedRow>) {
    forall r | r in rows :: StagedRowConstraints(r) && r.outcome == Staged
  }

  lemma RejectFits(rows: seq<StagedRow>, source: Source, m: Master, facts: Facts, maximum: nat)
    requires FreshRows(rows) && InRowOrder(rows) && AllRowIssues(rows, source, m, facts) != [] && maximum >= 1
    ensures PlanFits(rows, source, facts, Planned(rows, source, m, facts, maximum))
  {
    hide AllRowIssues, InvalidCount, ValidatedRow, StagedRowConstraints, Release, InRowOrder, IssuesUnique;
    var all := AllRowIssues(rows, source, m, facts);
    forall i | 0 <= i < |rows|
      ensures StagedRowConstraints(ValidatedRow(rows[i], source, m, facts))
              && ValidatedRow(rows[i], source, m, facts).outcome == Staged
      ensures SameSourceValues(rows[i], ValidatedRow(rows[i], source, m, facts)) && rows[i].outcome == Staged
    {
      assert rows[i] in rows;
      ValidatedConstraints(rows[i], source, m, facts);
    }
    IssuesCoverInvalid(rows, source, m, facts);
    AllRowIssuesUnique(rows, source, m, facts);
    ReleasedUnique(all, maximum);
  }

  lemma ReleasedUnique(all: seq<Issue>, maximum: nat)
    requires IssuesUnique(all) && (forall i | i in all :: i.code != IssueLimitReached)
    ensures IssuesUnique(Release(maximum, all, |all|))
  {
    assert all[..|all|] == all;
    StoredUnique(all, maximum);
  }

  lemma PublishedRow(r: StagedRow, accepted: StagedRow, source: Source, facts: Facts, facts': Facts)
    requires StagedRowConstraints(r) && r.outcome == Staged && SameSourceValues(r, accepted)
             && accepted.outcome == Staged
    requires WellLinked(accepted) && !Conflicts(accepted, source, facts) && FactsGrow(facts, facts')
    requires Key(source, accepted) !in facts
             ==> Key(source, accepted) in facts' && facts'[Key(source, accepted)] == FactOf(accepted)
    ensures var after := LinkedRow(accepted, source, facts);
            StagedRowConstraints(after) && SameSourceValues(r, after) && after.outcome != Staged
            && FactLinked(after, source, facts')
  {
    hide StagedRowConstraints, Conflicts, FactLinked;
    LinkedConstraints(r, accepted, source, facts);
    LinkedSatisfiesTrigger(accepted, source, facts, facts');
  }

  lemma AcceptedStaged(rows: seq<StagedRow>, source: Source, m: Master, facts: Facts)
    requires FreshRows(rows) && AllRowIssues(rows, source, m, facts) == []
    ensures forall r | r in AcceptedRows(rows, source, m, facts) :: r.outcome == Staged
  {
    hide RowIssues, ValidatedRow, StagedRowConstraints, AllRowIssues;
    forall i | 0 <= i < |rows| ensures ValidatedRow(rows[i], source, m, facts).outcome == Staged {
      ValidatedSame(rows[i], source, m, facts);
      assert rows[i] in rows;
    }
  }

  lemma PublishedRows(rows: seq<StagedRow>, accepted: seq<StagedRow>, source: Source, facts: Facts, facts': Facts)
    requires FreshRows(rows) && |accepted| == |rows| && AllResolved(accepted) && FactsGrow(facts, facts')
    requires forall i | 0 <= i < |rows| :: SameSourceValues(rows[i], accepted[i])
    requires forall r | r in accepted :: WellLinked(r) && !Conflicts(r, source, facts) && r.outcome == Staged
    requires forall r | r in accepted && Key(source, r) !in facts ::
               Key(source, r) in facts' && facts'[Key(source, r)] == FactOf(r)
    ensures KeepsValues(rows, LinkedRows(accepted, source, facts))
    ensures RowsLinked(LinkedRows(accepted, source, facts), true, source, facts')
    ensures forall r | r in LinkedRows(accepted, source, facts) :: StagedRowConstraints(r)
  {
    hide StagedRowConstraints, Conflicts, FactLinked, LinkedRow, SameSourceValues, Key, FactOf;
    forall i | 0 <= i < |rows|
      ensures StagedRowConstraints(LinkedRow(accepted[i], source, facts))
              && SameSourceValues(rows[i], LinkedRow(accepted[i], source, facts))
      ensures rows[i].outcome == Staged && LinkedRow(accepted[i], source, facts).outcome != Staged
      ensures FactLinked(LinkedRow(accepted[i], source, facts), source, facts')
    {
      assert rows[i] in rows && accepted[i] in accepted;
      PublishedRow(rows[i], accepted[i], source, facts, facts');
    }
  }

  lemma PublishedCounts(accepted: seq<StagedRow>, source: Source, facts: Facts)
    requires AllResolved(accepted) && RowsUnique(accepted)
    ensures var inserted := InsertedCount(accepted, source, facts);
            ValidFor(Counts(|accepted|, |accepted|, 0, 0, inserted, |accepted| - inserted), Published)
            && inserted <= |accepted|
    ensures |Inserted(accepted, source, facts)| == InsertedCount(accepted, source, facts)
    ensures FactsGrow(facts, facts + Inserted(accepted, source, facts))
    ensures forall f | f in Inserted(accepted, source, facts) :: f !in facts && f.source == source
    ensures forall r | r in accepted && Key(source, r) !in facts ::
              var facts' := facts + Inserted(accepted, source, facts);
              Key(source, r) in facts' && facts'[Key(source, r)] == FactOf(r)
  {
    hide Inserted, InsertedCount, FactOf, RowsUnique;
    InsertedSize(accepted, source, facts);
    InsertedFacts(accepted, source, facts);
  }

  lemma PublishFits(rows: seq<StagedRow>, source: Source, m: Master, facts: Facts, maximum: nat)
    requires FreshRows(rows) && RowsUnique(rows) && InRowOrder(rows) && AllRowIssues(rows, source, m, facts) == []
    ensures PlanFits(rows, source, facts, Planned(rows, source, m, facts, maximum))
  {
    hide AllRowIssues, InvalidCount, StagedRowConstraints, InRowOrder, RowsUnique, Conflicts, WellLinked, Inserted,
         InsertedCount, ValidFor, Resolves, SameSourceValues, ValidatedRows, LinkedRows, FactOf, FreshRows, KeepsValues,
         RowsLinked, FactsGrow, Key;
    var accepted := AcceptedRows(rows, source, m, facts);
    AcceptedWell(rows, source, m, facts);
    AcceptedStaged(rows, source, m, facts);
    AcceptedClean(rows, source, m, facts);
    PublishedCounts(accepted, source, facts);
    PublishedRows(rows, accepted, source, facts, facts + Inserted(accepted, source, facts));
  }

  lemma PlannedFits(rows: seq<StagedRow>, source: Source, m: Master, facts: Facts, maximum: nat)
    requires FreshRows(rows) && RowsUnique(rows) && InRowOrder(rows) && maximum >= 1
    ensures PlanFits(rows, source, facts, Planned(rows, source, m, facts, maximum))
  {
    hide Planned, PlanFits, FreshRows, RowsUnique, InRowOrder, AllRowIssues;
    if AllRowIssues(rows, source, m, facts) == [] {
      PublishFits(rows, source, m, facts, maximum);
    } else {
      RejectFits(rows, source, m, facts, maximum);
    }
  }

  // ----- The transaction is safe -----

  lemma RunningRowsFresh(db: Db, k: AttemptKey, job: Job, source: Source)
    requires k in db.attempts && AttemptData(db, k, job, source) && db.attempts[k].outcome == Running
    ensures k in db.staged && FreshRows(db.staged[k]) && RowsUnique(db.staged[k]) && InRowOrder(db.staged[k])
  {
    hide StagedRowConstraints, FactLinked;
  }

  lemma RejectedData(db: Db, d: Db, k: AttemptKey, plan: Plan, job: Job, source: Source)
    requires k in db.attempts && AttemptData(db, k, job, source) && db.attempts[k].outcome == Running
    requires plan.RejectPlan? && PlanFits(db.staged[k], source, db.facts, plan)
             && IssuesUnique(db.issues[k] + plan.issues)
    requires k in d.attempts && d.attempts[k].outcome == OutRejected && d.facts == db.facts
    requires k in d.staged && d.staged[k] == plan.rows && k in d.issues && d.issues[k] == db.issues[k] + plan.issues
    ensures forall job': Job | job'.status == Rejected :: AttemptData(d, k, job', source)
    ensures StagedEvolves(db.staged[k], d.staged[k])
  {
    hide StagedRowConstraints, FactLinked, SameSourceValues, IssuesUnique, RowsUnique, InRowOrder;
    KeptOrder(db.staged[k], plan.rows);
  }

  lemma PublishedData(db: Db, d: Db, k: AttemptKey, plan: Plan, job: Job, source: Source)
    requires k in db.attempts && AttemptData(db, k, job, source) && db.attempts[k].outcome == Running
             && job.status == Processing
    requires plan.PublishPlan? && PlanFits(db.staged[k], source, db.facts, plan)
    requires k in d.attempts && d.attempts[k].outcome == OutPublished && d.facts == db.facts + plan.inserted
    requires k in d.staged && d.staged[k] == plan.rows && d.issues == db.issues
    ensures forall job': Job | job'.status == Published :: AttemptData(d, k, job', source)
    ensures StagedEvolves(db.staged[k], d.staged[k])
  {
    hide StagedRowConstraints, FactLinked, SameSourceValues, IssuesUnique, RowsUnique, InRowOrder;
    KeptOrder(db.staged[k], plan.rows);
  }

  lemma PhaseIgnored(a: Attempt, n: nat, job: Job, phase: Phase)
    ensures AttemptMatchesJob(a.(phase := phase), n, job) <==> AttemptMatchesJob(a, n, job)
    ensures forall a' :: AttemptTrigger(a.(phase := phase), a') <==> AttemptTrigger(a, a')
  {
  }

  lemma RunningNewest(a: Attempt, n: nat, job: Job)
    requires AttemptMatchesJob(a, n, job) && n == job.attemptCount && job.status == Processing
    ensures a.outcome == Running
  {
    hide AttemptConstraints;
  }

  lemma ApplyReject(db: Db, k: AttemptKey, plan: Plan, finished: Time)
    requires Inv(db) && k.job in db.jobs && db.jobs[k.job].status == Processing && k == Newest(db, k.job)
    requires k in db.attempts && k in db.staged && k in db.issues && k.job in db.imports && plan.RejectPlan?
    requires PlanFits(db.staged[k], db.imports[k.job].source, db.facts, plan)
    requires ApplyPlan(db, k, plan, finished).Ok?
    ensures Safe(db, ApplyPlan(db, k, plan, finished))
  {
    hide Inv, Evolves, AttemptData, AttemptMatchesJob, AttemptTrigger, JobConstraints, JobRowEffect, Coupled, PlanFits,
         ValidFor, StagedEvolves, IssuesUnique, IntakeConstraints, IntakeRowEffect;
    NewestFacts(db, k.job);
    IntakeConstraint(db, k.job);
    var d, job, a := ApplyPlan(db, k, plan, finished).value, db.jobs[k.job], db.attempts[k];
    RunningNewest(a, k.number, job);
    PhaseIgnored(a, k.number, job, Validate);
    FinishedRows(job, a.(phase := Validate), Rejected, plan.counts, ValidationRejectedCode, finished);
    RejectedData(db, d, k, plan, job, db.imports[k.job].source);
    SameIntakeEffect(db.imports[k.job], job, d.jobs[k.job]);
    WorkerEffectSafe(db, d, k);
  }

  lemma ApplyPublish(db: Db, k: AttemptKey, plan: Plan, finished: Time)
    requires Inv(db) && k.job in db.jobs && db.jobs[k.job].status == Processing && k == Newest(db, k.job)
    requires k in db.attempts && k in db.staged && k in db.issues && k.job in db.imports && plan.PublishPlan?
    requires PlanFits(db.staged[k], db.imports[k.job].source, db.facts, plan)
    requires ApplyPlan(db, k, plan, finished).Ok?
    ensures Safe(db, ApplyPlan(db, k, plan, finished))
  {
    hide Inv, Evolves, AttemptData, AttemptMatchesJob, AttemptTrigger, JobConstraints, JobRowEffect, Coupled, PlanFits,
         ValidFor, StagedEvolves, IssuesUnique, IntakeConstraints, IntakeRowEffect, FactsGrow;
    NewestFacts(db, k.job);
    IntakeConstraint(db, k.job);
    var d, job, a := ApplyPlan(db, k, plan, finished).value, db.jobs[k.job], db.attempts[k];
    RunningNewest(a, k.number, job);
    PhaseIgnored(a, k.number, job, Publish);
    FinishedRows(job, a.(phase := Publish), Published, plan.counts, NoErrorCode, finished);
    PublishedData(db, d, k, plan, job, db.imports[k.job].source);
    SameIntakeEffect(db.imports[k.job], job, d.jobs[k.job]);
    InsertedGrow(db.staged[k], db.imports[k.job].source, db.facts, plan);
    WorkerEffectSafe(db, d, k);
  }

  lemma InsertedGrow(rows: seq<StagedRow>, source: Source, facts: Facts, plan: Plan)
    requires plan.PublishPlan? && PlanFits(rows, source, facts, plan)
    ensures FactsGrow(facts, facts + plan.inserted) && |facts + plan.inserted| == |facts| + plan.counts.inserted
  {
    hide StagedRowConstraints, FactLinked, SameSourceValues;
    DisjointSize(facts, plan.inserted);
  }

  lemma DisjointSize(a: Facts, b: Facts)
    requires forall f | f in b :: f !in a
    ensures |a + b| == |a| + |b|
  {
    assert (a + b).Keys == a.Keys + b.Keys && a.Keys !! b.Keys;
    assert |a + b| == |(a + b).Keys| && |a| == |a.Keys| && |b| == |b.Keys|;
  }

  /**
    Publication under a live token keeps the invariant, whatever master data it
    reads. Its counters and constraints never raise: it fails exactly when the
    claim is lost, unless the attempt already holds issues of its own.
   */
  lemma PublishOnceSafe(db: Db, k: AttemptKey, token: Token, m: Master, maximum: nat, started: Time, finished: Time)
    requires Inv(db) && maximum >= 1
    ensures Safe(db, PublishOnce(db, k, token, m, maximum, started, finished))
    ensures k in db.issues && db.issues[k] == [] ==>
              (PublishOnce(db, k, token, m, maximum, started, finished).Ok?
               <==> HoldsLease(db, k.job, token, started) && k == Newest(db, k.job))
    ensures PublishOnce(db, k, token, m, maximum, started, finished).Ok? ==>
              && HoldsLease(db, k.job, token, started) && k == Newest(db, k.job) && k.job in db.imports
              && k in db.attempts && k in db.staged && k in db.issues
              && PlanFits(db.staged[k], db.imports[k.job].source, db.facts, PlanOf(db, k, m, maximum))
              && PublishOnce(db, k, token, m, maximum, started, finished)
                == ApplyPlan(db, k, PlanOf(db, k, m, maximum), finished)
  {
    hide Inv, Evolves, AttemptData, AttemptMatchesJob, JobConstraints, Coupled, Planned, FreshRows, RowsUnique,
         InRowOrder, RunningKeys, KeepsValues, RowsLinked, StagedRowConstraints, ValidFor, IssuesUnique;
    LiveClaimDecides(db, k.job, token, started);
    if HoldsLease(db, k.job, token, started) && k == Newest(db, k.job) {
      NewestFacts(db, k.job);
      RunningNewest(db.attempts[k], k.number, db.jobs[k.job]);
      RunningRowsFresh(db, k, db.jobs[k.job], db.imports[k.job].source);
      PlannedFits(db.staged[k], db.imports[k.job].source, m, db.facts, maximum);
      var plan := PlanOf(db, k, m, maximum);
      if plan.RejectPlan? {
        assert [] + plan.issues == plan.issues;
      }
      if ApplyPlan(db, k, plan, finished).Ok? {
        if plan.RejectPlan? {
          ApplyReject(db, k, plan, finished);
        } else {
          ApplyPublish(db, k, plan, finished);
        }
      }
    }
  }
}
