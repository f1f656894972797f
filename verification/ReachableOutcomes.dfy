/**
  Reachable examples: a publication after the last lease, a conflict that appears
  after the snapshot, and one that an operator does not see.
 */
module ReachableOutcomes {
  import opened Results
  import opened Tables
  import opened QueueSpec
  import opened QueueInvariant
  import opened ReferenceValidation
  import opened Publication
  import opened PublishTransaction
  import opened PublicationOutcomes
  import opened ImportSystem
  import opened PublicationRefinement
  import opened SystemRuns
  import opened SerialRuns
  import opened AttemptLimits
  import opened RejectedRuns
  import IssueCollection
  import opened ReachableStates

  const KEY := FactKey("s", "b")
  const FACT := Fact(Links(1, 7, 3, None, None), 1000, 0, "INR")

  lemma RowsParse()
    ensures Parsable([ResolvingRow()]) && Parsable(TruncatedRows())
  {
  }

  lemma RowResolves()
    ensures Resolves(ResolvingRow(), TruncatedMaster())
    ensures FactOf(Resolve(ResolvingRow(), TruncatedMaster())) == FACT && Key("s", ResolvingRow()) == KEY
  {
  }

  /** The commit of a locked publication that can commit. */
  lemma CommitFrom(s: System, finished: Time) returns (t: System)
    requires Reachable(s) && SystemInv(s) && Holds(s, 0, ATTEMPT) && CanCommit(s, 0, 2)
    ensures Next(s, Commit(0, 2, finished), t) && CommitNext(s, 0, 2, finished, t) && Reachable(t) && SystemInv(t)
    ensures 0 in t.db.jobs && t.db.jobs[0].counts == SnapshotPlan(s, 0, 2).counts
    ensures t.db.jobs[0].status == (if SnapshotPlan(s, 0, 2).PublishPlan? then Published else Rejected)
    ensures t.db.facts
            == if SnapshotPlan(s, 0, 2).PublishPlan? then s.db.facts + SnapshotPlan(s, 0, 2).inserted else s.db.facts
  {
    hide SystemInv, Next, Reachable, CanCommit, PlanOf, ApplyPlan, PlanFits, SnapshotOutcome, Install, Collides,
         FactsGrow, RowsUnique, InRowOrder;
    CommitsExactly(s, 0, 2, finished);
    t :| Next(s, Commit(0, 2, finished), t);
    CommitOf(s, t, 0, 2, finished);
    CommitEffect(s, t, 0, 2, finished);
    ReachableStep(s, Commit(0, 2, finished), t);
    ReachableSafe(t);
  }

  lemma CommitEffect(s: System, t: System, w: Worker, maximum: nat, finished: Time)
    requires SystemInv(s) && CommitNext(s, w, maximum, finished, t)
    ensures var plan, j := SnapshotPlan(s, w, maximum), s.sessions[w].k.job;
            && j in t.db.jobs && t.db.jobs[j].counts == plan.counts
            && t.db.jobs[j].status == (if plan.PublishPlan? then Published else Rejected)
            && t.db.facts == if plan.PublishPlan? then s.db.facts + plan.inserted else s.db.facts
  {
    hide SystemInv, PlanOf, ApplyPlan, PlanFits, SnapshotOutcome, Install, Collides, FactsGrow, RowsUnique, InRowOrder;
    CommitApplies(s, w, maximum, finished);
    LockedAttempt(s, w);
    AppliedCounts(s.db, s.sessions[w].k, SnapshotPlan(s, w, maximum), finished);
    AppliedFrame(s.db, s.sessions[w].k, SnapshotPlan(s, w, maximum), finished);
  }

  lemma OneRowPlan(facts: Facts)
    requires KEY !in facts
    ensures var plan := Planned([ResolvingRow()], "s", TruncatedMaster(), facts, 2);
            plan.PublishPlan? && plan.inserted == map[KEY := FACT] && plan.counts == Counts(1, 1, 0, 0, 1, 0)
  {
    hide Resolves, FactOf;
    RowResolves();
    var rows, m := [ResolvingRow()], TruncatedMaster();
    assert rows[..0] == [];
    ResolvesFacts(ResolvingRow(), m);
    assert RowIssues(ResolvingRow(), "s", m, facts) == [];
    assert AllRowIssues(rows, "s", m, facts) == [];
    var accepted := AcceptedRows(rows, "s", m, facts);
    SameRecord(ResolvingRow(), m);
    assert accepted == [Resolve(ResolvingRow(), m)] && accepted == [] + [accepted[0]];
    NothingInserted("s", facts);
    InsertedLast([], accepted[0], "s", facts);
    assert Key("s", accepted[0]) == KEY;
  }

  lemma LockedPlan(facts: Facts, master: Master, limit: nat, rows: seq<StagedRow>, maximum: nat)
    requires 1 <= limit <= MAX_SUPPORTED_ATTEMPTS && Parsable(rows)
    ensures var s := LockedSystem(facts, master, limit, rows);
            && SystemInv(s) && InTransaction(s, 0) && s.sessions[0].txn.value.locked && s.sessions[0].k == ATTEMPT
            && SnapshotPlan(s, 0, maximum) == Planned(rows, "s", master, facts, maximum)
  {
    hide SystemInv, Planned, Parsable, Reachable;
    LockedStateOccurs(facts, master, limit, rows);
    LockedAttempt(LockedSystem(facts, master, limit, rows), 0);
  }

  /**
    A job on its last attempt whose lease has run out is published, and its fact is
    inserted: the cleanup that would fail it cannot lock the row.
   */
  lemma LatePublicationInserts(facts: Facts, finished: Time) returns (t: System)
    requires KEY !in facts && finished >= EXPIRY
    ensures var s := LockedSystem(facts, TruncatedMaster(), 1, [ResolvingRow()]);
            && Reachable(s) && LastAttempt(s.db, 0, EXPIRY) && AtLimit(s.db, 0, finished)
            && Next(s, Commit(0, 2, finished), t)
    ensures Reachable(t) && 0 in t.db.jobs && t.db.jobs[0].status == Published && t.db.jobs[0].counts.inserted == 1
    ensures t.db.facts == facts[KEY := FACT]
  {
    hide SystemInv, Next, Reachable, Parsable, Planned, StagedDb;
    var rows, m := [ResolvingRow()], TruncatedMaster();
    var s := LockedSystem(facts, m, 1, rows);
    RowsParse();
    LockedStateOccurs(facts, m, 1, rows);
    LockedShape(facts, m, 1, rows);
    OneRowPlan(facts);
    LockedPlan(facts, m, 1, rows, 2);
    UndisturbedCommits(s, 0, 2, finished);
    t := CommitFrom(s, finished);
    LockedFacts(facts, m, 1, rows);
  }

  lemma LockedFacts(facts: Facts, master: Master, limit: nat, rows: seq<StagedRow>)
    ensures LockedSystem(facts, master, limit, rows).db.facts == facts
            && LockedSystem(facts, master, limit, rows).db.master == master
  {
  }

  // ----- A conflict that appears after the snapshot -----

  lemma TwoRowsPlan(facts: Facts)
    ensures Planned(TruncatedRows(), "s", TruncatedMaster(), facts, 2).RejectPlan?
  {
    var rows, m := TruncatedRows(), TruncatedMaster();
    assert RowIssues(rows[0], "s", m, facts) != [];
    if AllRowIssues(rows, "s", m, facts) == [] {
      CleanRows(rows, "s", m, facts, 0);
    }
  }

  /** A fact that differs from the second row is entered by hand while the publication is in its transaction. */
  function HandEntry(): System {
    var s := LockedSystem(map[], TruncatedMaster(), 1, TruncatedRows());
    s.(db := s.db.(facts := TruncatedFacts()), sessions := map[0 := Disturb(s.sessions[0], "s")])
  }

  lemma HandEntryStep()
    ensures Next(LockedSystem(map[], TruncatedMaster(), 1, TruncatedRows()), EnterFact(KEY, TruncatedFacts()[KEY]),
                 HandEntry())
  {
    hide StagedDb;
    LockedFacts(map[], TruncatedMaster(), 1, TruncatedRows());
    assert map[][KEY := TruncatedFacts()[KEY]] == TruncatedFacts();
  }

  lemma HandEntryShape()
    ensures var s, t := LockedSystem(map[], TruncatedMaster(), 1, TruncatedRows()), HandEntry();
            && Holds(t, 0, ATTEMPT) && t.sessions[0].source == "s" && t.sessions[0].txn.value.snapshot == s.db
            && s.sessions[0].txn.value.snapshot == s.db && s.sessions[0].k == ATTEMPT
            && s.db.facts == map[] && t.db.facts == TruncatedFacts() && s.db.master == TruncatedMaster()
            && ATTEMPT in t.db.staged && t.db.staged[ATTEMPT] == TruncatedRows() && ATTEMPT in t.db.issues
            && t.db.issues[ATTEMPT] == []
  {
  }

  lemma ConflictAppeared()
    ensures AnyConflictAppears(TruncatedRows(), "s", TruncatedMaster(), map[], TruncatedFacts())
  {
    hide Resolves;
    RowResolves();
    ResolvesFacts(ResolvingRow(), TruncatedMaster());
    assert ConflictAppears(ResolvingRow(), "s", TruncatedMaster(), map[], TruncatedFacts());
    assert ResolvingRow() in TruncatedRows();
  }

  /** The commit that rejects the file without seeing the conflict is not a one-step publication. */
  lemma NewConflictOccurs(finished: Time) returns (t: System)
    ensures var s := HandEntry();
            && Reachable(s) && SystemInv(s) && Next(s, Commit(0, 2, finished), t)
            && MeetsNewConflict(s, Commit(0, 2, finished))
            && AtomicPublication(s, 0, 2, finished) != Ok(t.db)
    ensures Reachable(t) && 0 in t.db.jobs && t.db.jobs[0].status == Rejected
  {
    hide SystemInv, Next, Reachable, Parsable, Planned, StagedDb, HandEntry, AnyConflictAppears, AtomicPublication,
         PlanFits, IssuesUnique, CommitNext;
    var s := HandEntry();
    var locked := LockedSystem(map[], TruncatedMaster(), 1, TruncatedRows());
    RowsParse();
    LockedStateOccurs(map[], TruncatedMaster(), 1, TruncatedRows());
    HandEntryStep();
    HandEntryShape();
    ReachableStep(locked, EnterFact(KEY, TruncatedFacts()[KEY]), s);
    ReachableSafe(s);
    LockedPlan(map[], TruncatedMaster(), 1, TruncatedRows(), 2);
    TwoRowsPlan(map[]);
    RejectionCanCommit(s, 0, 2);
    t := CommitFrom(s, finished);
    ConflictAppeared();
    CommitRefinesExactly(s, t, 0, 2, finished);
  }

  lemma RejectionCanCommit(s: System, w: Worker, maximum: nat)
    requires SystemInv(s) && InTransaction(s, w) && s.sessions[w].txn.value.locked && maximum >= 1
    requires s.sessions[w].k in s.db.issues && s.db.issues[s.sessions[w].k] == []
             && SnapshotPlan(s, w, maximum).RejectPlan?
    ensures CanCommit(s, w, maximum)
  {
    hide SystemInv, PlanFits, IssuesUnique, PlanOf, Inv, SameJob, FactsGrow;
    LockedAttempt(s, w);
    SnapshotPlanFits(s, w, maximum);
    PlanIssues(s.sessions[w].txn.value.snapshot.staged[s.sessions[w].k], s.sessions[w].source,
               s.sessions[w].txn.value.snapshot.facts,
               SnapshotPlan(s, w, maximum));
    assert [] + SnapshotPlan(s, w, maximum).issues == SnapshotPlan(s, w, maximum).issues;
  }

  // ----- A conflict that an operator does not see -----

  /** A file with a conflict is rejected, the conflict is dropped by the issue limit, and the job is queued again. */
  lemma UnseenConflictRequeued(finished: Time, now: Time) returns (t: System, u: System)
    ensures ShowsConflict(AllRowIssues(TruncatedRows(), "s", TruncatedMaster(), TruncatedFacts()))
    ensures Next(LockedSystem(TruncatedFacts(), TruncatedMaster(), 1, TruncatedRows()), Commit(0, 2, finished), t)
    ensures Reachable(t) && 0 in t.db.jobs && t.db.jobs[0].status == Rejected
    ensures Next(t, Transact(OpRequeue(0, 1), now), u) && Reachable(u) && 0 in u.db.jobs
            && u.db.jobs[0].status == Queued
  {
    hide SystemInv, Next, Reachable, Parsable, Planned, StagedDb, PlanFits, IssuesUnique, CommitNext, Requeue,
         ShowsConflict, AllRowIssues, IssueCollection.Details;
    var rows, m, facts := TruncatedRows(), TruncatedMaster(), TruncatedFacts();
    var s := LockedSystem(facts, m, 1, rows);
    RowsParse();
    LockedStateOccurs(facts, m, 1, rows);
    LockedShape(facts, m, 1, rows);
    LockedPlan(facts, m, 1, rows, 2);
    TwoRowsPlan(facts);
    RejectionCanCommit(s, 0, 2);
    t := CommitFrom(s, finished);
    CommitGuard(s, t, 0, 2, finished, 1, now);
    TruncatedConflictUnseen();
    StoredConflict(AllRowIssues(rows, "s", m, facts), 2);
    LockedFacts(facts, m, 1, rows);
    LimitOne(facts, m, rows);
    IdleAfter(s, t, 0, 2, finished);
    u := Requeued(t, now);
  }

  lemma LimitOne(facts: Facts, master: Master, rows: seq<StagedRow>)
    ensures var s := LockedSystem(facts, master, 1, rows);
            && s.db.jobs[0].maxAttempts == 1 && s.sessions.Keys == {0} && s.sessions[0].source == "s"
            && s.sessions[0].txn.value.snapshot == s.db
  {
  }

  lemma IdleAfter(s: System, t: System, w: Worker, maximum: nat, finished: Time)
    requires CommitNext(s, w, maximum, finished, t)
    ensures t.sessions.Keys == s.sessions.Keys && w in t.sessions && t.sessions[w].txn.None?
  {
    hide SnapshotOutcome, Install, Collides, Bump;
  }

  lemma Requeued(t: System, now: Time) returns (u: System)
    requires Reachable(t) && Requeue(t.db, 0, 1, now).Ok? && t.sessions.Keys <= {0}
             && (0 in t.sessions ==> t.sessions[0].txn.None?)
    ensures Next(t, Transact(OpRequeue(0, 1), now), u) && Reachable(u) && 0 in u.db.jobs
            && u.db.jobs[0].status == Queued
  {
    hide Reachable, HasConflictIssue;
    u := t.(db := Requeue(t.db, 0, 1, now).value, versions := Bump(t.versions, {0}));
    ReachableStep(t, Transact(OpRequeue(0, 1), now), u);
  }
}
