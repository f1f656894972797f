/**
  The states that the theorems speak of occur: from an empty queue over one upload
  and any facts and master data, a file is claimed, staged and locked, then
  published after its lease has run out, or rejected.
 */
module ReachableStates {
  import opened Results
  import opened Text
  import opened Tables
  import opened QueueSpec
  import opened QueueInvariant
  import opened Publication
  import opened ImportSystem
  import opened SystemRuns
  import opened AttemptLimits

  /** The end of a run that starts with an empty queue. */
  ghost predicate Reachable(s: System) {
    exists states: seq<System>, steps: seq<Step> :: RunTo(states, steps, s)
  }

  ghost predicate RunTo(states: seq<System>, steps: seq<Step>, s: System) {
    && IsRun(states, steps) && states[|steps|] == s
    && EarlierUploads(states[0].db.imports)
    && states[0] == Initial(states[0].db.imports, states[0].db.facts, states[0].db.master)
  }

  lemma ReachableStart(imports: map<ImportId, Intake>, facts: Facts, master: Master)
    requires EarlierUploads(imports)
    ensures Reachable(Initial(imports, facts, master))
  {
    hide EarlierUploads;
    assert RunTo([Initial(imports, facts, master)], [], Initial(imports, facts, master));
  }

  lemma ReachableStep(s: System, step: Step, t: System)
    requires Reachable(s) && Next(s, step, t)
    ensures Reachable(t)
  {
    hide Next, EarlierUploads;
    var states: seq<System>, steps: seq<Step> :| RunTo(states, steps, s);
    assert RunTo(states + [t], steps + [step], t);
  }

  lemma ReachableSafe(s: System)
    requires Reachable(s)
    ensures SystemInv(s)
  {
    hide Next, SystemInv, EarlierUploads, Evolves;
    var states: seq<System>, steps: seq<Step> :| RunTo(states, steps, s);
    InitialSafe(states[0].db.imports, states[0].db.facts, states[0].db.master);
    RunSafe(states, steps, |steps|, |steps|);
  }

  // ----- Claiming, staging and locking one file -----

  const UPLOAD := Intake("s", Csv, "h", Received, "v", NoFailure, Some(0), None)
  const TOKEN: Token := 7
  const ATTEMPT := AttemptKey(0, 1)
  const EXPIRY: Time := 1 + DEFAULT_LEASE

  function QueuedJob(limit: nat): Job {
    Job(Queued, 0, 0, 0, limit, None, "", None, None, None, None, NO_COUNTS, NoErrorCode)
  }

  function Counted(rows: seq<StagedRow>): Counts {
    Counts(|rows|, |rows|, 0, 0, 0, 0)
  }

  /** The rows of a file that the contract accepts. */
  predicate Parsable(rows: seq<StagedRow>) {
    && rows != [] && RowsUnique(rows) && InRowOrder(rows)
    && forall r | r in rows :: ParsedRow(r) && StagedRowConstraints(r)
  }

  function Queue(facts: Facts, master: Master, limit: nat): Db {
    Db(map[0 := UPLOAD], map[0 := QueuedJob(limit)], map[], map[], map[], facts, master)
  }

  function Working(facts: Facts, master: Master, limit: nat): Db {
    Db(map[0 := UPLOAD], map[0 := ClaimedJob(QueuedJob(limit), "w", 10, 0, TOKEN)],
       map[ATTEMPT := NewAttempt("w", 0, TOKEN)],
       map[ATTEMPT := []], map[ATTEMPT := []], facts, master)
  }

  function StagedDb(facts: Facts, master: Master, limit: nat, rows: seq<StagedRow>): Db {
    Db(map[0 := UPLOAD], map[0 := ParsedJob(ClaimedJob(QueuedJob(limit), "w", 10, 0, TOKEN), Counted(rows), 1)],
       map[ATTEMPT := ParsedAttempt(NewAttempt("w", 0, TOKEN), Counted(rows), 1)], map[ATTEMPT := rows],
       map[ATTEMPT := []], facts, master)
  }

  function Holder(db: Db, locked: bool): Session {
    Session("s", ATTEMPT, TOKEN, Some(Txn(db, 2, 2, locked, true)))
  }

  /** The publication holds its source and its job row. */
  function LockedSystem(facts: Facts, master: Master, limit: nat, rows: seq<StagedRow>): System {
    var db := StagedDb(facts, master, limit, rows);
    System(db, map[0 := 2], map[0 := Holder(db, true)])
  }

  lemma Enqueued(facts: Facts, master: Master, limit: nat)
    requires 1 <= limit <= MAX_SUPPORTED_ATTEMPTS
    ensures Next(Initial(map[0 := UPLOAD], facts, master), Transact(OpEnqueue(0, limit), 0),
                 System(Queue(facts, master, limit), map[], map[]))
  {
    assert Perform(Initial(map[0 := UPLOAD], facts, master).db, OpEnqueue(0, limit), 0)
           == Ok(Queue(facts, master, limit));
  }

  lemma ClaimCommits(facts: Facts, master: Master, limit: nat)
    requires 1 <= limit <= MAX_SUPPORTED_ATTEMPTS
    ensures Enabled(Queue(facts, master, limit), OpClaim(0, "w", 10, TOKEN), 0)
    ensures Perform(Queue(facts, master, limit), OpClaim(0, "w", 10, TOKEN), 0) == Ok(Working(facts, master, limit))
  {
    assert Trimmed("w") && Strip("w") == "w";
    assert Queue(facts, master, limit).jobs[0 := ClaimedJob(QueuedJob(limit), "w", 10, 0, TOKEN)]
           == Working(facts, master, limit).jobs;
  }

  lemma ClaimedStep(facts: Facts, master: Master, limit: nat)
    requires 1 <= limit <= MAX_SUPPORTED_ATTEMPTS
    ensures Next(System(Queue(facts, master, limit), map[], map[]), Transact(OpClaim(0, "w", 10, TOKEN), 0),
                 System(Working(facts, master, limit), map[0 := 1], map[]))
  {
    hide Perform, Enabled, Queue, Working;
    ClaimCommits(facts, master, limit);
    assert Bump(map[], {0}) == map[0 := 1];
  }

  lemma LiveAttempt(facts: Facts, master: Master, limit: nat)
    ensures var live := LockedLiveClaim(Working(facts, master, limit), 0, TOKEN, 1);
            live == Ok(ATTEMPT)
  {
    var db := Working(facts, master, limit);
    assert RunningKeys(db, 0, TOKEN) == {ATTEMPT};
    assert LockedLiveClaim(db, 0, TOKEN, 1).value in RunningKeys(db, 0, TOKEN);
  }

  /** Replacing the one entry of a map. */
  lemma OneEntry<K, V>(k: K, a: V, b: V)
    ensures (map[k := a])[k := b] == map[k := b]
  {
  }

  lemma ParseCommits(facts: Facts, master: Master, limit: nat, rows: seq<StagedRow>)
    requires Parsable(rows)
    ensures Enabled(Working(facts, master, limit), OpParse(ATTEMPT, TOKEN, rows, [], Counted(rows)), 1)
    ensures Perform(Working(facts, master, limit), OpParse(ATTEMPT, TOKEN, rows, [], Counted(rows)), 1)
            == Ok(StagedDb(facts, master, limit, rows))
  {
    hide LockedLiveClaim, StagedRowConstraints, RowsUnique, InRowOrder, IssuesUnique, ClaimedJob, ParsedJob, NewAttempt,
         ParsedAttempt, ParsedRow;
    var db, d := Working(facts, master, limit), StagedDb(facts, master, limit, rows);
    LiveAttempt(facts, master, limit);
    assert [] + rows == rows && NoIssues() == [];
    ClaimedCounts(limit);
    OneEntry(0, db.jobs[0], d.jobs[0]);
    OneEntry(ATTEMPT, db.attempts[ATTEMPT], d.attempts[ATTEMPT]);
    OneEntry(ATTEMPT, db.staged[ATTEMPT], rows);
    OneEntry(ATTEMPT, db.issues[ATTEMPT], NoIssues());
    assert db.staged[ATTEMPT] + rows == rows && db.issues[ATTEMPT] + [] == NoIssues();
    assert BatchConstraints(rows, NoIssues(), Counted(rows));
    assert RecordParseBatch(db, ATTEMPT, TOKEN, rows, [], Counted(rows), 1).Ok?;
  }

  lemma ClaimedCounts(limit: nat)
    ensures ClaimedJob(QueuedJob(limit), "w", 10, 0, TOKEN).counts == NO_COUNTS
            && NewAttempt("w", 0, TOKEN).counts == NO_COUNTS
  {
  }

  lemma ParsedStep(facts: Facts, master: Master, limit: nat, rows: seq<StagedRow>)
    requires Parsable(rows)
    ensures Next(System(Working(facts, master, limit), map[0 := 1], map[]),
                 Transact(OpParse(ATTEMPT, TOKEN, rows, [], Counted(rows)), 1),
                 System(StagedDb(facts, master, limit, rows), map[0 := 2], map[]))
  {
    hide Perform, Enabled, Working, StagedDb, Parsable;
    ParseCommits(facts, master, limit, rows);
    assert Bump(map[0 := 1], {0}) == map[0 := 2];
  }

  function NoIssues(): (issues: seq<Issue>)
    ensures IssuesUnique(issues)
  {
    []
  }

  lemma LockSteps(facts: Facts, master: Master, limit: nat, rows: seq<StagedRow>)
    ensures var db := StagedDb(facts, master, limit, rows);
            var s := System(db, map[0 := 2], map[]);
            var a := s.(sessions := map[0 := Session("s", ATTEMPT, TOKEN, None)]);
            && Next(s, Acquire(0, ATTEMPT, TOKEN), a)
            && Next(a, Begin(0, 2), s.(sessions := map[0 := Holder(db, false)]))
            && Next(s.(sessions := map[0 := Holder(db, false)]), LockRow(0), LockedSystem(facts, master, limit, rows))
  {
  }

  /** A processing job whose publication holds its source and its row, for every file that the contract accepts. */
  lemma LockedStateOccurs(facts: Facts, master: Master, limit: nat, rows: seq<StagedRow>)
    requires 1 <= limit <= MAX_SUPPORTED_ATTEMPTS && Parsable(rows)
    ensures var s := LockedSystem(facts, master, limit, rows);
            && Reachable(s) && SystemInv(s) && AllUndisturbed(s) && Holds(s, 0, ATTEMPT)
            && HoldsLease(s.db, 0, TOKEN, EXPIRY - 1) && !HoldsLease(s.db, 0, TOKEN, EXPIRY)
            && (limit == 1 ==> LastAttempt(s.db, 0, EXPIRY))
  {
    hide SystemInv, Next, Queue, Working, StagedDb, Parsable, Reachable;
    ReachableStart(map[0 := UPLOAD], facts, master);
    Enqueued(facts, master, limit);
    ClaimedStep(facts, master, limit);
    ParsedStep(facts, master, limit, rows);
    LockSteps(facts, master, limit, rows);
    var db := StagedDb(facts, master, limit, rows);
    var s := System(db, map[0 := 2], map[]);
    var a := s.(sessions := map[0 := Session("s", ATTEMPT, TOKEN, None)]);
    ReachableStep(Initial(map[0 := UPLOAD], facts, master), Transact(OpEnqueue(0, limit), 0),
                  System(Queue(facts, master, limit), map[], map[]));
    ReachableStep(System(Queue(facts, master, limit), map[], map[]), Transact(OpClaim(0, "w", 10, TOKEN), 0),
                  System(Working(facts, master, limit), map[0 := 1], map[]));
    ReachableStep(System(Working(facts, master, limit), map[0 := 1], map[]),
                  Transact(OpParse(ATTEMPT, TOKEN, rows, [], Counted(rows)), 1), s);
    ReachableStep(s, Acquire(0, ATTEMPT, TOKEN), a);
    ReachableStep(a, Begin(0, 2), s.(sessions := map[0 := Holder(db, false)]));
    ReachableStep(s.(sessions := map[0 := Holder(db, false)]), LockRow(0), LockedSystem(facts, master, limit, rows));
    ReachableSafe(LockedSystem(facts, master, limit, rows));
    LockedShape(facts, master, limit, rows);
  }

  lemma LockedShape(facts: Facts, master: Master, limit: nat, rows: seq<StagedRow>)
    ensures var s := LockedSystem(facts, master, limit, rows);
            && AllUndisturbed(s) && Holds(s, 0, ATTEMPT)
            && HoldsLease(s.db, 0, TOKEN, EXPIRY - 1) && !HoldsLease(s.db, 0, TOKEN, EXPIRY)
            && (limit == 1 ==> LastAttempt(s.db, 0, EXPIRY))
            && ATTEMPT in s.db.staged && s.db.staged[ATTEMPT] == rows && ATTEMPT in s.db.issues
            && s.db.issues[ATTEMPT] == []
  {
  }
}
