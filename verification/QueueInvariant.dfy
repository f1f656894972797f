/**
  The inductive invariant of the queue, and the two-state relation that every
  committed transaction respects. Both are stated job by job, so a transaction
  only has to account for the jobs it writes.
 */
module QueueInvariant {
  import opened Results
  import opened Tables
  import opened QueueSpec

  // ----- The invariant -----

  predicate InPlay(status: JobStatus) {
    status != WaitingForFile && status != AwaitingParser
  }

  /** How the state of an intake determines which states its job may be in. */
  predicate Coupled(i: Intake, job: Job) {
    match i.status
    case Receiving => job.status == WaitingForFile
    case IntakeFailed => job.status == Failed
    case Received => if i.format == Csv then InPlay(job.status) else job.status == AwaitingParser
  }

  predicate RowsLinked(rows: seq<StagedRow>, published: bool, source: Source, facts: map<FactKey, Fact>) {
    forall r | r in rows ::
      if published then r.outcome != Staged && FactLinked(r, source, facts) else r.outcome == Staged
  }

  predicate AttemptMatchesJob(a: Attempt, n: nat, job: Job) {
    && AttemptConstraints(n, a)
    && (a.outcome == Running <==> n == job.attemptCount && job.status == Processing)
    && (a.outcome == Running ==>
          && job.leaseToken == Some(a.token) && job.leasedBy == a.worker
          && job.counts == a.counts && job.heartbeatAt == Some(a.heartbeatAt))
    && (a.outcome == OutPublished <==> n == job.attemptCount && job.status == Published)
  }

  predicate AttemptData(db: Db, k: AttemptKey, job: Job, source: Source)
    requires k in db.attempts
  {
    && k in db.staged && k in db.issues
    && RowsUnique(db.staged[k]) && InRowOrder(db.staged[k]) && IssuesUnique(db.issues[k])
    && (forall r | r in db.staged[k] :: StagedRowConstraints(r))
    && RowsLinked(db.staged[k], db.attempts[k].outcome == OutPublished, source, db.facts)
    && ((exists i | i in db.issues[k] :: i.code == SourceRecordConflict) ==> job.status == Rejected)
  }

  ghost predicate JobInv(db: Db, j: ImportId)
    requires j in db.jobs
  {
    var job := db.jobs[j];
    && j in db.imports
    && JobConstraints(job)
    && Coupled(db.imports[j], job)
    && (job.status == Queued || job.status == RetryWait ==> job.attemptCount < job.maxAttempts)
    && (!InPlay(job.status) ==> job.attemptCount == 0)
    && (job.status == Processing || job.status == Published || job.status == Rejected ==> job.attemptCount >= 1)
    && (forall n: nat :: AttemptKey(j, n) in db.attempts <==> 1 <= n <= job.attemptCount)
    && (forall n: nat | AttemptKey(j, n) in db.attempts ::
          AttemptMatchesJob(db.attempts[AttemptKey(j, n)], n, job)
          && AttemptData(db, AttemptKey(j, n), job, db.imports[j].source))
  }

  predicate TokensUnique(db: Db) {
    forall k, l | k in db.attempts && l in db.attempts :: db.attempts[k].token == db.attempts[l].token ==> k == l
  }

  predicate ActiveUnique(db: Db) {
    forall i, j | i in db.imports && j in db.imports && ActiveIntake(db.imports[i]) && ActiveIntake(db.imports[j]) ::
      db.imports[i].source == db.imports[j].source && db.imports[i].sha256 == db.imports[j].sha256 ==> i == j
  }

  predicate Shape(db: Db) {
    && (forall k | k in db.attempts :: k.job in db.jobs)
    && db.staged.Keys == db.attempts.Keys && db.issues.Keys == db.attempts.Keys
    && (forall i | i in db.imports :: IntakeConstraints(db.imports[i]))
  }

  ghost predicate Inv(db: Db) {
    Shape(db) && TokensUnique(db) && ActiveUnique(db) && forall j | j in db.jobs :: JobInv(db, j)
  }

  // ----- The two-state relation -----

  predicate StagedEvolves(before: seq<StagedRow>, after: seq<StagedRow>) {
    && |before| <= |after|
    && forall i | 0 <= i < |before| ::
         after[i] == before[i] || (before[i].outcome == Staged && SameSourceValues(before[i], after[i]))
  }

  predicate AttemptEvolves(before: Db, after: Db, k: AttemptKey)
    requires k in before.attempts
  {
    && k in after.attempts
    && (after.attempts[k] == before.attempts[k] || AttemptTrigger(before.attempts[k], after.attempts[k]))
    && (k in before.issues ==> k in after.issues && before.issues[k] <= after.issues[k])
    && (k in before.staged ==> k in after.staged && StagedEvolves(before.staged[k], after.staged[k]))
  }

  predicate IntakeEvolves(before: Intake, after: Intake) {
    && after.source == before.source && after.format == before.format && after.sha256 == before.sha256
    && (before.status == IntakeFailed ==> after == before)
    && (before.status == Received ==> after.status != Receiving)
  }

  predicate HasToken(db: Db, j: ImportId, token: Token) {
    j in db.jobs && db.jobs[j].leaseToken == Some(token)
  }

  /** What no transaction may do to job `j`, its intake and its attempts. */
  ghost predicate JobEvolves(before: Db, after: Db, j: ImportId) {
    && (j in before.imports ==> j in after.imports && IntakeEvolves(before.imports[j], after.imports[j]))
    && (j in before.jobs ==>
          && j in after.jobs
          && before.jobs[j].createdAt == after.jobs[j].createdAt
          && before.jobs[j].attemptCount <= after.jobs[j].attemptCount
          && (before.jobs[j].status == Published ==> after.jobs[j] == before.jobs[j])
          && (j in before.imports && before.imports[j].status == IntakeFailed ==> after.jobs[j] == before.jobs[j]))
    && (forall k | k in before.attempts && k.job == j :: AttemptEvolves(before, after, k))
    && (forall token | token in UsedTokens(before) && HasToken(after, j, token) :: HasToken(before, j, token))
  }

  predicate FactsGrow(before: map<FactKey, Fact>, after: map<FactKey, Fact>) {
    forall f | f in before :: f in after && after[f] == before[f]
  }

  predicate UsedGrow(before: Db, after: Db) {
    UsedTokens(before) <= UsedTokens(after)
  }

  ghost predicate Evolves(before: Db, after: Db) {
    && FactsGrow(before.facts, after.facts) && UsedGrow(before, after)
    && forall j: ImportId :: JobEvolves(before, after, j)
  }

  lemma EvolvesReflexive(db: Db)
    ensures Evolves(db, db)
  {
  }

  lemma JobEvolvesTransitive(a: Db, b: Db, c: Db, j: ImportId)
    requires UsedGrow(a, b) && JobEvolves(a, b, j) && JobEvolves(b, c, j)
    requires b.issues.Keys == b.attempts.Keys && b.staged.Keys == b.attempts.Keys
    ensures JobEvolves(a, c, j)
  {
    forall k | k in a.attempts && k.job == j ensures AttemptEvolves(a, c, k) {
      assert AttemptEvolves(a, b, k);
      assert AttemptEvolves(b, c, k);
    }
    forall token | token in UsedTokens(a) && HasToken(c, j, token) ensures HasToken(a, j, token) {
      assert token in UsedTokens(b);
    }
  }

  lemma EvolvesTransitive(a: Db, b: Db, c: Db)
    requires Evolves(a, b) && Evolves(b, c) && Shape(b)
    ensures Evolves(a, c)
  {
    forall j: ImportId ensures JobEvolves(a, c, j) {
      JobEvolvesTransitive(a, b, c, j);
    }
  }

  // ----- Assembling a step from the jobs it writes -----

  ghost predicate SameJob(before: Db, after: Db, j: ImportId) {
    && (j in after.imports <==> j in before.imports) && (j in before.imports ==> after.imports[j] == before.imports[j])
    && (j in after.jobs <==> j in before.jobs) && (j in before.jobs ==> after.jobs[j] == before.jobs[j])
    && (forall n: nat :: SameAttempt(before, after, AttemptKey(j, n)))
  }

  predicate SameAttempt(before: Db, after: Db, k: AttemptKey) {
    && (k in after.attempts <==> k in before.attempts)
    && (k in before.attempts ==> after.attempts[k] == before.attempts[k])
    && (k in after.staged <==> k in before.staged) && (k in before.staged ==> after.staged[k] == before.staged[k])
    && (k in after.issues <==> k in before.issues) && (k in before.issues ==> after.issues[k] == before.issues[k])
  }

  /** Tokens stay with their attempts; at most one attempt is added, with a fresh token. */
  predicate TokensKept(before: Db, after: Db) {
    && (forall k | k in before.attempts :: k in after.attempts && after.attempts[k].token == before.attempts[k].token)
    && (forall k | k in after.attempts && k !in before.attempts :: after.attempts[k].token !in UsedTokens(before))
    && (forall k, l | k in after.attempts && l in after.attempts && k !in before.attempts && l !in before.attempts ::
          k == l)
  }

  predicate ActiveKept(before: Db, after: Db) {
    forall i | i in after.imports && ActiveIntake(after.imports[i]) ::
      i in before.imports && ActiveIntake(before.imports[i])
      && after.imports[i].source == before.imports[i].source && after.imports[i].sha256 == before.imports[i].sha256
  }

  lemma FrameJob(before: Db, after: Db, j: ImportId)
    requires j in before.jobs && JobInv(before, j) && SameJob(before, after, j) && FactsGrow(before.facts, after.facts)
    ensures JobInv(after, j)
  {
    forall n: nat | AttemptKey(j, n) in after.attempts
      ensures AttemptData(after, AttemptKey(j, n), after.jobs[j], after.imports[j].source)
    {
      assert SameAttempt(before, after, AttemptKey(j, n));
    }
    forall n: nat ensures AttemptKey(j, n) in after.attempts <==> 1 <= n <= after.jobs[j].attemptCount {
      assert SameAttempt(before, after, AttemptKey(j, n));
    }
  }

  lemma FrameEvolves(before: Db, after: Db, j: ImportId)
    requires SameJob(before, after, j)
    ensures JobEvolves(before, after, j)
  {
    forall k | k in before.attempts && k.job == j ensures AttemptEvolves(before, after, k) {
      assert SameAttempt(before, after, AttemptKey(j, k.number));
    }
  }

  lemma TokensStayUnique(before: Db, after: Db)
    requires TokensUnique(before) && TokensKept(before, after)
    ensures TokensUnique(after) && UsedGrow(before, after)
  {
    forall t | t in UsedTokens(before) ensures t in UsedTokens(after) {
      var k :| k in before.attempts && before.attempts[k].token == t;
      assert after.attempts[k].token == t;
    }
    forall k, l | k in after.attempts && l in after.attempts && after.attempts[k].token == after.attempts[l].token
      ensures k == l
    {
      if k in before.attempts {
        assert before.attempts[k].token in UsedTokens(before);
      }
      if l in before.attempts {
        assert before.attempts[l].token in UsedTokens(before);
      }
    }
  }

  /** A step that writes only the jobs in `touched` keeps the invariant if those jobs do. */
  lemma Assemble(before: Db, after: Db, touched: set<ImportId>)
    requires Inv(before) && Shape(after) && TokensKept(before, after) && ActiveUnique(after)
    requires FactsGrow(before.facts, after.facts)
    requires forall j: ImportId | j !in touched :: SameJob(before, after, j)
    requires forall j | j in touched && j in after.jobs :: JobInv(after, j)
    requires forall j | j in touched :: JobEvolves(before, after, j)
    ensures Inv(after) && Evolves(before, after)
  {
    TokensStayUnique(before, after);
    forall j | j in after.jobs ensures JobInv(after, j) {
      if j !in touched {
        assert SameJob(before, after, j);
        FrameJob(before, after, j);
      }
    }
    forall j: ImportId ensures JobEvolves(before, after, j) {
      if j !in touched {
        FrameEvolves(before, after, j);
      }
    }
  }

  lemma ActiveStaysUnique(before: Db, after: Db)
    requires ActiveUnique(before) && ActiveKept(before, after)
    ensures ActiveUnique(after)
  {
  }
}
