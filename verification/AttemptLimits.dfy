/**
  What becomes of a job whose lease has run out on its last attempt: it fails,
  unless a publication that began in time still holds its row.
 */
module AttemptLimits {
  import opened Results
  import Text
  import RetryDelay
  import opened Tables
  import opened QueueSpec
  import opened QueueInvariant
  import opened QueueSafety
  import opened QueueFrames
  import opened QueueTermination
  import opened PublishTransaction
  import opened ImportSystem
  import opened PublicationRefinement
  import opened SystemRuns

  /** The last attempt of a job, under a lease that runs out at `expiry`. */
  predicate LastAttempt(db: Db, j: ImportId, expiry: Time) {
    && j in db.jobs && db.jobs[j].status == Processing && db.jobs[j].leaseExpiresAt == Some(expiry)
    && db.jobs[j].attemptCount >= db.jobs[j].maxAttempts
  }

  /** A step whose clock, if it reads one to look at leases, shows the expiry or later. */
  predicate Late(step: Step, expiry: Time) {
    match step
    case Transact(_, now) => now >= expiry
    case Begin(_, now) => now >= expiry
    case _ => true
  }

  predicate Finished(job: Job) {
    job.status == Published || job.status == Rejected
  }

  // ----- One step -----

  lemma CommitFinishes(s: System, t: System, w: Worker, maximum: nat, finished: Time, j: ImportId)
    requires SystemInv(s) && CommitNext(s, w, maximum, finished, t) && j in s.db.jobs
    ensures j in t.db.jobs
    ensures if s.sessions[w].k.job == j then Holds(s, w, Newest(s.db, j)) && Finished(t.db.jobs[j])
            else t.db.jobs[j] == s.db.jobs[j]
  {
    hide Inv, PlanFits, ApplyPlan, SameJob, SnapshotOutcome, Install, Collides, Bump, SystemInv, InsertsOnly;
    var plan := CommitPlan(s, t, w, maximum, finished);
    AppliedCounts(s.db, s.sessions[w].k, plan, finished);
    CommitSafe(s, t, w, maximum, finished);
    if s.sessions[w].k.job != j {
      SameJobStatus(s.db, t.db, j);
    }
  }

  /** An expired job on its last attempt stays as it is, fails, or is finished by the publication that holds its row. */
  lemma AtLimitStep(s: System, step: Step, t: System, j: ImportId, expiry: Time)
    requires SystemInv(s) && Next(s, step, t) && LastAttempt(s.db, j, expiry) && Late(step, expiry)
    ensures j in t.db.jobs
    ensures || t.db.jobs[j] == s.db.jobs[j]
            || (step.Transact? && t.db.jobs[j] == ExhaustedJob(s.db.jobs[j], step.now))
            || (step.Commit? && Holds(s, step.w, Newest(s.db, j)) && Finished(t.db.jobs[j]))
  {
    hide SystemInv, Perform, Enabled, SnapshotOutcome, Install, Collides, Bump, HoldsLease, Locked, ExhaustedJob, Holds,
         Finished;
    SystemShape(s);
    match step
    case Transact(op, now) => QueueOnlyFails(s.db, op, now, j);
    case Commit(w, maximum, finished) => CommitFinishes(s, t, w, maximum, finished, j);
    case _ =>
  }

  /** Nothing but failing can happen to the job in one late step. */
  ghost predicate OnlyFails(s: System, j: ImportId, expiry: Time)
    requires j in s.db.jobs
  {
    forall step, t | Next(s, step, t) && Late(step, expiry) ::
      j in t.db.jobs && (t.db.jobs[j] == s.db.jobs[j] || t.db.jobs[j].status == Failed)
  }

  /** A publication holds the job's row and can commit. */
  ghost predicate CommitPending(s: System, w: Worker, maximum: nat, j: ImportId)
    requires SystemInv(s) && j in s.db.jobs
  {
    Holds(s, w, Newest(s.db, j)) && maximum >= 1 && CanCommit(s, w, maximum)
  }

  /** An expired job on its last attempt can only fail exactly when no publication that can commit holds its row. */
  lemma OnlyFailsExactly(s: System, j: ImportId, expiry: Time)
    requires SystemInv(s) && LastAttempt(s.db, j, expiry)
    ensures OnlyFails(s, j, expiry) <==> !(exists w, maximum: nat :: CommitPending(s, w, maximum, j))
  {
    hide SystemInv, Next, CanCommit;
    if exists w, maximum: nat :: CommitPending(s, w, maximum, j) {
      var w, maximum: nat :| CommitPending(s, w, maximum, j);
      CommitsExactly(s, w, maximum, expiry);
      var t :| Next(s, Commit(w, maximum, expiry), t);
      CommitOf(s, t, w, maximum, expiry);
      CommitFinishes(s, t, w, maximum, expiry, j);
    } else {
      forall step, t | Next(s, step, t) && Late(step, expiry)
        ensures j in t.db.jobs && (t.db.jobs[j] == s.db.jobs[j] || t.db.jobs[j].status == Failed)
      {
        FailsOrPending(s, step, t, j, expiry);
      }
    }
  }

  lemma FailsOrPending(s: System, step: Step, t: System, j: ImportId, expiry: Time)
    requires SystemInv(s) && Next(s, step, t) && LastAttempt(s.db, j, expiry) && Late(step, expiry)
    ensures j in t.db.jobs
    ensures t.db.jobs[j] == s.db.jobs[j] || t.db.jobs[j].status == Failed
            || (step.Commit? && CommitPending(s, step.w, step.maximum, j))
  {
    hide SystemInv, Next, CanCommit;
    AtLimitStep(s, step, t, j, expiry);
    if step.Commit? && Holds(s, step.w, Newest(s.db, j)) {
      CommitOf(s, t, step.w, step.maximum, step.finished);
      CommitsExactly(s, step.w, step.maximum, step.finished);
    }
  }

  lemma CommitOf(s: System, t: System, w: Worker, maximum: nat, finished: Time)
    requires Next(s, Commit(w, maximum, finished), t)
    ensures CommitNext(s, w, maximum, finished, t) && maximum >= 1
  {
    hide SnapshotOutcome, Install, Collides, Bump;
  }

  predicate AllUndisturbed(s: System) {
    forall w | w in s.sessions && s.sessions[w].txn.Some? :: s.sessions[w].txn.value.undisturbed
  }

  /** While no facts are entered by hand and the attempt has no issues: exactly when no session holds its row. */
  lemma OnlyFailsUnlessLocked(s: System, j: ImportId, expiry: Time)
    requires SystemInv(s) && LastAttempt(s.db, j, expiry) && AllUndisturbed(s)
    requires Newest(s.db, j) in s.db.issues && s.db.issues[Newest(s.db, j)] == []
    ensures OnlyFails(s, j, expiry) <==> !Locked(s, j)
  {
    hide SystemInv, OnlyFails, CanCommit, Inv, SameJob, SameSource, FactsGrow, HoldsLease;
    OnlyFailsExactly(s, j, expiry);
    if Locked(s, j) {
      var w :| w in s.sessions && s.sessions[w].k.job == j && s.sessions[w].txn.Some? && s.sessions[w].txn.value.locked;
      LockedRowsCurrent(s, w);
      UndisturbedCommits(s, w, 1, expiry);
      assert CommitPending(s, w, 1, j);
    }
  }

  // ----- Whole runs -----

  /** A finished job changes by an operator's requeue alone. */
  lemma OverStays(s: System, step: Step, t: System, j: ImportId)
    requires SystemInv(s) && Next(s, step, t) && j in s.db.jobs
             && (Finished(s.db.jobs[j]) || s.db.jobs[j].status == Failed)
    requires !(step.Transact? && RequeuesJob(step.op, j))
    ensures j in t.db.jobs && t.db.jobs[j] == s.db.jobs[j]
  {
    hide SystemInv, Perform, Enabled, SnapshotOutcome, Install, Collides, Bump, HoldsLease, Locked, Holds;
    match step
    case Transact(op, now) => QueueLeavesOver(s.db, op, now, j);
    case Commit(w, maximum, finished) =>
      LockedAttempt(s, w);
      CommitFinishes(s, t, w, maximum, finished, j);
    case _ =>
  }

  lemma OverHoldsNothing(db: Db, j: ImportId, token: Token, now: Time)
    requires j in db.jobs && db.jobs[j].status != Processing
    ensures LockedLiveClaim(db, j, token, now) == Err(ClaimLost)
    ensures forall imports: map<ImportId, Intake> ::
              LockedLiveClaim(db.(imports := imports), j, token, now) == Err(ClaimLost)
  {
    hide RunningKeys;
  }

  lemma FencedLeavesOver(db: Db, op: Op, now: Time, j: ImportId)
    requires Enabled(db, op, now) && j in db.jobs && db.jobs[j].status != Processing && RowLocks(op) == {j}
    requires op.OpHeartbeat? || op.OpPhase? || op.OpRetry? || op.OpComplete? || op.OpParse? || op.OpObjectFailure?
    ensures Perform(db, op, now).Err?
  {
    hide RunningKeys, HoldsLease, LockedLiveClaim, ValidFor, BatchConstraints, RetryDelay.BoundedDelay;
    var token := op.token;
    assert j in RowLocks(op);
    OverHoldsNothing(db, j, token, now);
  }

  lemma OtherJobKept(db: Db, op: Op, now: Time, j: ImportId)
    requires Enabled(db, op, now) && j in db.jobs && j !in RowLocks(op)
    requires op.OpHeartbeat? || op.OpPhase? || op.OpRetry? || op.OpComplete? || op.OpParse? || op.OpObjectFailure?
    ensures var d := After(db, Perform(db, op, now));
            j in d.jobs && d.jobs[j] == db.jobs[j]
  {
    hide RunningKeys, HoldsLease, LockedLiveClaim, ValidFor, BatchConstraints, ParsedAttempt, FinishedAttempt,
         RetriedAttempt, BeatenJob, ParsedJob, FinishedJob, RetriedJob;
    if op.OpParse? {
      LiveClaimJob(db, op.k.job, op.token, now);
    } else {
      LiveClaimJob(db, op.j, op.token, now);
      if op.OpObjectFailure? && MarkStoredObjectFailed(db, op.j, op.failure, now).Ok? {
        LiveClaimJob(MarkStoredObjectFailed(db, op.j, op.failure, now).value, op.j, op.token, now);
      }
    }
  }

  lemma ClaimsLeaveOver(db: Db, op: Op, now: Time, j: ImportId)
    requires Enabled(db, op, now) && j in db.jobs && (Finished(db.jobs[j]) || db.jobs[j].status == Failed)
             && !RequeuesJob(op, j)
    requires op.OpClaim? || op.OpExhaust? || op.OpRequeue?
    ensures var d := After(db, Perform(db, op, now));
            j in d.jobs && d.jobs[j] == db.jobs[j]
  {
    hide HasConflictIssue, WorkerAccepted, NewAttempt, ExpiredAttempt, LeaseKeys, Text.Strip, ExhaustedJob, ClaimedJob,
         RequeuedJob;
  }

  lemma QueueLeavesOver(db: Db, op: Op, now: Time, j: ImportId)
    requires Enabled(db, op, now) && j in db.jobs && (Finished(db.jobs[j]) || db.jobs[j].status == Failed)
             && !RequeuesJob(op, j)
    ensures var d := After(db, Perform(db, op, now));
            j in d.jobs && d.jobs[j] == db.jobs[j]
  {
    hide Claim, Exhaust, Requeue, ExistsActive, Text.Strip, NewJob, Heartbeat, AdvancePhase, RecordParseBatch,
         ScheduleRetry, CompleteJob, StoredObjectFailure;
    if op.OpHeartbeat? || op.OpPhase? || op.OpRetry? || op.OpComplete? || op.OpParse? || op.OpObjectFailure? {
      if j in RowLocks(op) {
        FencedLeavesOver(db, op, now, j);
      } else {
        OtherJobKept(db, op, now, j);
      }
    } else if op.OpClaim? || op.OpExhaust? || op.OpRequeue? {
      ClaimsLeaveOver(db, op, now, j);
    }
  }

  /** A transaction that began before the expiry had begun before every late step. */
  lemma {:induction false} TxnIsOlder(states: seq<System>, steps: seq<Step>, i: nat, g: nat, w: Worker, expiry: Time)
    requires IsRun(states, steps) && i <= g < |states| && forall h | i <= h < g :: Late(steps[h], expiry)
    requires InTransaction(states[g], w) && states[g].sessions[w].txn.value.started < expiry
    ensures InTransaction(states[i], w) && states[i].sessions[w].k == states[g].sessions[w].k
    ensures states[i].sessions[w].txn.value.started == states[g].sessions[w].txn.value.started
    decreases g
  {
    hide Next;
    if i < g {
      var s, step, t := states[g - 1], steps[g - 1], states[g];
      assert Next(s, step, t) && Late(step, expiry);
      if step.Begin? && step.w == w {
        TxnBegins(s, step, t, w);
        assert false;
      } else {
        TxnGoesOn(s, step, t, w);
        TxnIsOlder(states, steps, i, g - 1, w, expiry);
      }
    }
  }

  /** The publication by which step `g` finishes the job began before the expiry, and before state `i`. */
  predicate FinishedByHolder(states: seq<System>, steps: seq<Step>, i: nat, g: nat, n: nat, j: ImportId, expiry: Time)
    requires |states| == |steps| + 1 && i <= n < |states| && j in states[i].db.jobs && j in states[n].db.jobs
  {
    && i <= g < n && steps[g].Commit? && Holds(states[g], steps[g].w, Newest(states[i].db, j))
    && InTransaction(states[i], steps[g].w) && states[i].sessions[steps[g].w].k == Newest(states[i].db, j)
    && states[i].sessions[steps[g].w].txn.value.started < expiry
    && Finished(states[n].db.jobs[j])
  }

  ghost predicate NoneLeft(job: Job, job': Job, expiry: Time) {
    exists now: Time :: now >= expiry && job' == ExhaustedJob(job, now)
  }

  /**
    Over any late stretch of a run without requeues, a job whose last attempt has
    expired stays as it is, fails for good, or is finished by a publication that was
    already in its transaction when the stretch began.
   */
  lemma {:induction false} AtLimitFate(states: seq<System>, steps: seq<Step>, i: nat, n: nat, j: ImportId, expiry: Time)
    returns (g: nat)
    requires IsRun(states, steps) && SystemInv(states[0]) && i <= n < |states| && LastAttempt(states[i].db, j, expiry)
    requires forall h | i <= h < n :: Late(steps[h], expiry) && !(steps[h].Transact? && RequeuesJob(steps[h].op, j))
    ensures j in states[n].db.jobs
    ensures || states[n].db.jobs[j] == states[i].db.jobs[j]
            || NoneLeft(states[i].db.jobs[j], states[n].db.jobs[j], expiry)
            || FinishedByHolder(states, steps, i, g, n, j, expiry)
    decreases n
  {
    hide SystemInv, Next, Holds, ExhaustedJob, Evolves, RequeuesJob;
    g := i;
    if i < n {
      g := AtLimitFate(states, steps, i, n - 1, j, expiry);
      RunSafe(states, steps, n - 1, n - 1);
      var s, step, t := states[n - 1], steps[n - 1], states[n];
      if s.db.jobs[j] == states[i].db.jobs[j] {
        AtLimitStep(s, step, t, j, expiry);
        if t.db.jobs[j] != s.db.jobs[j] && step.Commit? && Finished(t.db.jobs[j]) {
          g := n - 1;
          HolderBegan(s, step.w, j, expiry);
          TxnIsOlder(states, steps, i, g, step.w, expiry);
        }
      } else {
        ExhaustedIsFailed(states[i].db.jobs[j]);
        OverStays(s, step, t, j);
      }
    }
  }

  lemma HolderBegan(s: System, w: Worker, j: ImportId, expiry: Time)
    requires SystemInv(s) && LastAttempt(s.db, j, expiry) && Holds(s, w, Newest(s.db, j))
    ensures InTransaction(s, w) && s.sessions[w].txn.value.started < expiry && s.sessions[w].k == Newest(s.db, j)
  {
    hide Inv, SameJob, SameSource, FactsGrow, SystemInv;
    LockedRowsCurrent(s, w);
  }

  lemma ExhaustedIsFailed(job: Job)
    ensures forall now: Time :: ExhaustedJob(job, now).status == Failed
  {
  }
}
