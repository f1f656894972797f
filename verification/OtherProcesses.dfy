/**
  What other processes can do to a worker's attempt: every run of the system in
  which nobody else presents the worker's token leaves its rows and issues alone,
  and its claim too while the lease is live. So the fence alone provides the
  environment that staging and publication rely on.
 */
module OtherProcesses {
  import opened Tables
  import opened QueueSpec
  import opened QueueInvariant
  import opened QueueSafety
  import opened QueueFrames
  import opened QueueTermination
  import opened QueueService
  import opened PublishTransaction
  import opened ImportSystem
  import opened SystemRuns
  import opened AttemptLimits
  import opened Staging

  // ----- One step -----

  lemma ClaimLeavesRows(db: Db, j: ImportId, worker: string, lease: Time, now: Time, token: Token, k: AttemptKey)
    requires j in db.jobs && k in db.attempts && k in db.staged && k in db.issues
    ensures RowsLeft(db, After(db, Claim(db, j, worker, lease, now, token)), k)
  {
    hide WorkerAccepted, ClaimedJob, NewAttempt, ExpiredAttempt, LeaseKeys;
  }

  lemma ParseLeavesRows(db: Db, op: Op, now: Time, k: AttemptKey, token: Token)
    requires Enabled(db, op, now) && op.OpParse? && OwnAttempt(db, k, token) && !Presents(op, k.job, token)
    requires k in db.staged && k in db.issues
    ensures RowsLeft(db, After(db, Perform(db, op, now)), k)
  {
    hide HoldsLease, BatchConstraints, ParsedJob, ParsedAttempt;
  }

  lemma FencedLeavesRows(db: Db, op: Op, now: Time, k: AttemptKey)
    requires Enabled(db, op, now) && k in db.staged && k in db.issues
    requires op.OpHeartbeat? || op.OpPhase? || op.OpRetry? || op.OpComplete? || op.OpObjectFailure?
    ensures RowsLeft(db, After(db, Perform(db, op, now)), k)
  {
    hide RunningKeys, HoldsLease, LockedLiveClaim, ValidFor, FinishedAttempt, RetriedAttempt, BeatenJob, FinishedJob,
         RetriedJob;
  }

  lemma QueueLeavesRows(db: Db, op: Op, now: Time, k: AttemptKey, token: Token)
    requires Enabled(db, op, now) && OwnAttempt(db, k, token) && !Presents(op, k.job, token) && k in db.staged
             && k in db.issues
    ensures RowsLeft(db, After(db, Perform(db, op, now)), k)
  {
    hide HasConflictIssue, RequeuedJob, NewJob, ExistsActive, LeaseKeys, ExhaustedJob, ExpiredAttempt, Claim, Heartbeat,
         AdvancePhase, RecordParseBatch, ScheduleRetry, CompleteJob, StoredObjectFailure, RowsLeft, Presents;
    match op
    case OpClaim(j, worker, lease, t) =>
      EnabledClaim(db, op, now);
      ClaimLeavesRows(db, j, worker, lease, now, t, k);
    case OpParse(_, _, _, _, _) => ParseLeavesRows(db, op, now, k, token);
    case OpCreate(_, _, _, _) => IntakeLeavesRows(db, op, now, k);
    case OpEnqueue(_, _) => IntakeLeavesRows(db, op, now, k);
    case OpReceived(_, _) => IntakeLeavesRows(db, op, now, k);
    case OpIntakeFailed(_, _) => IntakeLeavesRows(db, op, now, k);
    case OpRequeue(_, _) => IntakeLeavesRows(db, op, now, k);
    case OpExhaust(_) => IntakeLeavesRows(db, op, now, k);
    case _ => FencedLeavesRows(db, op, now, k);
  }

  lemma IntakeLeavesRows(db: Db, op: Op, now: Time, k: AttemptKey)
    requires Enabled(db, op, now) && k in db.staged && k in db.issues
    requires op.OpCreate? || op.OpEnqueue? || op.OpReceived? || op.OpIntakeFailed? || op.OpRequeue? || op.OpExhaust?
    ensures RowsLeft(db, After(db, Perform(db, op, now)), k)
  {
    hide HasConflictIssue, RequeuedJob, NewJob, ExistsActive, LeaseKeys, ExhaustedJob, ExpiredAttempt;
  }

  /** A committing publication writes the rows of the attempt whose token it presents, and no others. */
  lemma CommitLeavesRows(s: System, t: System, w: Worker, maximum: nat, finished: Time, k: AttemptKey, token: Token)
    requires SystemInv(s) && CommitNext(s, w, maximum, finished, t) && OwnAttempt(s.db, k, token)
    requires k in s.db.staged && k in s.db.issues && !(s.sessions[w].k.job == k.job && s.sessions[w].token == token)
    ensures RowsLeft(s.db, t.db, k)
  {
    hide Inv, SameJob, SameSource, FactsGrow, SnapshotOutcome, Collides, Bump, SystemInv, AttemptConstraints,
         AttemptData, JobConstraints, Coupled, HoldsLease;
    LockedRowsCurrent(s, w);
    SystemShape(s);
    var mine := s.sessions[w].k;
    if mine == k {
      LeasedJob(s.db, k.job, s.sessions[w].token, s.sessions[w].txn.value.started);
      NewestFacts(s.db, k.job);
      RunningCarriesToken(s.db.attempts[k], k.number, s.db.jobs[k.job]);
    }
  }

  lemma HasRows(db: Db, k: AttemptKey)
    requires Shape(db) && k in db.attempts
    ensures k in db.staged && k in db.issues && k.job in db.jobs
  {
  }

  /** A step that does not present the attempt's token leaves its rows and issues alone. */
  lemma StepLeavesRows(s: System, step: Step, t: System, k: AttemptKey, token: Token)
    requires SystemInv(s) && Next(s, step, t) && OwnAttempt(s.db, k, token) && !StepPresents(s, step, k.job, token)
    ensures RowsLeft(s.db, t.db, k)
  {
    hide SystemInv, Perform, Enabled, SnapshotOutcome, Install, Collides, Bump, HoldsLease, Locked, Presents, Inv,
         Shape, EnterNext, AcquireNext, BeginNext, LockNext, AbortNext;
    SystemShape(s);
    HasRows(s.db, k);
    match step
    case Transact(op, now) => QueueLeavesRows(s.db, op, now, k, token);
    case Commit(w, maximum, finished) => CommitLeavesRows(s, t, w, maximum, finished, k, token);
    case _ => QuietStep(s, step, t);
  }

  lemma QuietStep(s: System, step: Step, t: System)
    requires Next(s, step, t) && !step.Transact? && !step.Commit?
    ensures t.db.staged == s.db.staged && t.db.issues == s.db.issues && t.db.jobs == s.db.jobs
            && t.db.attempts == s.db.attempts
  {
    hide HoldsLease, Locked;
  }

  /** A step whose clock, if it reads one, shows `now` or earlier. */
  predicate Early(step: Step, now: Time) {
    step.Transact? ==> step.now <= now
  }

  lemma QueueLeavesClaim(db: Db, op: Op, when: Time, j: ImportId, token: Token)
    requires Inv(db) && Enabled(db, op, when) && HoldsLease(db, j, token, when) && !Presents(op, j, token)
    ensures var d := After(db, Perform(db, op, when));
            j in d.jobs && d.jobs[j] == db.jobs[j]
  {
    hide Inv, Keeps, Heartbeat, AdvancePhase, RecordParseBatch, ScheduleRetry, CompleteJob, StoredObjectFailure,
         HasConflictIssue, WorkerAccepted, Claim, LeaseKeys, Exhaust, Enqueue, CreateIntake, ConfirmFailed,
         ConfirmReceived;
    if j !in RowLocks(op) {
      PerformKeeps(db, op, when);
      KeptRow(db, After(db, Perform(db, op, when)), RowLocks(op), j);
    } else if op.OpHeartbeat? || op.OpPhase? || op.OpRetry? || op.OpComplete? || op.OpParse? || op.OpObjectFailure? {
      StaleTransactFails(db, op, when, j, op.token);
    }
  }

  /** Nor does it touch the claim, if its clock shows a time at which the lease is live. */
  lemma StepLeavesClaim(s: System, step: Step, t: System, k: AttemptKey, token: Token, now: Time)
    requires SystemInv(s) && Next(s, step, t) && OwnsClaim(s.db, k, token, now) && !StepPresents(s, step, k.job, token)
             && Early(step, now)
    ensures OwnsClaim(t.db, k, token, now) && t.db.jobs[k.job] == s.db.jobs[k.job]
  {
    hide Perform, Enabled, SnapshotOutcome, Install, Collides, Bump, Locked, Presents, SessionInv, Inv, Holds;
    match step
    case Transact(op, when) => QueueLeavesClaim(s.db, op, when, k.job, token);
    case Commit(w, maximum, finished) =>
      if s.sessions[w].k.job == k.job {
        CommitHoldsToken(s, w, k.job);
      }
      CommitFinishes(s, t, w, maximum, finished, k.job);
    case _ =>
  }

  lemma CommitHoldsToken(s: System, w: Worker, j: ImportId)
    requires SystemInv(s) && InTransaction(s, w) && s.sessions[w].txn.value.locked && s.sessions[w].k.job == j
    ensures HasToken(s.db, j, s.sessions[w].token)
  {
    hide Inv, SameJob, SameSource, FactsGrow, SystemInv;
    LockedRowsCurrent(s, w);
  }

  // ----- Runs of others -----

  /** A run from `d` to `d'` in which no step presents the token. */
  ghost predicate OthersRun(states: seq<System>, steps: seq<Step>, d: Db, d': Db, k: AttemptKey, token: Token,
                            now: Time) {
    && IsRun(states, steps) && SystemInv(states[0]) && states[0].db == d && states[|steps|].db == d'
    && forall i | 0 <= i < |steps| :: !StepPresents(states[i], steps[i], k.job, token) && Early(steps[i], now)
  }

  lemma {:induction false} RunLeaves(states: seq<System>, steps: seq<Step>, i: nat, k: AttemptKey, token: Token,
                                     now: Time)
    requires IsRun(states, steps) && SystemInv(states[0]) && i < |states|
    requires forall h | 0 <= h < i :: !StepPresents(states[h], steps[h], k.job, token) && Early(steps[h], now)
    ensures OwnAttempt(states[0].db, k, token) ==> RowsLeft(states[0].db, states[i].db, k)
    ensures OwnsClaim(states[0].db, k, token, now) ==>
              OwnsClaim(states[i].db, k, token, now) && states[i].db.jobs[k.job] == states[0].db.jobs[k.job]
  {
    hide SystemInv, Next, Evolves, StepPresents, HoldsLease;
    if i == 0 {
      SystemShape(states[0]);
      if OwnAttempt(states[0].db, k, token) {
        HasRows(states[0].db, k);
      }
    } else {
      RunLeaves(states, steps, i - 1, k, token, now);
      RunSafe(states, steps, 0, i - 1);
      if OwnAttempt(states[0].db, k, token) {
        OwnStays(states[0].db, states[i - 1].db, k, token);
        StepLeavesRows(states[i - 1], steps[i - 1], states[i], k, token);
      }
      if OwnsClaim(states[0].db, k, token, now) {
        StepLeavesClaim(states[i - 1], steps[i - 1], states[i], k, token, now);
      }
    }
  }

  /** Whatever the database, what the others do is some such run. */
  ghost predicate RunsOfOthers(others: Others, k: AttemptKey, token: Token, now: Time) {
    forall d: Db | Inv(d) ::
      exists states: seq<System>, steps: seq<Step> :: OthersRun(states, steps, d, others(d), k, token, now)
  }

  /** The fence discharges what staging and publication assume of other processes. */
  lemma OthersAreLegal(others: Others, k: AttemptKey, token: Token, now: Time)
    requires RunsOfOthers(others, k, token, now)
    ensures Legal(others) && LeavesAttempt(others, k, token) && LeavesClaim(others, k, token, now)
  {
    hide SystemInv, Next, Evolves, StepPresents, Inv, HoldsLease, RowsLeft, OwnAttempt, OwnsClaim;
    forall d: Db | Inv(d)
      ensures Inv(others(d)) && Evolves(d, others(d))
      ensures OwnAttempt(d, k, token) ==> RowsLeft(d, others(d), k)
      ensures OwnsClaim(d, k, token, now)
              ==> OwnsClaim(others(d), k, token, now) && k.job in d.jobs && k.job in others(d).jobs
                  && others(d).jobs[k.job] == d.jobs[k.job]
    {
      var states: seq<System>, steps: seq<Step> :| OthersRun(states, steps, d, others(d), k, token, now);
      RunLeaves(states, steps, |steps|, k, token, now);
      RunSafe(states, steps, 0, |steps|);
      SystemShape(states[|steps|]);
      if OwnsClaim(d, k, token, now) {
        OwnedJob(d, k, token, now);
        OwnedJob(others(d), k, token, now);
      }
    }
  }

  lemma OwnedJob(db: Db, k: AttemptKey, token: Token, now: Time)
    requires OwnsClaim(db, k, token, now)
    ensures k.job in db.jobs
  {
  }

  /** Others that run before every batch, each time reading clocks that the worker's has reached. */
  lemma EnvironmentOccurs(others: nat -> Others, k: AttemptKey, token: Token, clock: nat -> Time)
    requires forall b: nat :: RunsOfOthers(others(b), k, token, clock(b))
    ensures Environment(others, k, token) && Unhindered(others, k, token, clock)
  {
    hide RunsOfOthers, Legal, LeavesAttempt, LeavesClaim;
    forall b: nat
      ensures Legal(others(b)) && LeavesAttempt(others(b), k, token) && LeavesClaim(others(b), k, token, clock(b))
    {
      OthersAreLegal(others(b), k, token, clock(b));
    }
  }

  /**
    For instance, any queue or intake transaction that does not present the token: a
    claim of the same job, an expiry, an operator's requeue.
   */
  lemma TransactionOfOthers(others: Others, op: Op, when: Time, k: AttemptKey, token: Token, now: Time)
    requires forall d: Db :: others(d) == if Enabled(d, op, when) then After(d, Perform(d, op, when)) else d
    requires !Presents(op, k.job, token) && when <= now
    ensures RunsOfOthers(others, k, token, now)
  {
    hide Perform, Enabled, Presents, Inv, Bump, RowLocks;
    forall d: Db | Inv(d)
      ensures exists states: seq<System>, steps: seq<Step> :: OthersRun(states, steps, d, others(d), k, token, now)
    {
      var s := System(d, map[], map[]);
      if Enabled(d, op, when) {
        var t := System(others(d), Bump(map[], RowLocks(op)), map[]);
        assert Next(s, Transact(op, when), t);
        assert OthersRun([s, t], [Transact(op, when)], d, others(d), k, token, now);
      } else {
        assert OthersRun([s], [], d, others(d), k, token, now);
      }
    }
  }
}
