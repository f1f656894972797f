/**
  Rejected jobs over whole runs: they stay as they are until an operator requeues
  them, and what decides whether that is possible.
 */
module RejectedRuns {
  import opened Tables
  import opened QueueSpec
  import opened QueueInvariant
  import opened QueueSafety
  import opened QueueTermination
  import opened ReferenceValidation
  import opened Publication
  import opened PublishTransaction
  import opened PublicationOutcomes
  import opened ImportSystem
  import opened PublicationRefinement
  import opened SystemRuns
  import opened AttemptLimits
  import opened OtherProcesses
  import Staging
  import IssueCollection

  lemma OverHasNoToken(db: Db, j: ImportId, token: Token)
    requires Inv(db) && j in db.jobs && db.jobs[j].status != Processing
    ensures !HasToken(db, j, token)
  {
    hide Inv;
    if HasToken(db, j, token) {
      TokenMeansProcessing(db, j, token);
    }
  }

  /** Nobody adds rows or issues to the attempts of a finished job. */
  lemma OverKeepsRows(s: System, step: Step, t: System, k: AttemptKey)
    requires SystemInv(s) && Next(s, step, t) && k in s.db.attempts && k.job in s.db.jobs
             && s.db.jobs[k.job].status != Processing
    ensures Staging.RowsLeft(s.db, t.db, k)
  {
    hide SystemInv, Next, Inv, StepPresents, HasToken;
    SystemShape(s);
    var token := s.db.attempts[k].token;
    OverHasNoToken(s.db, k.job, token);
    HasRows(s.db, k);
    if StepPresents(s, step, k.job, token) {
      StaleStepChangesNothing(s, step, t, k.job, token);
    } else {
      StepLeavesRows(s, step, t, k, token);
    }
  }

  /** Nor to the job itself, so an operator sees the same job and the same stored conflicts. */
  lemma OverStep(s: System, step: Step, t: System, j: ImportId)
    requires SystemInv(s) && Next(s, step, t) && j in s.db.jobs && s.db.jobs[j].status == Rejected
    requires !(step.Transact? && RequeuesJob(step.op, j))
    ensures j in t.db.jobs && t.db.jobs[j] == s.db.jobs[j]
    ensures HasConflictIssue(t.db, j) <==> HasConflictIssue(s.db, j)
  {
    hide SystemInv, Next, Evolves, RequeuesJob, JobConstraints, Coupled, AttemptMatchesJob, AttemptData, TokensUnique,
         ActiveUnique, Inv;
    OverStays(s, step, t, j);
    StepSafe(s, step, t);
    SystemShape(s);
    SystemShape(t);
    JobFacts(s.db, j);
    JobFacts(t.db, j);
    forall k: AttemptKey | k in s.db.attempts && k.job == j
      ensures k in s.db.issues && k in t.db.issues && t.db.issues[k] == s.db.issues[k]
    {
      OverKeepsRows(s, step, t, k);
    }
    assert forall k: AttemptKey | k.job == j :: k in t.db.attempts <==> k in s.db.attempts by {
      forall k: AttemptKey | k.job == j ensures k in t.db.attempts <==> k in s.db.attempts {
        assert k == AttemptKey(j, k.number);
      }
    }
  }

  /** A rejected job can be requeued later exactly when it can be requeued now, unless it was requeued in between. */
  lemma {:induction false} RequeueLater(states: seq<System>, steps: seq<Step>, i: nat, n: nat, j: ImportId,
                                        additional: int, now: Time, later: Time)
    requires IsRun(states, steps) && SystemInv(states[0]) && i <= n < |states|
    requires j in states[i].db.jobs && states[i].db.jobs[j].status == Rejected
    requires forall h | i <= h < n :: !(steps[h].Transact? && RequeuesJob(steps[h].op, j))
    ensures j in states[n].db.jobs && states[n].db.jobs[j] == states[i].db.jobs[j]
    ensures HasConflictIssue(states[n].db, j) <==> HasConflictIssue(states[i].db, j)
    ensures Requeue(states[n].db, j, additional, later).Ok? <==> Requeue(states[i].db, j, additional, now).Ok?
    decreases n
  {
    hide SystemInv, Next, Evolves, RequeuesJob, HasConflictIssue, Inv;
    if i < n {
      RequeueLater(states, steps, i, n - 1, j, additional, now, later);
      RunSafe(states, steps, n - 1, n - 1);
      OverStep(states[n - 1], steps[n - 1], states[n], j);
    }
    RunSafe(states, steps, i, n);
    SystemShape(states[i]);
    SystemShape(states[n]);
    IntakeAndJob(states[i].db, j);
    IntakeAndJob(states[n].db, j);
  }

  /** When a commit rejects, the issues that decide are those found against its snapshot. */
  lemma CommitGuard(s: System, t: System, w: Worker, maximum: nat, finished: Time, additional: int, now: Time)
    requires SystemInv(s) && CommitNext(s, w, maximum, finished, t) && maximum >= 2
    ensures var j := s.sessions[w].k.job;
            && j in s.db.jobs && j in t.db.jobs && s.sessions[w].k in s.db.staged
            && var session := s.sessions[w];
               var before := session.txn.value.snapshot;
               var all := AllRowIssues(s.db.staged[session.k], session.source, before.master, before.facts);
               (t.db.jobs[j].status == Rejected ==>
                  (Requeue(t.db, j, additional, now).Ok?
                   <==> MayAdd(s.db.jobs[j], additional) && !ShowsConflict(IssueCollection.Details(all, maximum))))
  {
    hide SystemInv, PlanOf, ApplyPlan, PlanFits, Install, Collides, SnapshotOutcome, Planned, FactsGrow, RowsUnique,
         InRowOrder, Requeue, AllRowIssues, ShowsConflict, IssueCollection.Details, Inv;
    CommitApplies(s, w, maximum, finished);
    LockedAttempt(s, w);
    SystemShape(s);
    var session := s.sessions[w];
    var k, before := session.k, session.txn.value.snapshot;
    PlanIsPlanned(before, k, before.master, maximum);
    var plan := PlanOf(before, k, before.master, maximum);
    AppliedCounts(s.db, k, plan, finished);
    if plan.RejectPlan? {
      RejectedGuard(s.db, k, s.db.staged[k], session.source, before.master, before.facts, maximum, finished, additional,
                    now);
    }
  }
}
