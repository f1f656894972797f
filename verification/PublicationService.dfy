/** The publication transaction as it runs on the tables. */
module PublicationService {
  import opened Results
  import opened Tables
  import opened QueueSpec
  import opened QueueInvariant
  import opened QueueSafety
  import opened QueueService
  import opened Publication
  import opened PublishTransaction

  lemma LivePlan(db: Db, k: AttemptKey, token: Token, maximum: nat, started: Time, finished: Time)
    requires Inv(db) && maximum >= 1
    ensures HoldsLease(db, k.job, token, started) && k == Newest(db, k.job) ==>
              && k.job in db.jobs && k.job in db.imports && k in db.attempts && k in db.staged && k in db.issues
              && InRowOrder(db.staged[k]) && RowsUnique(db.staged[k])
              && ValidFor(PlanOf(db, k, db.master, maximum).counts,
                          if PlanOf(db, k, db.master, maximum).PublishPlan? then Published else Rejected)
              && PublishOnce(db, k, token, db.master, maximum, started, finished)
                == ApplyPlan(db, k, PlanOf(db, k, db.master, maximum), finished)
    ensures !(HoldsLease(db, k.job, token, started) && k == Newest(db, k.job)) ==>
              PublishOnce(db, k, token, db.master, maximum, started, finished) == Err(ClaimLost)
  {
    hide Inv, AttemptMatchesJob, JobConstraints, Coupled, Planned, RunningKeys, ApplyPlan, StagedRowConstraints,
         KeepsValues, RowsLinked, ValidFor, IssuesUnique, InRowOrder, RowsUnique;
    LiveClaimDecides(db, k.job, token, started);
    if HoldsLease(db, k.job, token, started) && k == Newest(db, k.job) {
      LeaseMeansJob(db, k.job, token, started);
      NewestFacts(db, k.job);
      RunningNewest(db.attempts[k], k.number, db.jobs[k.job]);
      RunningRowsFresh(db, k, db.jobs[k.job], db.imports[k.job].source);
      PlannedFits(db.staged[k], db.imports[k.job].source, db.master, db.facts, maximum);
    }
  }

  lemma LeaseMeansJob(db: Db, j: ImportId, token: Token, now: Time)
    requires HoldsLease(db, j, token, now)
    ensures j in db.jobs && db.jobs[j].status == Processing
  {
  }

  /** The issues of a file that validation rejects, and its terminal transition. */
  method StoreRejection(q: ImportQueue, k: AttemptKey, rows: seq<StagedRow>, issues: seq<Issue>, counts: Counts,
                        finished: Time)
    returns (error: Option<QueueError>)
    requires k.job in q.jobs && k in q.attempts && k in q.staged && k in q.issues && ValidFor(counts, Rejected)
    modifies q
    ensures q.Contents()
            == After(old(q.Contents()), ApplyPlan(old(q.Contents()), k, RejectPlan(rows, issues, counts), finished))
    ensures error == ErrorOf(ApplyPlan(old(q.Contents()), k, RejectPlan(rows, issues, counts), finished))
  {
    hide ValidFor, IssuesUnique, FinishedJob, FinishedAttempt;
    if !IssuesUnique(q.issues[k] + issues) {
      return Some(ConstraintViolated);
    }
    q.attempts := q.attempts[k := q.attempts[k].(phase := Validate)];
    q.staged := q.staged[k := rows];
    q.issues := q.issues[k := q.issues[k] + issues];
    q.FinishRows(k, Rejected, counts, ValidationRejectedCode, finished);
    error := None;
  }

  /** The links and facts of a file that publication accepts, and its terminal transition. */
  method StorePublication(q: ImportQueue, k: AttemptKey, rows: seq<StagedRow>, facts: Facts, ghost inserted: Facts,
                          counts: Counts, finished: Time)
    requires k.job in q.jobs && k in q.attempts && k in q.staged && k in q.issues && ValidFor(counts, Published)
             && facts == q.facts + inserted
    modifies q
    ensures ApplyPlan(old(q.Contents()), k, PublishPlan(rows, inserted, counts), finished).Ok?
    ensures q.Contents()
            == After(old(q.Contents()), ApplyPlan(old(q.Contents()), k, PublishPlan(rows, inserted, counts), finished))
  {
    hide ValidFor, IssuesUnique, FinishedJob, FinishedAttempt;
    q.attempts := q.attempts[k := q.attempts[k].(phase := Publish)];
    q.staged := q.staged[k := rows];
    q.facts := facts;
    q.FinishRows(k, Published, counts, NoErrorCode, finished);
  }

  /** `_publish_once`: fence, validate, link or insert, and finish the job whose row it holds. */
  method PublishClaim(q: ImportQueue, k: AttemptKey, token: Token, chunk: nat, maximum: nat, started: Time,
                      finished: Time)
    returns (error: Option<QueueError>)
    requires Inv(q.Contents()) && chunk >= 1 && maximum >= 1
    modifies q
    ensures q.Contents()
            == After(old(q.Contents()),
                     PublishOnce(old(q.Contents()), k, token, old(q.master), maximum, started, finished))
    ensures error == ErrorOf(PublishOnce(old(q.Contents()), k, token, old(q.master), maximum, started, finished))
  {
    hide Inv, PublishOnce, Planned, RunningKeys, ValidFor, HoldsLease, IssuesUnique, InRowOrder, RowsUnique,
         QueueSpec.LockedLiveClaim, FinishedJob, FinishedAttempt;
    var savepoint := q.Contents();
    LivePlan(savepoint, k, token, maximum, started, finished);
    LiveRows(savepoint, k.job, token, started);
    var live := q.LockedLiveClaim(k.job, token, started);
    if live.Err? {
      return Some(live.error);
    }
    if live.value != k {
      return Some(ClaimLost);
    }
    var publisher := new Publisher(q.imports[k.job].source, q.master, chunk, maximum, q.staged[k], q.facts);
    ghost var plan := PlanOf(savepoint, k, savepoint.master, maximum);
    var verdict := publisher.Publish();
    match verdict {
      case RejectedFile(counts) =>
        error := StoreRejection(q, k, publisher.rows, publisher.issues, counts, finished);
      case PublishedFile(counts) =>
        StorePublication(q, k, publisher.rows, publisher.facts, plan.inserted, counts, finished);
        error := None;
    }
  }
}
