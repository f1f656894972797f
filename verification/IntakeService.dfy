/**
  Uploads, reconciliation and the routing of processing failures: sequences of
  queue transactions between which other processes may commit their own.
 */
module IntakeService {
  import opened Results
  import opened Text
  import opened Tables
  import opened QueueSpec
  import opened QueueInvariant
  import opened QueueSafety
  import opened QueueService

  lemma SafeStep(start: Db, d: Db, result: Commit)
    requires Inv(d) && Evolves(start, d) && Safe(d, result)
    ensures Inv(After(d, result)) && Evolves(start, After(d, result)) && Evolves(d, After(d, result))
  {
    hide Inv, Evolves;
    InvParts(d);
    EvolvesReflexive(d);
    if result.Ok? {
      EvolvesTransitive(start, d, result.value);
    }
  }

  // ----- Receiving an upload -----

  datatype StoreOutcome = StoredAs(version: string) | StorageFailed

  datatype IntakeResult = Existing(j: ImportId) | Created(j: ImportId) | Raised(error: QueueError)

  predicate ActiveCopy(db: Db, j: ImportId, source: Source, sha256: string) {
    j in db.imports && ActiveIntake(db.imports[j]) && db.imports[j].source == source && db.imports[j].sha256 == sha256
  }

  /** An upload of the content that is being received or was received. */
  predicate HasContent(i: Intake, source: Source, sha256: string) {
    (i.status == Receiving || i.status == Received) && i.source == source && i.sha256 == sha256
  }

  /** `_existing_active_import`. */
  method ExistingActiveImport(q: ImportQueue, source: Source, sha256: string) returns (found: Option<ImportId>)
    ensures found.Some? ==> ActiveCopy(q.Contents(), found.value, source, sha256)
    ensures found.Some? <==> ExistsActive(q.Contents(), source, sha256)
    ensures found.Some? <==> exists i | i in q.imports :: HasContent(q.imports[i], source, sha256)
    ensures found.Some? ==> found.value in q.imports && HasContent(q.imports[found.value], source, sha256)
  {
    var matching := set j | j in q.imports && ActiveCopy(q.Contents(), j, source, sha256);
    if matching == {} {
      assert forall j | j in q.imports :: ActiveCopy(q.Contents(), j, source, sha256) ==> j in matching;
      return None;
    }
    var j :| j in matching;
    found := Some(j);
  }

  /** The audit row and its job, in one transaction; a duplicate of an active upload breaks a unique constraint. */
  method CreateRows(q: ImportQueue, j: ImportId, source: Source, format: FileFormat, sha256: string, now: Time)
    returns (error: Option<QueueError>)
    modifies q
    ensures q.Contents() == After(old(q.Contents()), CreateIntake(old(q.Contents()), j, source, format, sha256, now))
    ensures error == ErrorOf(CreateIntake(old(q.Contents()), j, source, format, sha256, now))
  {
    hide ExistsActive;
    if j in q.imports || ExistsActive(q.Contents(), source, sha256) {
      return Some(ConstraintViolated);
    }
    q.imports := q.imports[j := Intake(source, format, sha256, Receiving, "", NoFailure, None, None)];
    error := q.EnqueueImport(j, 5, now);
  }

  /** `mark_received` and `enqueue_import` in one transaction. */
  method Confirm(q: ImportQueue, j: ImportId, version: string, now: Time) returns (error: Option<QueueError>)
    modifies q
    ensures q.Contents() == After(old(q.Contents()), ConfirmReceived(old(q.Contents()), j, version, now))
    ensures error == ErrorOf(ConfirmReceived(old(q.Contents()), j, version, now))
  {
    hide QueueSpec.MarkReceived, Enqueue;
    var savepoint := q.Contents();
    error := q.MarkReceived(j, version, now);
    if error.Some? {
      return;
    }
    error := q.EnqueueImport(j, 5, now);
    if error.Some? {
      q.Restore(savepoint);
    }
  }

  /** `mark_failed` and `enqueue_import` in one transaction. */
  method Reject(q: ImportQueue, j: ImportId, code: FailureCode, now: Time) returns (error: Option<QueueError>)
    modifies q
    ensures q.Contents() == After(old(q.Contents()), ConfirmFailed(old(q.Contents()), j, code, now))
    ensures error == ErrorOf(ConfirmFailed(old(q.Contents()), j, code, now))
  {
    hide QueueSpec.MarkFailed, Enqueue;
    var savepoint := q.Contents();
    error := q.MarkFailed(j, code, now);
    if error.Some? {
      return;
    }
    error := q.EnqueueImport(j, 5, now);
    if error.Some? {
      q.Restore(savepoint);
    }
  }

  /** A confirmed upload is received, and its job waits for a worker or for a parser. */
  lemma ConfirmedJob(db: Db, j: ImportId, version: string, now: Time)
    requires Inv(db) && j in db.jobs && ConfirmReceived(db, j, version, now).Ok?
    ensures var d := ConfirmReceived(db, j, version, now).value;
            && j in d.imports && d.imports[j].status == Received && d.imports[j].source == db.imports[j].source
            && d.imports[j].format == db.imports[j].format && d.imports[j].versionId == Strip(version)
            && j in d.jobs && d.jobs[j].status == (if d.imports[j].format == Csv then Queued else AwaitingParser)
  {
    hide Inv, JobInv, JobConstraints, Strip;
    JobFacts(db, j);
    JobRowFacts(db, j);
  }

  lemma CreatedRows(db: Db, j: ImportId, source: Source, format: FileFormat, sha256: string, now: Time)
    requires CreateIntake(db, j, source, format, sha256, now).Ok?
    ensures var d := CreateIntake(db, j, source, format, sha256, now).value;
            && j in d.imports && j in d.jobs && d.imports[j].source == source && d.imports[j].sha256 == sha256
            && d.imports[j].format == format
            && j !in db.imports && d.imports.Keys == db.imports.Keys + {j} && d.imports[j].status == Receiving
            && (j !in db.jobs ==>
                  d.jobs[j].status == WaitingForFile && d.jobs[j].maxAttempts == 5 && d.jobs[j].attemptCount == 0)
  {
    hide ExistsActive;
  }

  lemma StillThere(a: Db, b: Db, j: ImportId)
    requires Evolves(a, b)
    ensures j in a.imports ==> j in b.imports && IntakeEvolves(a.imports[j], b.imports[j])
    ensures j in a.jobs ==> j in b.jobs
  {
    hide FactsGrow, UsedGrow, UsedTokens;
    assert JobEvolves(a, b, j);
  }

  /** The confirmation of a stored upload is accepted. */
  predicate CanReceive(db: Db, j: ImportId, version: string) {
    |Strip(version)| > 0 && j in db.imports && db.imports[j].status == Receiving
  }

  lemma ConfirmExactly(db: Db, j: ImportId, version: string, now: Time)
    ensures var r := ConfirmReceived(db, j, version, now);
            && (r.Ok? <==> CanReceive(db, j, version)) && (r.Err? ==> r.error != ConstraintViolated)
            && After(db, r).imports.Keys == db.imports.Keys
  {
    hide NewJob, AdvancedJob, Strip;
  }

  /** Others that create no uploads. */
  ghost predicate CreatesNone(others: Others) {
    forall d: Db :: others(d).imports.Keys == d.imports.Keys
  }

  predicate SameUpload(db: Db, j: ImportId, source: Source, sha256: string) {
    j in db.imports && db.imports[j].source == source && db.imports[j].sha256 == sha256
  }

  /**
    `receive_sales_import`, with other processes running between its lookup, its
    insert and its confirmation. Whatever they do, a result names an upload of the
    same content and source, and a stored one is queued. The only upload it creates
    is a new one under `j`, and it raises exactly when it lost a race: against an
    insert whose upload is no longer active, or against a transition of its own upload.
   */
  method ReceiveSalesImport(q: ImportQueue, rawSource: string, format: FileFormat, sha256: string, j: ImportId,
                            store: StoreOutcome, now: Time, afterLookup: Others, afterConflict: Others,
                            whileStoring: Others) returns (r: IntakeResult)
    requires Inv(q.Contents()) && Legal(afterLookup) && Legal(afterConflict) && Legal(whileStoring)
    modifies q
    ensures Inv(q.Contents()) && Evolves(old(q.Contents()), q.Contents())
    ensures !r.Raised? ==> SameUpload(q.Contents(), r.j, Upper(Strip(rawSource)), sha256)
    ensures ExistsActive(old(q.Contents()), Upper(Strip(rawSource)), sha256) ==>
              && r.Existing? && ActiveCopy(old(q.Contents()), r.j, Upper(Strip(rawSource)), sha256)
              && r.j in q.Contents().jobs
    ensures (exists i | i in old(q.imports) :: HasContent(old(q.imports)[i], Upper(Strip(rawSource)), sha256)) ==>
              r.Existing? && r.j in old(q.imports) && HasContent(old(q.imports)[r.j], Upper(Strip(rawSource)), sha256)
    ensures r.Created? && store.StoredAs? ==>
              && q.Contents().imports[r.j].status == Received && r.j in q.Contents().jobs
              && q.Contents().jobs[r.j].status
                == (if q.Contents().imports[r.j].format == Csv then Queued else AwaitingParser)
    ensures r.Created? ==> r.j == j && j !in old(q.imports) && q.Contents().imports[j].format == format
    ensures r.Created? && store.StorageFailed? ==>
              && q.Contents().imports[j].status == Receiving && j in q.Contents().jobs
              && q.Contents().jobs[j].status == WaitingForFile && q.Contents().jobs[j].maxAttempts == 5
    ensures r.Created? && store.StoredAs? ==> q.Contents().imports[j].versionId == Strip(store.version)
    ensures var looked := afterLookup(old(q.Contents()));
            r.Raised? <==>
              && !ExistsActive(old(q.Contents()), Upper(Strip(rawSource)), sha256)
              && (if CreateIntake(looked, j, Upper(Strip(rawSource)), format, sha256, now).Err?
                  then !ExistsActive(afterConflict(looked), Upper(Strip(rawSource)), sha256)
                  else store.StoredAs?
                       && !CanReceive(whileStoring(CreateIntake(looked, j, Upper(Strip(rawSource)), format, sha256,
                                                                now).value), j, store.version))
    ensures CreatesNone(afterLookup) && CreatesNone(afterConflict) && CreatesNone(whileStoring) ==>
              q.imports.Keys
              == old(q.imports.Keys) + if r.Created? || (r.Raised? && r.error != ConstraintViolated) then {j} else {}
  {
    hide Inv, Evolves, CreateIntake, ConfirmReceived, Enqueue, ExistsActive, Legal, Upper, Strip, IntakeEvolves,
         HasContent;
    ghost var start := q.Contents();
    EvolvesReflexive(start);
    var source := Upper(Strip(rawSource));
    var existing := ExistingActiveImport(q, source, sha256);
    if existing.Some? {
      PlainEnqueueSafe(start, existing.value, 5, now);
      SafeStep(start, start, Enqueue(start, existing.value, 5, now));
      var ignored := q.EnqueueImport(existing.value, 5, now);
      KeepsUpload(start, q.Contents(), existing.value, source, sha256);
      EnqueueKeepsUploads(start, existing.value, 5, now);
      return Existing(existing.value);
    }
    LegalStep(start, q.Contents(), afterLookup);
    q.Restore(afterLookup(q.Contents()));
    ghost var looked := q.Contents();
    CreateIntakeSafe(looked, j, source, format, sha256, now);
    SafeStep(start, looked, CreateIntake(looked, j, source, format, sha256, now));
    var error := CreateRows(q, j, source, format, sha256, now);
    if error.Some? {
      LegalStep(start, q.Contents(), afterConflict);
      q.Restore(afterConflict(q.Contents()));
      existing := ExistingActiveImport(q, source, sha256);
      if existing.None? {
        return Raised(ConstraintViolated);
      }
      return Existing(existing.value);
    }
    CreatedRows(looked, j, source, format, sha256, now);
    NoJobWithoutUpload(looked, j);
    StillThere(start, looked, j);
    if store.StorageFailed? {
      return Created(j);
    }
    ghost var created := q.Contents();
    LegalStep(start, created, whileStoring);
    q.Restore(whileStoring(q.Contents()));
    ghost var stored := q.Contents();
    StillThere(created, stored, j);
    KeepsUpload(created, stored, j, source, sha256);
    KeepsFormat(created, stored, j);
    ConfirmReceivedSafe(stored, j, store.version, now);
    SafeStep(start, stored, ConfirmReceived(stored, j, store.version, now));
    ConfirmExactly(stored, j, store.version, now);
    error := Confirm(q, j, store.version, now);
    if error.Some? {
      return Raised(error.value);
    }
    ConfirmedJob(stored, j, store.version, now);
    KeepsUpload(stored, q.Contents(), j, source, sha256);
    r := Created(j);
  }

  lemma EnqueueKeepsUploads(db: Db, j: ImportId, maxAttempts: int, now: Time)
    ensures After(db, Enqueue(db, j, maxAttempts, now)).imports == db.imports
    ensures j in db.imports && 1 <= maxAttempts <= 5 ==> j in After(db, Enqueue(db, j, maxAttempts, now)).jobs
  {
    hide NewJob, AdvancedJob;
  }

  lemma KeepsFormat(a: Db, b: Db, j: ImportId)
    requires Evolves(a, b) && j in a.imports
    ensures j in b.imports && b.imports[j].format == a.imports[j].format
  {
    hide Evolves;
    StillThere(a, b, j);
  }

  lemma NoJobWithoutUpload(db: Db, j: ImportId)
    requires Inv(db)
    ensures j in db.jobs ==> j in db.imports
  {
    hide Inv, JobInv;
    if j in db.jobs {
      JobFacts(db, j);
    }
  }

  lemma KeepsUpload(a: Db, b: Db, j: ImportId, source: Source, sha256: string)
    requires Evolves(a, b) && SameUpload(a, j, source, sha256)
    ensures SameUpload(b, j, source, sha256)
  {
    hide Evolves;
    StillThere(a, b, j);
  }

  // ----- Reconciliation -----

  datatype Verification = Verified(version: string) | Missing | Mismatch | Unreachable

  datatype Progress = Progress(db: Db, received: nat, failed: nat, deferred: nat, raised: bool)

  /** One import of the reconciliation loop, after other processes had their turn. */
  function ReconcileOne(p: Progress, j: ImportId, v: Verification, now: Time): Progress {
    if p.raised then p
    else match v
      case Unreachable => p.(deferred := p.deferred + 1)
      case Verified(version) =>
        var result := ConfirmReceived(p.db, j, version, now);
        if result.Ok? then p.(db := result.value, received := p.received + 1)
        else if result.error == InvalidValue then p.(raised := true)
        else p
      case _ =>
        var result := ConfirmFailed(p.db, j, if v == Missing then ObjectMissing else VerificationFailed, now);
        if result.Ok? then p.(db := result.value, failed := p.failed + 1) else p
  }

  function Reconciled(db: Db, items: seq<(ImportId, Verification)>, others: Others, now: Time): Progress {
    if items == [] then Progress(db, 0, 0, 0, false)
    else
      var before := Reconciled(db, items[..|items| - 1], others, now);
      var last := items[|items| - 1];
      if before.raised then before else ReconcileOne(before.(db := others(before.db)), last.0, last.1, now)
  }

  /** The reconciliation command over the receiving imports it listed. */
  method Reconcile(q: ImportQueue, items: seq<(ImportId, Verification)>, others: Others, now: Time)
    returns (received: nat, failed: nat, deferred: nat, raised: bool)
    modifies q
    ensures Progress(q.Contents(), received, failed, deferred, raised)
            == Reconciled(old(q.Contents()), items, others, now)
  {
    hide ConfirmReceived, ConfirmFailed;
    received, failed, deferred, raised := 0, 0, 0, false;
    for n := 0 to |items|
      invariant !raised
                && Progress(q.Contents(), received, failed, deferred, raised)
                  == Reconciled(old(q.Contents()), items[..n], others, now)
    {
      assert items[..n + 1][..n] == items[..n];
      var j, v := items[n].0, items[n].1;
      q.Restore(others(q.Contents()));
      match v {
        case Missing =>
          var error := Reject(q, j, ObjectMissing, now);
          if error.None? {
            failed := failed + 1;
          }
        case Mismatch =>
          var error := Reject(q, j, VerificationFailed, now);
          if error.None? {
            failed := failed + 1;
          }
        case Unreachable =>
          deferred := deferred + 1;
        case Verified(version) =>
          var error := Confirm(q, j, version, now);
          if error.None? {
            received := received + 1;
          } else if error.value == InvalidValue {
            raised := true;
            RaisedStays(old(q.Contents()), items, n + 1, others, now);
            return;
          }
      }
    }
    assert items[..|items|] == items;
  }

  lemma {:induction false} RaisedStays(db: Db, items: seq<(ImportId, Verification)>, n: nat, others: Others, now: Time)
    requires n <= |items| && Reconciled(db, items[..n], others, now).raised
    ensures Reconciled(db, items, others, now) == Reconciled(db, items[..n], others, now)
  {
    hide ReconcileOne;
    if n < |items| {
      assert items[..|items| - 1][..n] == items[..n];
      RaisedStays(db, items[..|items| - 1], n, others, now);
    } else {
      assert items[..n] == items;
    }
  }

  /** Reconciliation keeps the queue safe, and counts each listed import at most once. */
  lemma {:induction false} ReconcileSafe(db: Db, items: seq<(ImportId, Verification)>, others: Others, now: Time)
    requires Inv(db) && Legal(others)
    ensures var p := Reconciled(db, items, others, now);
            Inv(p.db) && Evolves(db, p.db) && p.received + p.failed + p.deferred <= |items|
  {
    hide Inv, Evolves, Legal, ConfirmReceived, ConfirmFailed;
    EvolvesReflexive(db);
    if items != [] {
      var before, last := Reconciled(db, items[..|items| - 1], others, now), items[|items| - 1];
      ReconcileSafe(db, items[..|items| - 1], others, now);
      LegalStep(db, before.db, others);
      var d := others(before.db);
      match last.1
      case Unreachable =>
      case Verified(version) =>
        ConfirmReceivedSafe(d, last.0, version, now);
        SafeStep(db, d, ConfirmReceived(d, last.0, version, now));
      case Missing =>
        ConfirmFailedSafe(d, last.0, ObjectMissing, now);
        SafeStep(db, d, ConfirmFailed(d, last.0, ObjectMissing, now));
      case Mismatch =>
        ConfirmFailedSafe(d, last.0, VerificationFailed, now);
        SafeStep(db, d, ConfirmFailed(d, last.0, VerificationFailed, now));
    }
  }

  /** Each import that is still receiving at its turn, and whose object could be checked, is settled for good. */
  lemma TurnSettles(p: Progress, j: ImportId, v: Verification, now: Time)
    requires Inv(p.db) && !p.raised && j in p.db.imports && p.db.imports[j].status == Receiving
    requires v.Verified? ==> Strip(v.version) != []
    ensures var after := ReconcileOne(p, j, v, now);
            && j in after.db.imports && (j in after.db.jobs || v.Unreachable?)
            && (v.Verified? ==>
                  && after.received == p.received + 1 && after.db.imports[j].status == Received
                  && after.db.imports[j].versionId == Strip(v.version)
                  && after.db.jobs[j].status == (if after.db.imports[j].format == Csv then Queued else AwaitingParser))
            && (v.Missing? || v.Mismatch? ==>
                  after.failed == p.failed + 1 && after.db.imports[j].status == IntakeFailed
                  && after.db.imports[j].failure == (if v.Missing? then ObjectMissing else VerificationFailed)
                  && after.db.jobs[j].status == Failed)
            && (v.Unreachable? ==> after == p.(deferred := p.deferred + 1))
  {
    hide Inv, JobInv, JobConstraints, Strip;
    if j in p.db.jobs {
      JobFacts(p.db, j);
      JobRowFacts(p.db, j);
    }
  }

  // ----- The whole command -----

  datatype CommandEnd = GraceRefused | Crashed | MustRunAgain(received: nat, failed: nat, deferred: nat)
    | Succeeded(received: nat, failed: nat)

  /** A verified object whose version is blank; confirming it raises an error that nobody catches. */
  predicate Blank(v: Verification) {
    v.Verified? && |Strip(v.version)| == 0
  }

  /**
    `handle`: unless it crashes, every listed upload whose object could be checked is
    settled, by this run or by someone else.
   */
  method Handle(q: ImportQueue, graceMinutes: int, items: seq<(ImportId, Verification)>, others: Others, now: Time)
    returns (end: CommandEnd)
    requires Inv(q.Contents()) && Legal(others) && forall item | item in items :: item.0 in q.imports
    modifies q
    ensures Inv(q.Contents()) && Evolves(old(q.Contents()), q.Contents())
    ensures end.GraceRefused? <==> graceMinutes < 1
    ensures end.GraceRefused? ==> q.Contents() == old(q.Contents())
    ensures end.Crashed? ==> exists item | item in items :: Blank(item.1)
    ensures end.Succeeded? || end.MustRunAgain? ==>
              && (end.Succeeded? <==> forall item | item in items :: !item.1.Unreachable?)
              && forall item | item in items && !item.1.Unreachable? ::
                   item.0 in q.imports && q.imports[item.0].status != Receiving
  {
    hide Inv, Evolves, Legal, Strip, ConfirmReceived, ConfirmFailed, Reconciled, Blank;
    ghost var start := q.Contents();
    EvolvesReflexive(start);
    if graceMinutes < 1 {
      return GraceRefused;
    }
    ReconcileSafe(start, items, others, now);
    ReconcileSettles(start, items, others, now);
    var received, failed, deferred, raised := Reconcile(q, items, others, now);
    if raised {
      return Crashed;
    }
    end := if deferred > 0 then MustRunAgain(received, failed, deferred) else Succeeded(received, failed);
  }

  /** After the loop no upload whose object could be checked is still receiving. */
  lemma {:induction false} ReconcileSettles(db: Db, items: seq<(ImportId, Verification)>, others: Others, now: Time)
    requires Inv(db) && Legal(others) && forall item | item in items :: item.0 in db.imports
    ensures var p := Reconciled(db, items, others, now);
            && (p.raised ==> exists item | item in items :: Blank(item.1))
            && (!p.raised ==>
                  && (p.deferred == 0 <==> forall item | item in items :: !item.1.Unreachable?)
                  && forall item | item in items && !item.1.Unreachable? ::
                       item.0 in p.db.imports && p.db.imports[item.0].status != Receiving)
  {
    hide Inv, Evolves, Legal, ConfirmReceived, ConfirmFailed, Strip, IntakeEvolves, Blank;
    if items != [] {
      var n := |items| - 1;
      assert items == items[..n] + [items[n]];
      var before, last := Reconciled(db, items[..n], others, now), items[n];
      ReconcileSettles(db, items[..n], others, now);
      if !before.raised {
        ReconcileSafe(db, items[..n], others, now);
        LegalStep(db, before.db, others);
        var d := before.(db := others(before.db));
        StillThere(db, d.db, last.0);
        OneTurn(d, last.0, last.1, now);
        var p := ReconcileOne(d, last.0, last.1, now);
        forall item | item in items[..n] && !item.1.Unreachable?
          ensures item.0 in p.db.imports && p.db.imports[item.0].status != Receiving
        {
          SettledStays(before.db, d.db, item.0);
          SettledStays(d.db, p.db, item.0);
        }
      }
    }
  }

  lemma OneTurn(p: Progress, j: ImportId, v: Verification, now: Time)
    requires Inv(p.db) && !p.raised && j in p.db.imports
    ensures var after := ReconcileOne(p, j, v, now);
            && (after.raised ==> Blank(v)) && after.deferred == p.deferred + (if v.Unreachable? then 1 else 0)
            && Evolves(p.db, after.db)
            && j in after.db.imports && (!after.raised && !v.Unreachable? ==> after.db.imports[j].status != Receiving)
  {
    hide Inv, Evolves, Strip, NewJob, AdvancedJob;
    EvolvesReflexive(p.db);
    match v
    case Verified(version) => ConfirmReceivedSafe(p.db, j, version, now);
    case Missing => ConfirmFailedSafe(p.db, j, ObjectMissing, now);
    case Mismatch => ConfirmFailedSafe(p.db, j, VerificationFailed, now);
    case Unreachable =>
  }

  lemma SettledStays(a: Db, b: Db, j: ImportId)
    requires Evolves(a, b) && j in a.imports && a.imports[j].status != Receiving
    ensures j in b.imports && b.imports[j].status != Receiving
  {
    hide Evolves;
    StillThere(a, b, j);
  }
}
