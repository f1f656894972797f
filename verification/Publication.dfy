/**
  One publication: validate every staged row, then link or insert every fact.
  The plan says what it does row by row; the class does it in two chunked passes.
 */
module Publication {
  import opened Results
  import opened Tables
  import opened IssueCollection
  import opened ReferenceValidation

  type Facts = map<FactKey, Fact>

  // ----- Linking, one row at a time -----

  function Key(source: Source, r: StagedRow): FactKey {
    FactKey(source, r.recordId)
  }

  function FactOf(r: StagedRow): Fact
    requires r.links.Some?
  {
    Fact(r.links.value, r.quantity, r.revenue, r.currency)
  }

  function LinkedRow(r: StagedRow, source: Source, facts: Facts): StagedRow {
    r.(outcome := if Key(source, r) in facts then RowReused else RowPublished, fact := Some(Key(source, r)))
  }

  function LinkedRows(rows: seq<StagedRow>, source: Source, facts: Facts): seq<StagedRow> {
    seq(|rows|, i requires 0 <= i < |rows| => LinkedRow(rows[i], source, facts))
  }

  predicate AllResolved(rows: seq<StagedRow>) {
    forall r | r in rows :: r.links.Some?
  }

  /** The facts that linking adds. */
  function Inserted(rows: seq<StagedRow>, source: Source, facts: Facts): Facts
    requires AllResolved(rows)
  {
    if rows == [] then map[]
    else
      var n := |rows| - 1;
      var before := Inserted(rows[..n], source, facts);
      if Key(source, rows[n]) in facts then before else before[Key(source, rows[n]) := FactOf(rows[n])]
  }

  function InsertedCount(rows: seq<StagedRow>, source: Source, facts: Facts): nat {
    if rows == [] then 0
    else InsertedCount(rows[..|rows| - 1], source, facts) + if Key(source, rows[|rows| - 1]) in facts then 0 else 1
  }

  predicate AnyConflict(rows: seq<StagedRow>, source: Source, facts: Facts)
    requires AllResolved(rows)
  {
    exists r | r in rows :: Conflicts(r, source, facts)
  }

  lemma {:induction false} InsertedFacts(rows: seq<StagedRow>, source: Source, facts: Facts)
    requires AllResolved(rows)
    ensures forall f | f in Inserted(rows, source, facts) :: f !in facts && exists r | r in rows :: f == Key(source, r)
    ensures forall r | r in rows :: Key(source, r) in facts || Key(source, r) in Inserted(rows, source, facts)
  {
    if rows != [] {
      InsertedFacts(rows[..|rows| - 1], source, facts);
    }
  }

  // ----- Linking in chunks -----

  lemma InsertedLast(rows: seq<StagedRow>, r: StagedRow, source: Source, facts: Facts)
    requires AllResolved(rows + [r])
    ensures AllResolved(rows)
    ensures Inserted(rows + [r], source, facts)
            == if Key(source, r) in facts then Inserted(rows, source, facts)
               else Inserted(rows, source, facts)[Key(source, r) := FactOf(r)]
    ensures InsertedCount(rows + [r], source, facts)
            == InsertedCount(rows, source, facts) + if Key(source, r) in facts then 0 else 1
  {
    assert (rows + [r])[..|rows|] == rows;
  }

  lemma {:induction false} InsertedSize(rows: seq<StagedRow>, source: Source, facts: Facts)
    requires AllResolved(rows) && RowsUnique(rows)
    ensures |Inserted(rows, source, facts)| == InsertedCount(rows, source, facts) <= |rows|
    ensures forall r | r in rows && Key(source, r) !in facts ::
              Key(source, r) in Inserted(rows, source, facts)
              && Inserted(rows, source, facts)[Key(source, r)] == FactOf(r)
  {
    hide Inserted, InsertedCount, FactOf;
    if rows == [] {
      NothingInserted(source, facts);
    } else {
      var n := |rows| - 1;
      assert rows[..n] + [rows[n]] == rows;
      InsertedSize(rows[..n], source, facts);
      InsertedLast(rows[..n], rows[n], source, facts);
      NewKey(rows, n, source, facts);
      GrowsByOne(Inserted(rows[..n], source, facts), Key(source, rows[n]), FactOf(rows[n]));
    }
  }

  lemma NothingInserted(source: Source, facts: Facts)
    ensures Inserted([], source, facts) == map[] && InsertedCount([], source, facts) == 0
  {
  }

  lemma NewKey(rows: seq<StagedRow>, n: nat, source: Source, facts: Facts)
    requires RowsUnique(rows) && n < |rows| && AllResolved(rows[..n])
    ensures Key(source, rows[n]) !in Inserted(rows[..n], source, facts)
  {
    InsertedFacts(rows[..n], source, facts);
  }

  lemma GrowsByOne(m: Facts, key: FactKey, fact: Fact)
    ensures key !in m ==> |m[key := fact]| == |m| + 1
  {
    assert m[key := fact].Keys == m.Keys + {key};
    assert |m[key := fact]| == |m[key := fact].Keys| && |m| == |m.Keys|;
  }

  lemma {:induction false} InsertedJoin(a: seq<StagedRow>, b: seq<StagedRow>, source: Source, facts: Facts)
    requires AllResolved(a) && AllResolved(b)
    ensures AllResolved(a + b)
    ensures Inserted(a + b, source, facts) == Inserted(a, source, facts) + Inserted(b, source, facts)
    ensures InsertedCount(a + b, source, facts) == InsertedCount(a, source, facts) + InsertedCount(b, source, facts)
  {
    if b == [] {
      assert a + b == a;
    } else {
      InsertedJoin(a, b[..|b| - 1], source, facts);
      JoinLast(a, b[..|b| - 1], b[|b| - 1], source, facts);
      assert b[..|b| - 1] + [b[|b| - 1]] == b;
    }
  }

  lemma JoinLast(a: seq<StagedRow>, b: seq<StagedRow>, r: StagedRow, source: Source, facts: Facts)
    requires AllResolved(a) && AllResolved(b + [r]) && AllResolved(b) && AllResolved(a + b)
             && AllResolved(a + (b + [r]))
    requires Inserted(a + b, source, facts) == Inserted(a, source, facts) + Inserted(b, source, facts)
    requires InsertedCount(a + b, source, facts) == InsertedCount(a, source, facts) + InsertedCount(b, source, facts)
    ensures Inserted(a + (b + [r]), source, facts) == Inserted(a, source, facts) + Inserted(b + [r], source, facts)
    ensures InsertedCount(a + (b + [r]), source, facts)
            == InsertedCount(a, source, facts) + InsertedCount(b + [r], source, facts)
  {
    hide Inserted, InsertedCount, Key, FactOf, AllResolved;
    assert a + (b + [r]) == (a + b) + [r];
    InsertedLast(a + b, r, source, facts);
    InsertedLast(b, r, source, facts);
  }

  /** Linking asks only which of its own keys exist. */
  lemma {:induction false} SameKeysKnown(rows: seq<StagedRow>, source: Source, facts: Facts, facts': Facts)
    requires AllResolved(rows) && forall r | r in rows :: Key(source, r) in facts <==> Key(source, r) in facts'
    ensures Inserted(rows, source, facts') == Inserted(rows, source, facts)
    ensures InsertedCount(rows, source, facts') == InsertedCount(rows, source, facts)
    ensures LinkedRows(rows, source, facts') == LinkedRows(rows, source, facts)
  {
    if rows != [] {
      SameKeysKnown(rows[..|rows| - 1], source, facts, facts');
    }
    assert forall i | 0 <= i < |rows| :: rows[i] in rows;
  }

  /** A later row sees the facts inserted by earlier rows, but none of them is its own. */
  lemma LaterRowsUnseen(a: seq<StagedRow>, b: seq<StagedRow>, source: Source, facts: Facts)
    requires RowsUnique(a + b) && AllResolved(a) && AllResolved(b)
    ensures forall r | r in b :: Key(source, r) !in Inserted(a, source, facts)
    ensures forall r | r in b :: Key(source, r) in facts + Inserted(a, source, facts) <==> Key(source, r) in facts
    ensures forall r | r in b ::
              Conflicts(r, source, facts + Inserted(a, source, facts)) <==> Conflicts(r, source, facts)
  {
    InsertedFacts(a, source, facts);
    forall r, s | r in a && s in b ensures r.recordId != s.recordId {
      var i :| 0 <= i < |a| && a[i] == r;
      var k :| 0 <= k < |b| && b[k] == s;
      assert (a + b)[i] == r && (a + b)[|a| + k] == s;
    }
  }

  // ----- The plan -----

  datatype Plan =
    | RejectPlan(rows: seq<StagedRow>, issues: seq<Issue>, counts: Counts)
    | PublishPlan(rows: seq<StagedRow>, inserted: Facts, counts: Counts)

  function AcceptedRows(rows: seq<StagedRow>, source: Source, m: Master, facts: Facts): (after: seq<StagedRow>)
    requires AllRowIssues(rows, source, m, facts) == []
    ensures AllResolved(after) && |after| == |rows|
    ensures forall i | 0 <= i < |rows| ::
              Resolves(rows[i], m) && SameSourceValues(rows[i], after[i]) && !Conflicts(after[i], source, facts)
  {
    AcceptedRowsFacts(rows, source, m, facts);
    ValidatedRows(rows, source, m, facts)
  }

  lemma AcceptedRowsFacts(rows: seq<StagedRow>, source: Source, m: Master, facts: Facts)
    requires AllRowIssues(rows, source, m, facts) == []
    ensures AllResolved(ValidatedRows(rows, source, m, facts))
    ensures forall i | 0 <= i < |rows| ::
              var after := ValidatedRows(rows, source, m, facts)[i];
              Resolves(rows[i], m) && SameSourceValues(rows[i], after) && !Conflicts(after, source, facts)
  {
    hide RowIssues, Resolves, Conflicts;
    forall i | 0 <= i < |rows|
      ensures ValidatedRows(rows, source, m, facts)[i].links.Some?
      ensures Resolves(rows[i], m) && SameSourceValues(rows[i], ValidatedRows(rows, source, m, facts)[i])
      ensures !Conflicts(ValidatedRows(rows, source, m, facts)[i], source, facts)
    {
      CleanRows(rows, source, m, facts, i);
      AcceptedResolves(rows[i], source, m, facts);
    }
  }

  /** What publishing these rows does, depending on nothing but the master data and the facts it looks up. */
  function Planned(rows: seq<StagedRow>, source: Source, m: Master, facts: Facts, maximum: nat): Plan {
    var all := AllRowIssues(rows, source, m, facts);
    var n, invalid := |rows|, InvalidCount(rows, source, m, facts);
    if all != [] then
      RejectPlan(ValidatedRows(rows, source, m, facts), Release(maximum, all, |all|),
                 Counts(n, n - invalid, invalid, |all|, 0, 0))
    else
      var accepted := AcceptedRows(rows, source, m, facts);
      var inserted := InsertedCount(accepted, source, facts);
      PublishPlan(LinkedRows(accepted, source, facts), Inserted(accepted, source, facts),
                  Counts(n, n, 0, 0, inserted, n - inserted))
  }

  // ----- Steps of the chunked passes -----

  lemma ChunkStep(rows: seq<StagedRow>, n: nat, source: Source, m: Master, facts: Facts)
    requires n < |rows|
    ensures AllRowIssues(rows[..n + 1], source, m, facts)
            == AllRowIssues(rows[..n], source, m, facts) + RowIssues(rows[n], source, m, facts)
    ensures InvalidCount(rows[..n + 1], source, m, facts)
            == InvalidCount(rows[..n], source, m, facts) + if RowIssues(rows[n], source, m, facts) != [] then 1 else 0
    ensures ValidatedRows(rows[..n + 1], source, m, facts)
            == ValidatedRows(rows[..n], source, m, facts) + [ValidatedRow(rows[n], source, m, facts)]
  {
    hide RowIssues, ValidatedRow;
    assert rows[..n + 1][..n] == rows[..n];
  }

  lemma NothingValidated(source: Source, m: Master, facts: Facts)
    ensures AllRowIssues([], source, m, facts) == [] && InvalidCount([], source, m, facts) == 0
            && ValidatedRows([], source, m, facts) == []
  {
  }

  lemma UnacceptedRow(r: StagedRow, source: Source, m: Master, facts: Facts)
    ensures RowIssues(r, source, m, facts) != [] ==> ValidatedRow(r, source, m, facts) == r
  {
    hide RowIssues;
  }

  /** Issues counted before a row of a chunk belong to earlier rows. */
  lemma EarlierIssues(before: seq<Issue>, rows: seq<StagedRow>, n: nat, source: Source, m: Master, facts: Facts)
    requires InRowOrder(rows) && n <= |rows| && rows != []
    requires forall i | i in before :: i.row.Some? && i.row.value < rows[0].rowNumber
    ensures forall i | i in before + AllRowIssues(rows[..n], source, m, facts) ::
              i.row.Some? && forall k | n <= k < |rows| :: i.row.value < rows[k].rowNumber
  {
    AllRowIssuesUnique(rows[..n], source, m, facts);
    forall i, k | i in AllRowIssues(rows[..n], source, m, facts) && n <= k < |rows|
      ensures i.row.value < rows[k].rowNumber
    {
      var l :| 0 <= l < n && rows[..n][l].rowNumber == i.row.value;
      assert rows[l].rowNumber < rows[k].rowNumber;
    }
  }

  lemma BeforeChunk(rows: seq<StagedRow>, n: nat, source: Source, m: Master, facts: Facts)
    requires InRowOrder(rows) && n < |rows|
    ensures forall i | i in AllRowIssues(rows[..n], source, m, facts) :: i.row.Some? && i.row.value < rows[n].rowNumber
  {
    hide AllRowIssues;
    EarlierIssues([], rows, n, source, m, facts);
    assert [] + AllRowIssues(rows[..n], source, m, facts) == AllRowIssues(rows[..n], source, m, facts);
  }

  function ConflictIssues(rows: seq<StagedRow>, source: Source, facts: Facts): seq<Issue>
    requires AllResolved(rows)
  {
    if rows == [] then []
    else
      var r := rows[|rows| - 1];
      ConflictIssues(rows[..|rows| - 1], source, facts) + if Conflicts(r, source, facts) then [ConflictIssue(r)] else []
  }

  lemma {:induction false} ConflictIssuesFacts(rows: seq<StagedRow>, source: Source, facts: Facts)
    requires AllResolved(rows)
    ensures ConflictIssues(rows, source, facts) != [] <==> AnyConflict(rows, source, facts)
    ensures forall i | i in ConflictIssues(rows, source, facts) ::
              exists k | 0 <= k < |rows| :: i.row == Some(rows[k].rowNumber)
  {
    hide Conflicts;
    if rows != [] {
      var n := |rows| - 1;
      ConflictIssuesFacts(rows[..n], source, facts);
      forall i | i in ConflictIssues(rows, source, facts)
        ensures exists k | 0 <= k < |rows| :: i.row == Some(rows[k].rowNumber)
      {
        if i in ConflictIssues(rows[..n], source, facts) {
          var k :| 0 <= k < n && i.row == Some(rows[..n][k].rowNumber);
          assert i.row == Some(rows[k].rowNumber);
        } else {
          assert i.row == Some(rows[n].rowNumber);
        }
      }
    }
  }

  lemma LinkStep(rows: seq<StagedRow>, n: nat, source: Source, facts: Facts)
    requires n < |rows| && AllResolved(rows)
    ensures AllResolved(rows[..n]) && AllResolved(rows[..n + 1])
    ensures Inserted(rows[..n + 1], source, facts)
            == if Key(source, rows[n]) in facts then Inserted(rows[..n], source, facts)
               else Inserted(rows[..n], source, facts)[Key(source, rows[n]) := FactOf(rows[n])]
    ensures ConflictIssues(rows[..n + 1], source, facts)
            == ConflictIssues(rows[..n], source, facts)
              + if Conflicts(rows[n], source, facts) then [ConflictIssue(rows[n])] else []
    ensures InsertedCount(rows[..n + 1], source, facts)
            == InsertedCount(rows[..n], source, facts) + if Key(source, rows[n]) in facts then 0 else 1
  {
    hide Conflicts;
    assert rows[..n + 1][..n] == rows[..n];
  }

  lemma ValidatedSame(r: StagedRow, source: Source, m: Master, facts: Facts)
    ensures SameSourceValues(r, ValidatedRow(r, source, m, facts))
            && ValidatedRow(r, source, m, facts).outcome == r.outcome
    ensures ValidatedRow(r, source, m, facts).fact == r.fact
  {
    hide RowIssues, Resolves;
    if RowIssues(r, source, m, facts) == [] {
      AcceptedResolves(r, source, m, facts);
    }
  }

  lemma ValidatedChunk(all: seq<StagedRow>, low: nat, high: nat, rows: seq<StagedRow>, source: Source, m: Master,
                       facts: Facts)
    requires low < high <= |all| && rows == ValidatedRows(all[..low], source, m, facts) + all[low..]
    ensures |rows| == |all| && rows[low..high] == all[low..high] && rows[low] == all[low]
    ensures all[..low] + all[low..high] == all[..high]
    ensures rows[..low] + ValidatedRows(all[low..high], source, m, facts) + rows[high..]
            == ValidatedRows(all[..high], source, m, facts) + all[high..]
    ensures |ValidatedRows(all[..high], source, m, facts) + all[high..]| == |all|
  {
    hide ValidatedRow;
  }

  lemma SameOrder(rows: seq<StagedRow>, n: nat, source: Source, m: Master, facts: Facts)
    requires InRowOrder(rows) && n <= |rows|
    ensures InRowOrder(ValidatedRows(rows[..n], source, m, facts) + rows[n..])
  {
    hide RowIssues, ValidatedRow;
    forall r: StagedRow ensures ValidatedRow(r, source, m, facts).rowNumber == r.rowNumber {
      ValidatedSame(r, source, m, facts);
    }
  }

  /** A validated chunk: acceptable rows have the references their codes name, everything else is as it was. */
  lemma WrittenMeans(all: seq<StagedRow>, low: nat, high: nat, rows: seq<StagedRow>, source: Source, m: Master,
                     facts: Facts)
    requires low < high <= |all| && rows == all[..low] + ValidatedRows(all[low..high], source, m, facts) + all[high..]
    ensures |rows| == |all|
    ensures forall i | 0 <= i < |rows| ::
              if low <= i < high && Acceptable(all[i], source, m, facts)
              then rows[i].links.Some? && NamesReferences(rows[i].links.value, all[i], m)
                   && rows[i] == all[i].(links := rows[i].links)
              else rows[i] == all[i]
  {
    hide Acceptable, NamesReferences, ValidatedRow;
    forall i | low <= i < high
      ensures if Acceptable(all[i], source, m, facts)
              then rows[i].links.Some? && NamesReferences(rows[i].links.value, all[i], m)
                   && rows[i] == all[i].(links := rows[i].links)
              else rows[i] == all[i]
    {
      AcceptanceMeans(all[i], source, m, facts);
      assert rows[i] == ValidatedRow(all[i], source, m, facts);
    }
  }

  // ----- What the plan means, field by field -----

  /** A published row of the plan names its own references, and so does the fact under its id. */
  lemma PublishedMeans(rows: seq<StagedRow>, source: Source, m: Master, facts: Facts, maximum: nat, i: nat)
    requires InRowOrder(rows) && RowsUnique(rows) && Planned(rows, source, m, facts, maximum).PublishPlan? && i < |rows|
    ensures var plan, key := Planned(rows, source, m, facts, maximum), FactKey(source, rows[i].recordId);
            && |plan.rows| == |rows| && plan.rows[i].links.Some?
            && NamesReferences(plan.rows[i].links.value, rows[i], m)
            && plan.rows[i].fact == Some(key)
            && plan.rows[i].outcome == (if key in facts then RowReused else RowPublished)
            && key in facts + plan.inserted && FactIs((facts + plan.inserted)[key], rows[i], m)
            && (key in plan.inserted <==> key !in facts)
  {
    hide AllRowIssues, RowIssues, ValidatedRow, Inserted, InsertedCount, Acceptable, NamesReferences, InRowOrder,
         RowsUnique, Resolves, Conflicts, FactMatches;
    var accepted := AcceptedRows(rows, source, m, facts);
    AcceptedClean(rows, source, m, facts);
    CleanRows(rows, source, m, facts, i);
    AcceptanceMeans(rows[i], source, m, facts);
    assert accepted[i] == ValidatedRow(rows[i], source, m, facts) && accepted[i] in accepted;
    InsertedSize(accepted, source, facts);
    InsertedFacts(accepted, source, facts);
    FactOfNamed(accepted[i], rows[i], source, m, facts);
  }

  lemma FactOfNamed(after: StagedRow, r: StagedRow, source: Source, m: Master, facts: Facts)
    requires after.links.Some? && NamesReferences(after.links.value, r, m) && after == r.(links := after.links)
    ensures FactIs(FactOf(after), r, m)
    ensures Acceptable(r, source, m, facts) && FactKey(source, r.recordId) in facts ==>
              FactIs(facts[FactKey(source, r.recordId)], r, m)
  {
    hide NamesReferences, ReferencesResolve;
  }

  /** Which plan it is, and what its counters count. */
  lemma PlanMeans(rows: seq<StagedRow>, source: Source, m: Master, facts: Facts, maximum: nat)
    requires InRowOrder(rows) && RowsUnique(rows)
    ensures var plan := Planned(rows, source, m, facts, maximum);
            && (plan.PublishPlan? <==> forall r | r in rows :: Acceptable(r, source, m, facts))
            && plan.counts.total == |rows| && plan.counts.invalid == |Unacceptable(rows, source, m, facts)|
            && plan.counts.valid == |rows| - plan.counts.invalid
            && (plan.PublishPlan? ==>
                  && plan.counts == Counts(|rows|, |rows|, 0, 0, |plan.inserted|, |rows| - |plan.inserted|)
                  && forall f | f in plan.inserted ::
                       f !in facts && exists r | r in rows :: f == FactKey(source, r.recordId))
            && (plan.RejectPlan? ==> plan.counts.issues == |AllRowIssues(rows, source, m, facts)|)
  {
    hide RowIssues, ValidatedRow, Inserted, InsertedCount, Acceptable, InRowOrder, RowsUnique, Resolves, Conflicts,
         AllRowIssues, InvalidCount, Release;
    CleanMeans(rows, source, m, facts);
    InvalidMeans(rows, source, m, facts);
    IssuesCoverInvalid(rows, source, m, facts);
    if AllRowIssues(rows, source, m, facts) == [] {
      var accepted := AcceptedRows(rows, source, m, facts);
      AcceptedClean(rows, source, m, facts);
      InsertedSize(accepted, source, facts);
      InsertedFacts(accepted, source, facts);
      forall f | f in Inserted(accepted, source, facts)
        ensures exists r | r in rows :: f == FactKey(source, r.recordId)
      {
        var r :| r in accepted && f == Key(source, r);
        var i :| 0 <= i < |accepted| && accepted[i] == r;
        assert rows[i] in rows && SameSourceValues(rows[i], accepted[i]);
      }
    }
  }

  lemma PublishMeans(rows: seq<StagedRow>, source: Source, m: Master, facts: Facts, maximum: nat)
    requires InRowOrder(rows) && RowsUnique(rows)
    ensures var plan := Planned(rows, source, m, facts, maximum);
            && |plan.rows| == |rows|
            && (plan.PublishPlan? <==> forall r | r in rows :: Acceptable(r, source, m, facts))
            && (plan.PublishPlan? ==> forall i | 0 <= i < |rows| ::
                  var key := FactKey(source, rows[i].recordId);
                  && key in facts + plan.inserted && FactIs((facts + plan.inserted)[key], rows[i], m)
                  && plan.rows[i].fact == Some(key)
                  && plan.rows[i].outcome == (if key in facts then RowReused else RowPublished))
  {
    hide AllRowIssues, InvalidCount, Inserted, InsertedCount, Acceptable, FactIs, InRowOrder, RowsUnique, Release,
         LinkedRow, ValidatedRow, NamesReferences;
    PlanMeans(rows, source, m, facts, maximum);
    if Planned(rows, source, m, facts, maximum).PublishPlan? {
      forall i | 0 <= i < |rows|
        ensures var plan, key := Planned(rows, source, m, facts, maximum), FactKey(source, rows[i].recordId);
                && key in facts + plan.inserted && FactIs((facts + plan.inserted)[key], rows[i], m)
                && plan.rows[i].fact == Some(key)
                && plan.rows[i].outcome == (if key in facts then RowReused else RowPublished)
      {
        PublishedMeans(rows, source, m, facts, maximum, i);
      }
    }
  }

  // ----- Steps of the link pass -----

  /** A row of a chunk after the first loop: facts still to be inserted are linked later. */
  function ReusedOnly(r: StagedRow, source: Source, facts: Facts): StagedRow
    requires r.links.Some?
  {
    if Key(source, r) in facts && !Conflicts(r, source, facts) then LinkedRow(r, source, facts) else r
  }

  lemma LinkOne(rows: seq<StagedRow>, n: nat, existing: map<string, Fact>, source: Source, facts: Facts)
    requires n < |rows| && AllResolved(rows) && existing == FactsByRecord(facts, source, RecordIds(rows))
    ensures AllResolved(rows[..n]) && AllResolved(rows[..n + 1]) && rows[n].links.Some?
    ensures rows[n].recordId !in existing ==>
              && Inserted(rows[..n + 1], source, facts)
                == Inserted(rows[..n], source, facts)[Key(source, rows[n]) := FactOf(rows[n])]
              && ConflictIssues(rows[..n + 1], source, facts) == ConflictIssues(rows[..n], source, facts)
              && InsertedCount(rows[..n + 1], source, facts) == InsertedCount(rows[..n], source, facts) + 1
              && ReusedOnly(rows[n], source, facts) == rows[n]
    ensures rows[n].recordId in existing ==>
              && Inserted(rows[..n + 1], source, facts) == Inserted(rows[..n], source, facts)
              && InsertedCount(rows[..n + 1], source, facts) == InsertedCount(rows[..n], source, facts)
    ensures rows[n].recordId in existing && FactMatches(rows[n], existing[rows[n].recordId]) ==>
              && ConflictIssues(rows[..n + 1], source, facts) == ConflictIssues(rows[..n], source, facts)
              && ReusedOnly(rows[n], source, facts)
                == rows[n].(outcome := RowReused, fact := Some(Key(source, rows[n])))
    ensures rows[n].recordId in existing && !FactMatches(rows[n], existing[rows[n].recordId]) ==>
              && ConflictIssues(rows[..n + 1], source, facts)
                == ConflictIssues(rows[..n], source, facts) + [ConflictIssue(rows[n])]
              && ReusedOnly(rows[n], source, facts) == rows[n]
  {
    hide Inserted, InsertedCount, ConflictIssues, FactMatches, Conflicts, FactsByRecord, RecordIds, FactOf;
    LinkStep(rows, n, source, facts);
    ExistingAnswers(rows, rows[n], source, facts);
    assert forall c: seq<Issue> :: c + [] == c;
  }

  /** The second loop completes exactly the rows the first one left for insertion. */
  lemma LinkLater(rows: seq<StagedRow>, n: nat, source: Source, facts: Facts)
    requires n < |rows| && AllResolved(rows) && ConflictIssues(rows, source, facts) == []
    ensures LinkedRow(rows[n], source, facts)
            == if Key(source, rows[n]) in Inserted(rows, source, facts)
               then ReusedOnly(rows[n], source, facts).(outcome := RowPublished, fact := Some(Key(source, rows[n])))
               else ReusedOnly(rows[n], source, facts)
  {
    hide Inserted, ConflictIssues, Conflicts;
    InsertedFacts(rows, source, facts);
    ConflictIssuesFacts(rows, source, facts);
    assert rows[n] in rows;
  }

  lemma NothingLinked(source: Source, facts: Facts)
    ensures Inserted([], source, facts) == map[] && InsertedCount([], source, facts) == 0
    ensures ConflictIssues([], source, facts) == [] && LinkedRows([], source, facts) == []
            && !AnyConflict([], source, facts)
  {
  }

  lemma ExistingAnswers(rows: seq<StagedRow>, r: StagedRow, source: Source, facts: Facts)
    requires r in rows && r.links.Some?
    ensures r.recordId in FactsByRecord(facts, source, RecordIds(rows)) <==> Key(source, r) in facts
    ensures r.recordId in FactsByRecord(facts, source, RecordIds(rows)) ==>
              (Conflicts(r, source, facts)
               <==> !FactMatches(r, FactsByRecord(facts, source, RecordIds(rows))[r.recordId]))
    ensures r.recordId !in FactsByRecord(facts, source, RecordIds(rows)) ==> !Conflicts(r, source, facts)
  {
    hide FactMatches;
  }

  lemma ConflictApart(rows: seq<StagedRow>, n: nat, source: Source, facts: Facts, mark: nat)
    requires InRowOrder(rows) && n < |rows| && AllResolved(rows[..n])
             && mark <= |ConflictIssues(rows[..n], source, facts)|
    ensures Counted(ConflictIssues(rows[..n], source, facts), mark, ConflictIssue(rows[n]))
            == ConflictIssues(rows[..n], source, facts) + [ConflictIssue(rows[n])]
  {
    ConflictIssuesFacts(rows[..n], source, facts);
    AddApart(ConflictIssues(rows[..n], source, facts), mark, ConflictIssue(rows[n]));
  }

  lemma SliceUnique(rows: seq<StagedRow>, low: nat, high: nat)
    requires RowsUnique(rows) && low <= high <= |rows|
    ensures RowsUnique(rows[low..high])
    ensures InRowOrder(rows) ==> InRowOrder(rows[low..high])
  {
  }

  lemma LinkedChunk(all: seq<StagedRow>, low: nat, high: nat, rows: seq<StagedRow>, source: Source, facts: Facts)
    requires low < high <= |all| && AllResolved(all) && RowsUnique(all) && InRowOrder(all)
    requires AllResolved(all[..low]) && rows == LinkedRows(all[..low], source, facts) + all[low..]
    ensures |rows| == |all| && rows[low..high] == all[low..high] && InRowOrder(rows) && RowsUnique(rows)
    ensures |LinkedRows(all[..high], source, facts) + all[high..]| == |all|
    ensures AllResolved(all[low..high]) && AllResolved(all[..high])
    ensures var facts' := facts + Inserted(all[..low], source, facts);
            && facts' + Inserted(all[low..high], source, facts') == facts + Inserted(all[..high], source, facts)
            && InsertedCount(all[..low], source, facts) + InsertedCount(all[low..high], source, facts')
              == InsertedCount(all[..high], source, facts)
            && rows[..low] + LinkedRows(all[low..high], source, facts') + rows[high..]
              == LinkedRows(all[..high], source, facts) + all[high..]
            && (AnyConflict(all[low..high], source, facts') ==> AnyConflict(all, source, facts))
            && (!AnyConflict(all[low..high], source, facts') && !AnyConflict(all[..low], source, facts)
                ==> !AnyConflict(all[..high], source, facts))
  {
    hide Inserted, InsertedCount, Conflicts, RowsUnique, InRowOrder;
    var a, b := all[..low], all[low..high];
    assert a + b == all[..high];
    LinkedOrder(all, low, source, facts);
    SliceUnique(all, 0, high);
    assert all[0..high] == all[..high];
    LaterRowsUnseen(a, b, source, facts);
    var facts' := facts + Inserted(a, source, facts);
    SameKeysKnown(b, source, facts, facts');
    InsertedJoin(a, b, source, facts);
  }

  lemma LinkedOrder(all: seq<StagedRow>, low: nat, source: Source, facts: Facts)
    requires InRowOrder(all) && RowsUnique(all) && low <= |all|
    ensures InRowOrder(LinkedRows(all[..low], source, facts) + all[low..])
            && RowsUnique(LinkedRows(all[..low], source, facts) + all[low..])
  {
    hide Key;
  }

  lemma AcceptedClean(rows: seq<StagedRow>, source: Source, m: Master, facts: Facts)
    requires InRowOrder(rows) && RowsUnique(rows) && AllRowIssues(rows, source, m, facts) == []
    ensures var after := ValidatedRows(rows, source, m, facts);
            AllResolved(after) && InRowOrder(after) && RowsUnique(after) && !AnyConflict(after, source, facts)
            && |after| == |rows|
  {
    hide ValidatedRows, Conflicts, Resolves;
    var after := AcceptedRows(rows, source, m, facts);
  }

  // ----- The publication transaction, as it runs -----

  datatype Verdict = RejectedFile(counts: Counts) | PublishedFile(counts: Counts)

  class Publisher {
    const source: Source
    const master: Master
    const chunk: nat
    const maximum: nat
    var rows: seq<StagedRow> // the attempt's staged rows, by row number
    var issues: seq<Issue> // the issues stored by this transaction
    var facts: Facts

    ghost predicate Settings() {
      chunk >= 1 && maximum >= 1
    }

    constructor (source: Source, master: Master, chunk: nat, maximum: nat, rows: seq<StagedRow>, facts: Facts)
      requires chunk >= 1 && maximum >= 1
      ensures Settings() && this.source == source && this.master == master && this.maximum == maximum
      ensures this.rows == rows && issues == [] && this.facts == facts
    {
      this.source, this.master, this.chunk, this.maximum := source, master, chunk, maximum;
      this.rows, issues, this.facts := rows, [], facts;
    }

    /** `_resolve_and_validate_chunk`: the accepted rows of the chunk are written with their references. */
    method ResolveAndValidateChunk(low: nat, high: nat, collector: IssueCollector) returns (invalidRows: nat)
      requires low < high <= |rows| && InRowOrder(rows) && collector.Valid()
      requires forall i | i in collector.counted :: i.row.Some? && i.row.value < rows[low].rowNumber
      modifies this`rows, collector
      ensures collector.Valid() && collector.drained == old(collector.drained) && collector.mark == old(collector.mark)
      ensures collector.counted == old(collector.counted) + AllRowIssues(old(rows[low..high]), source, master, facts)
      ensures rows == old(rows[..low]) + ValidatedRows(old(rows[low..high]), source, master, facts) + old(rows[high..])
      ensures invalidRows == InvalidCount(old(rows[low..high]), source, master, facts)
      ensures |rows| == |old(rows)|
      ensures forall i | 0 <= i < |rows| ::
                var r := old(rows)[i];
                if low <= i < high && Acceptable(r, source, master, facts)
                then rows[i].links.Some? && NamesReferences(rows[i].links.value, r, master)
                     && rows[i] == r.(links := rows[i].links)
                else rows[i] == r
    {
      hide AllRowIssues, InvalidCount, RowIssues, ValidatedRow, ValidatedRows, TablesAgree, IssueCollector.Valid;
      var pending := rows[low..high];
      var tables := LoadChunk(pending, source, master, facts);
      invalidRows := 0;
      var written: seq<StagedRow> := [];
      NothingValidated(source, master, facts);
      assert pending[..0] == [];
      for n := 0 to |pending|
        invariant collector.Valid() && collector.drained == old(collector.drained)
                  && collector.mark == old(collector.mark)
        invariant collector.counted == old(collector.counted) + AllRowIssues(pending[..n], source, master, facts)
        invariant written == ValidatedRows(pending[..n], source, master, facts)
        invariant invalidRows == InvalidCount(pending[..n], source, master, facts)
        invariant rows == old(rows)
      {
        var r := pending[n];
        ChunkStep(pending, n, source, master, facts);
        UnacceptedRow(r, source, master, facts);
        EarlierIssues(old(collector.counted), pending, n, source, master, facts);
        var resolved := ValidateRow(tables, r, source, master, facts, collector);
        if resolved.None? {
          invalidRows := invalidRows + 1;
          written := written + [r];
        } else {
          written := written + [resolved.value];
        }
      }
      assert pending[..|pending|] == pending;
      rows := rows[..low] + written + rows[high..];
      WrittenMeans(old(rows), low, high, rows, source, master, facts);
    }

    /** The first loop of `_publish_once`. */
    method ValidatePass(collector: IssueCollector) returns (invalidRows: nat)
      requires Settings() && InRowOrder(rows) && issues == []
      requires collector.Valid() && collector.maximum == maximum && collector.counted == [] && collector.drained == []
               && collector.mark == 0
      modifies this`rows, this`issues, collector
      ensures collector.Valid() && collector.counted == AllRowIssues(old(rows), source, master, facts)
      ensures collector.mark == |collector.counted| && issues == collector.drained
      ensures rows == ValidatedRows(old(rows), source, master, facts)
      ensures invalidRows == InvalidCount(old(rows), source, master, facts)
    {
      hide AllRowIssues, InvalidCount, ValidatedRows, InRowOrder, IssueCollection.Details, IssueCollector.Valid;
      ghost var all := rows;
      NothingValidated(source, master, facts);
      assert all[..0] == [];
      invalidRows := 0;
      var low := 0;
      while low < |rows|
        invariant low <= |rows| == |all|
        invariant rows == ValidatedRows(all[..low], source, master, facts) + all[low..]
        invariant collector.Valid() && collector.maximum == maximum
        invariant collector.counted == AllRowIssues(all[..low], source, master, facts)
        invariant collector.mark == |collector.counted| && issues == collector.drained
        invariant invalidRows == InvalidCount(all[..low], source, master, facts)
      {
        var high := if low + chunk < |rows| then low + chunk else |rows|;
        BeforeChunk(all, low, source, master, facts);
        SameOrder(all, low, source, master, facts);
        ValidatedChunk(all, low, high, rows, source, master, facts);
        SplitRows(all[..low], all[low..high], source, master, facts);
        var found := ResolveAndValidateChunk(low, high, collector);
        invalidRows := invalidRows + found;
        var pending := collector.Drain();
        issues := issues + pending;
        low := high;
      }
      assert all[..|all|] == all;
    }

    /** The row loop of `_link_or_insert_chunk`: existing facts are linked, missing ones are collected for insertion. */
    method LinkExisting(pending: seq<StagedRow>, collector: IssueCollector)
      returns (toInsert: Facts, after: seq<StagedRow>, reused: nat)
      requires InRowOrder(pending) && AllResolved(pending) && collector.Valid() && collector.counted == []
      modifies collector
      ensures collector.Valid() && collector.counted == ConflictIssues(pending, source, facts)
      ensures toInsert == Inserted(pending, source, facts)
      ensures |after| == |pending| && forall i | 0 <= i < |pending| :: after[i] == ReusedOnly(pending[i], source, facts)
      ensures reused + InsertedCount(pending, source, facts) + |collector.counted| == |pending|
    {
      hide IssueCollector.Valid, Conflicts, FactOf, InsertedCount, Inserted, ConflictIssues, FactMatches, FactsByRecord,
           RecordIds, ReusedOnly, LinkedRow, Key, Counted, InRowOrder;
      var existing := FactsByRecord(facts, source, RecordIds(pending));
      toInsert, after, reused := map[], [], 0;
      NothingLinked(source, facts);
      assert pending[..0] == [] && AllResolved([]);
      for n := 0 to |pending|
        invariant collector.Valid() && AllResolved(pending[..n]) && toInsert == Inserted(pending[..n], source, facts)
        invariant collector.counted == ConflictIssues(pending[..n], source, facts)
        invariant |after| == n && forall i | 0 <= i < n :: after[i] == ReusedOnly(pending[i], source, facts)
        invariant reused + InsertedCount(pending[..n], source, facts) + |collector.counted| == n
      {
        var r := pending[n];
        LinkOne(pending, n, existing, source, facts);
        if r.recordId !in existing {
          toInsert := toInsert[Key(source, r) := FactOf(r)];
          after := after + [r];
        } else if FactMatches(r, existing[r.recordId]) {
          after := after + [r.(outcome := RowReused, fact := Some(Key(source, r)))];
          reused := reused + 1;
        } else {
          collector.TotalIsCounted();
          ConflictApart(pending, n, source, facts, collector.mark);
          collector.Add(ConflictIssue(r));
          after := after + [r];
        }
      }
      assert pending[..|pending|] == pending;
    }

    /** The rows of the facts just inserted are linked to them. */
    method LinkInserted(pending: seq<StagedRow>, toInsert: Facts, existing: seq<StagedRow>, ghost known: Facts)
      returns (after: seq<StagedRow>)
      requires AllResolved(pending) && ConflictIssues(pending, source, known) == []
               && toInsert == Inserted(pending, source, known)
      requires |existing| == |pending|
               && forall i | 0 <= i < |pending| :: existing[i] == ReusedOnly(pending[i], source, known)
      ensures after == LinkedRows(pending, source, known)
    {
      hide Conflicts, Inserted, ConflictIssues, ReusedOnly, LinkedRow, Key;
      after := existing;
      for n := 0 to |pending|
        invariant |after| == |pending|
        invariant forall i | 0 <= i < n :: after[i] == LinkedRow(pending[i], source, known)
        invariant forall i | n <= i < |pending| :: after[i] == ReusedOnly(pending[i], source, known)
      {
        LinkLater(pending, n, source, known);
        if Key(source, pending[n]) in toInsert {
          after := after[n := after[n].(outcome := RowPublished, fact := Some(Key(source, pending[n])))];
        }
      }
    }

    /** `_link_or_insert_chunk`: with a conflict anywhere in the chunk nothing is written. */
    method LinkOrInsertChunk(low: nat, high: nat, collector: IssueCollector) returns (linked: Option<(nat, nat)>)
      requires low < high <= |rows| && InRowOrder(rows) && RowsUnique(rows) && AllResolved(rows[low..high])
      requires collector.Valid() && collector.counted == []
      modifies this`rows, this`facts, collector
      ensures collector.Valid() && collector.counted == ConflictIssues(old(rows[low..high]), source, old(facts))
      ensures linked.None? <==> AnyConflict(old(rows[low..high]), source, old(facts))
      ensures linked.None? ==> rows == old(rows) && facts == old(facts)
      ensures linked.Some? ==>
                && facts == old(facts) + Inserted(old(rows[low..high]), source, old(facts))
                && rows == old(rows[..low]) + LinkedRows(old(rows[low..high]), source, old(facts)) + old(rows[high..])
                && linked.value.0 == InsertedCount(old(rows[low..high]), source, old(facts))
                && linked.value.0 + linked.value.1 == high - low
    {
      hide IssueCollector.Valid, Conflicts, InsertedCount, Inserted, ConflictIssues, AnyConflict, ReusedOnly,
           LinkedRows, Key, InRowOrder, RowsUnique;
      ghost var known := facts;
      var pending := rows[low..high];
      SliceUnique(rows, low, high);
      var toInsert, after, reused := LinkExisting(pending, collector);
      ConflictIssuesFacts(pending, source, known);
      collector.TotalIsCounted();
      if collector.total > 0 {
        return None;
      }
      InsertedSize(pending, source, known);
      facts := facts + toInsert;
      after := LinkInserted(pending, toInsert, after, known);
      rows := rows[..low] + after + rows[high..];
      linked := Some((|toInsert|, reused));
    }

    /** The savepoint of `_publish_once`: every chunk is linked, or none is. */
    method LinkPass(collector: IssueCollector) returns (linked: Option<(nat, nat)>)
      requires Settings() && InRowOrder(rows) && RowsUnique(rows) && AllResolved(rows)
      requires collector.Valid() && collector.counted == []
      modifies this`rows, this`facts, collector
      ensures linked.None? <==> AnyConflict(old(rows), source, old(facts))
      ensures linked.None? ==> rows == old(rows) && facts == old(facts) && collector.counted != []
      ensures linked.Some? ==>
                && facts == old(facts) + Inserted(old(rows), source, old(facts))
                && rows == LinkedRows(old(rows), source, old(facts))
                && linked.value.0 == InsertedCount(old(rows), source, old(facts))
                && linked.value.0 + linked.value.1 == |old(rows)|
    {
      hide IssueCollector.Valid, Conflicts, FactOf, InsertedCount, Inserted, ConflictIssues, AnyConflict, LinkedRows,
           InRowOrder, RowsUnique;
      var savedRows, savedFacts := rows, facts;
      ghost var all, known := rows, facts;
      var low, inserted, reused := 0, 0, 0;
      NothingLinked(source, known);
      assert all[..0] == [] && known + map[] == known;
      assert AllResolved([]);
      while low < |rows|
        invariant low <= |rows| == |all| && AllResolved(all[..low])
        invariant rows == LinkedRows(all[..low], source, known) + all[low..]
        invariant facts == known + Inserted(all[..low], source, known)
        invariant inserted == InsertedCount(all[..low], source, known) && inserted + reused == low
        invariant !AnyConflict(all[..low], source, known)
        invariant collector.Valid() && collector.counted == []
      {
        var high := if low + chunk < |rows| then low + chunk else |rows|;
        LinkedChunk(all, low, high, rows, source, known);
        var chunkResult := LinkOrInsertChunk(low, high, collector);
        ConflictIssuesFacts(all[low..high], source, known + Inserted(all[..low], source, known));
        if chunkResult.None? {
          rows, facts := savedRows, savedFacts;
          return None;
        }
        inserted, reused := inserted + chunkResult.value.0, reused + chunkResult.value.1;
        low := high;
      }
      assert all[..|all|] == all;
      linked := Some((inserted, reused));
    }

    /**
      `_publish_once` after its locks: it carries out the plan, whatever the chunk
      size. The second pass never rejects what the first one accepted.
     */
    method Publish() returns (verdict: Verdict)
      requires Settings() && InRowOrder(rows) && RowsUnique(rows) && issues == []
      modifies this`rows, this`issues, this`facts
      ensures match Planned(old(rows), source, master, old(facts), maximum)
              case RejectPlan(rows', issues', counts) =>
                verdict == RejectedFile(counts) && rows == rows' && issues == issues' && facts == old(facts)
              case PublishPlan(rows', inserted, counts) =>
                verdict == PublishedFile(counts) && rows == rows' && issues == [] && facts == old(facts) + inserted
      ensures verdict.PublishedFile? <==> forall r | r in old(rows) :: Acceptable(r, source, master, old(facts))
      ensures |rows| == |old(rows)|
      ensures verdict.PublishedFile? ==> forall i | 0 <= i < |rows| ::
                var r, key := old(rows)[i], FactKey(source, old(rows)[i].recordId);
                && key in facts && FactIs(facts[key], r, master)
                && rows[i].fact == Some(key)
                && rows[i].outcome == (if key in old(facts) then RowReused else RowPublished)
    {
      hide IssueCollector.Valid, AllRowIssues, InvalidCount, Inserted, InsertedCount, LinkedRows, ValidatedRows,
           InRowOrder, RowsUnique, AnyConflict, Conflicts, Release, Acceptable, FactIs;
      PublishMeans(rows, source, master, facts, maximum);
      var totalRows := |rows|;
      ghost var all, known := rows, facts;
      var collector := new IssueCollector(maximum);
      var invalidRows := ValidatePass(collector);
      IssuesCoverInvalid(all, source, master, known);
      collector.TotalIsCounted();
      if collector.total != 0 {
        var persisted := collector.Persisted();
        issues := issues + persisted;
        return RejectedFile(Counts(totalRows, totalRows - invalidRows, invalidRows, collector.total, 0, 0));
      }
      collector.NothingDrained();
      AcceptedClean(all, source, master, known);
      var linked := LinkPass(collector);
      if linked.None? {
        assert false;
      }
      verdict := PublishedFile(Counts(totalRows, totalRows, 0, 0, linked.value.0, linked.value.1));
    }
  }
}
