/**
  Database-backed validation of staged rows: what it means for one row, and the
  chunked code that loads filtered tables for many rows at once.
 */
module ReferenceValidation {
  import opened Results
  import opened Tables
  import opened IssueCollection

  // ----- One row against the whole database -----

  predicate Covers(from: Day, to: Option<Day>, date: Day) {
    from <= date && (to.None? || to.value >= date)
  }

  /** `_is_effective_on`: some assignment of the pair covers the date. */
  predicate AssignedOn(assignments: seq<Assignment>, identity: nat, territory: nat, date: Day) {
    exists a | a in assignments :: a.identity == identity && a.territory == territory && Covers(a.from, a.to, date)
  }

  function Lookup<T>(table: map<string, T>, code: string): Option<T> {
    if code in table then Some(table[code]) else None
  }

  function OptionalLookup<T>(table: map<string, T>, code: string): Option<T> {
    if |code| > 0 then Lookup(table, code) else None
  }

  function IssueIf(wrong: bool, r: StagedRow, column: Column, code: IssueCode): seq<Issue> {
    if wrong then [Issue(Some(r.rowNumber), column, code, MasterDataPhase)] else []
  }

  function RequiredIssues(r: StagedRow, m: Master): seq<Issue> {
    var territory := Lookup(m.territories, r.territory);
    IssueIf(r.date !in m.calendar, r, TransactionDateColumn, CalendarDateNotFound)
    + IssueIf(r.product !in m.products, r, ProductColumn, ProductNotFound)
    + IssueIf(territory.None?, r, TerritoryColumn, TerritoryNotFound)
    + IssueIf(territory.Some? && !territory.value.isLeaf, r, TerritoryColumn, TerritoryNotLeaf)
  }

  function CodeIssues(r: StagedRow, m: Master): seq<Issue> {
    RequiredIssues(r, m)
    + IssueIf(|r.hospital| > 0 && r.hospital !in m.hospitals, r, HospitalColumn, HospitalNotFound)
    + IssueIf(|r.representative| > 0
              && r.representative !in m.representatives, r, RepresentativeColumn, RepresentativeNotFound)
  }

  /** The identity has no assignment to the territory on the date; unresolved codes are reported elsewhere. */
  predicate Mismatched(assignments: seq<Assignment>, identity: Option<nat>, territory: Option<TerritoryRow>,
                       date: Day) {
    identity.Some? && territory.Some? && !AssignedOn(assignments, identity.value, territory.value.id, date)
  }

  function AssignmentIssues(r: StagedRow, m: Master): seq<Issue> {
    var territory := Lookup(m.territories, r.territory);
    IssueIf(Mismatched(m.hospitalAssignments, OptionalLookup(m.hospitals, r.hospital), territory, r.date),
            r, HospitalColumn, HospitalTerritoryMismatch)
    + IssueIf(Mismatched(m.representativeAssignments, OptionalLookup(m.representatives, r.representative), territory,
                         r.date),
              r, RepresentativeColumn, RepresentativeTerritoryMismatch)
  }

  predicate Resolves(r: StagedRow, m: Master) {
    CodeIssues(r, m) == [] && AssignmentIssues(r, m) == []
  }

  function Resolve(r: StagedRow, m: Master): StagedRow
    requires r.product in m.products && r.territory in m.territories
  {
    r.(links := Some(Links(r.date, m.products[r.product], m.territories[r.territory].id,
                           OptionalLookup(m.hospitals, r.hospital),
                           OptionalLookup(m.representatives, r.representative))))
  }

  lemma ResolvesFacts(r: StagedRow, m: Master)
    requires Resolves(r, m)
    ensures r.date in m.calendar && r.product in m.products && r.territory in m.territories
            && m.territories[r.territory].isLeaf
    ensures |r.hospital| > 0 ==> r.hospital in m.hospitals
    ensures |r.representative| > 0 ==> r.representative in m.representatives
  {
  }

  /** `_fact_matches`, once the row's references are resolved. */
  predicate FactMatches(r: StagedRow, fact: Fact)
    requires r.links.Some?
  {
    && fact.links.date == r.date
    && fact.links.product == r.links.value.product
    && fact.links.territory == r.links.value.territory
    && fact.links.hospital == r.links.value.hospital
    && fact.links.representative == r.links.value.representative
    && fact.quantity == r.quantity && fact.revenue == r.revenue && fact.currency == r.currency
  }

  predicate Conflicts(r: StagedRow, source: Source, facts: map<FactKey, Fact>)
    requires r.links.Some?
  {
    FactKey(source, r.recordId) in facts && !FactMatches(r, facts[FactKey(source, r.recordId)])
  }

  function ConflictIssue(r: StagedRow): Issue {
    Issue(Some(r.rowNumber), SourceRecordIdColumn, SourceRecordConflict, IdempotencyPhase)
  }

  function RowIssues(r: StagedRow, source: Source, m: Master, facts: map<FactKey, Fact>): seq<Issue> {
    if !Resolves(r, m) then CodeIssues(r, m) + AssignmentIssues(r, m)
    else
      ResolvesFacts(r, m);
      if Conflicts(Resolve(r, m), source, facts) then [ConflictIssue(r)] else []
  }

  /** What validation writes: the resolved references of an acceptable row. */
  function ValidatedRow(r: StagedRow, source: Source, m: Master, facts: map<FactKey, Fact>): StagedRow {
    if RowIssues(r, source, m, facts) != [] then r
    else
      AcceptedResolves(r, source, m, facts);
      Resolve(r, m)
  }

  lemma AcceptedResolves(r: StagedRow, source: Source, m: Master, facts: map<FactKey, Fact>)
    requires RowIssues(r, source, m, facts) == []
    ensures Resolves(r, m) && r.product in m.products && r.territory in m.territories
    ensures !Conflicts(Resolve(r, m), source, facts)
  {
    if Resolves(r, m) {
      ResolvesFacts(r, m);
    }
  }

  // ----- What the checks mean, field by field -----

  /** The references are those of the row's own codes; an empty optional code names nothing. */
  predicate NamesReferences(links: Links, r: StagedRow, m: Master) {
    && links.date == r.date
    && r.product in m.products && links.product == m.products[r.product]
    && r.territory in m.territories && links.territory == m.territories[r.territory].id
    && (if |r.hospital| == 0 then links.hospital == None
        else r.hospital in m.hospitals && links.hospital == Some(m.hospitals[r.hospital]))
    && (if |r.representative| == 0 then links.representative == None
        else r.representative in m.representatives && links.representative == Some(m.representatives[r.representative]))
  }

  /** The fact has the references and the values of the row. */
  predicate FactIs(fact: Fact, r: StagedRow, m: Master) {
    && NamesReferences(fact.links, r, m) && fact.quantity == r.quantity && fact.revenue == r.revenue
    && fact.currency == r.currency
  }

  /** The codes resolve, to a leaf territory, and the identities are assigned to it on the row's date. */
  predicate ReferencesResolve(r: StagedRow, m: Master) {
    && r.date in m.calendar && r.product in m.products && r.territory in m.territories
    && m.territories[r.territory].isLeaf
    && (|r.hospital| > 0 ==>
          && r.hospital in m.hospitals
          && exists a | a in m.hospitalAssignments ::
               && a.identity == m.hospitals[r.hospital] && a.territory == m.territories[r.territory].id
               && a.from <= r.date && (a.to.None? || r.date <= a.to.value))
    && (|r.representative| > 0 ==>
          && r.representative in m.representatives
          && exists a | a in m.representativeAssignments ::
               && a.identity == m.representatives[r.representative] && a.territory == m.territories[r.territory].id
               && a.from <= r.date && (a.to.None? || r.date <= a.to.value))
  }

  /** The references resolve, and a fact under the row's id has exactly its references and values. */
  predicate Acceptable(r: StagedRow, source: Source, m: Master, facts: map<FactKey, Fact>) {
    && ReferencesResolve(r, m)
    && (FactKey(source, r.recordId) in facts ==> FactIs(facts[FactKey(source, r.recordId)], r, m))
  }

  lemma AssignedMeans(assignments: seq<Assignment>, identity: nat, territory: nat, date: Day)
    ensures AssignedOn(assignments, identity, territory, date)
            <==> exists a | a in assignments ::
                   && a.identity == identity && a.territory == territory
                   && a.from <= date && (a.to.None? || date <= a.to.value)
  {
  }

  lemma ResolvesMeans(r: StagedRow, m: Master)
    ensures Resolves(r, m) <==> ReferencesResolve(r, m)
    ensures Resolves(r, m) ==> NamesReferences(Resolve(r, m).links.value, r, m)
  {
    hide AssignedOn;
    if r.territory in m.territories {
      var t := m.territories[r.territory].id;
      if r.hospital in m.hospitals {
        AssignedMeans(m.hospitalAssignments, m.hospitals[r.hospital], t, r.date);
      }
      if r.representative in m.representatives {
        AssignedMeans(m.representativeAssignments, m.representatives[r.representative], t, r.date);
      }
    }
  }

  /** A row has no issue exactly when it is acceptable, and then it is written with the references its codes name. */
  lemma AcceptanceMeans(r: StagedRow, source: Source, m: Master, facts: map<FactKey, Fact>)
    ensures RowIssues(r, source, m, facts) == [] <==> Acceptable(r, source, m, facts)
    ensures var after := ValidatedRow(r, source, m, facts);
            if Acceptable(r, source, m, facts)
            then after.links.Some? && NamesReferences(after.links.value, r, m) && after == r.(links := after.links)
            else after == r
  {
    hide Resolves, ReferencesResolve;
    ResolvesMeans(r, m);
    NoDetailsNoIssues(r, m);
  }

  /** Some period of the pair covers the date, its first and last day included. */
  predicate EffectiveOn(assignments: seq<Assignment>, identity: nat, territory: nat, date: Day) {
    exists a | a in assignments ::
      && a.identity == identity && a.territory == territory
      && a.from <= date && (a.to.None? || date <= a.to.value)
  }

  /** Which issues a row has: each check, with its column, code and phase. */
  lemma IssueMeans(i: Issue, r: StagedRow, source: Source, m: Master, facts: map<FactKey, Fact>)
    ensures i in RowIssues(r, source, m, facts) <==>
              && i.row == Some(r.rowNumber)
              && match i.code
                 case CalendarDateNotFound =>
                   i.column == TransactionDateColumn && i.phase == MasterDataPhase && r.date !in m.calendar
                 case ProductNotFound =>
                   i.column == ProductColumn && i.phase == MasterDataPhase && r.product !in m.products
                 case TerritoryNotFound =>
                   i.column == TerritoryColumn && i.phase == MasterDataPhase && r.territory !in m.territories
                 case TerritoryNotLeaf =>
                   && i.column == TerritoryColumn && i.phase == MasterDataPhase
                   && r.territory in m.territories && !m.territories[r.territory].isLeaf
                 case HospitalNotFound =>
                   && i.column == HospitalColumn && i.phase == MasterDataPhase
                   && |r.hospital| > 0 && r.hospital !in m.hospitals
                 case RepresentativeNotFound =>
                   && i.column == RepresentativeColumn && i.phase == MasterDataPhase
                   && |r.representative| > 0 && r.representative !in m.representatives
                 case HospitalTerritoryMismatch =>
                   && i.column == HospitalColumn && i.phase == MasterDataPhase
                   && |r.hospital| > 0 && r.hospital in m.hospitals && r.territory in m.territories
                   && !EffectiveOn(m.hospitalAssignments, m.hospitals[r.hospital], m.territories[r.territory].id,
                                   r.date)
                 case RepresentativeTerritoryMismatch =>
                   && i.column == RepresentativeColumn && i.phase == MasterDataPhase
                   && |r.representative| > 0 && r.representative in m.representatives && r.territory in m.territories
                   && !EffectiveOn(m.representativeAssignments, m.representatives[r.representative],
                                   m.territories[r.territory].id, r.date)
                 case SourceRecordConflict =>
                   && i.column == SourceRecordIdColumn && i.phase == IdempotencyPhase
                   && ReferencesResolve(r, m) && FactKey(source, r.recordId) in facts
                   && !FactIs(facts[FactKey(source, r.recordId)], r, m)
                 case _ => false
  {
    hide Resolves, ReferencesResolve, AssignedOn, EffectiveOn;
    ResolvesMeans(r, m);
    if r.territory in m.territories {
      var t := m.territories[r.territory].id;
      if r.hospital in m.hospitals {
        EffectiveIs(m.hospitalAssignments, m.hospitals[r.hospital], t, r.date);
      }
      if r.representative in m.representatives {
        EffectiveIs(m.representativeAssignments, m.representatives[r.representative], t, r.date);
      }
    }
    NoDetailsNoIssues(r, m);
    DetailMeans(i, r, m);
    if Resolves(r, m) {
      ResolvesFacts(r, m);
    }
  }

  lemma EffectiveIs(assignments: seq<Assignment>, identity: nat, territory: nat, date: Day)
    ensures AssignedOn(assignments, identity, territory, date) <==> EffectiveOn(assignments, identity, territory, date)
  {
  }

  lemma DetailMeans(i: Issue, r: StagedRow, m: Master)
    ensures i in CodeIssues(r, m) + AssignmentIssues(r, m)
            <==> i in RequiredIssues(r, m)
                 || i in IssueIf(|r.hospital| > 0 && r.hospital !in m.hospitals, r, HospitalColumn, HospitalNotFound)
                 || i in IssueIf(|r.representative| > 0
                                 && r.representative !in m.representatives, r, RepresentativeColumn,
                                 RepresentativeNotFound)
                 || i in AssignmentIssues(r, m)
  {
    hide RequiredIssues, AssignmentIssues, IssueIf;
  }

  /** Two adjoining periods of a pair are effective on exactly the days from the first to the last, both included. */
  lemma AdjoiningPeriods(identity: nat, territory: nat, first: Day, middle: Day, last: Day, date: Day)
    requires first <= middle < last
    ensures AssignedOn([Assignment(identity, territory, first, Some(middle)),
                        Assignment(identity, territory, middle + 1, Some(last))], identity, territory, date)
            <==> first <= date <= last
    ensures AssignedOn([Assignment(identity, territory, first, None)], identity, territory, date) <==> first <= date
  {
    var a, b :=
      Assignment(identity, territory, first, Some(middle)), Assignment(identity, territory, middle + 1, Some(last));
    var both := [a, b];
    assert both[0] == a && both[1] == b;
    var open := [Assignment(identity, territory, first, None)];
    assert open[0] in open;
  }

  // ----- All rows -----

  function AllRowIssues(rows: seq<StagedRow>, source: Source, m: Master, facts: map<FactKey, Fact>): seq<Issue> {
    if rows == [] then []
    else AllRowIssues(rows[..|rows| - 1], source, m, facts) + RowIssues(rows[|rows| - 1], source, m, facts)
  }

  function InvalidCount(rows: seq<StagedRow>, source: Source, m: Master, facts: map<FactKey, Fact>): nat {
    if rows == [] then 0
    else
      InvalidCount(rows[..|rows| - 1], source, m, facts)
      + if RowIssues(rows[|rows| - 1], source, m, facts) != [] then 1 else 0
  }

  function ValidatedRows(rows: seq<StagedRow>, source: Source, m: Master, facts: map<FactKey, Fact>): seq<StagedRow> {
    seq(|rows|, i requires 0 <= i < |rows| => ValidatedRow(rows[i], source, m, facts))
  }

  /** Every invalid row contributes an issue. */
  lemma {:induction false} IssuesCoverInvalid(rows: seq<StagedRow>, source: Source, m: Master,
                                              facts: map<FactKey, Fact>)
    ensures InvalidCount(rows, source, m, facts) <= |AllRowIssues(rows, source, m, facts)|
    ensures InvalidCount(rows, source, m, facts) <= |rows|
  {
    hide RowIssues;
    if rows != [] {
      IssuesCoverInvalid(rows[..|rows| - 1], source, m, facts);
    }
  }

  lemma {:induction false} SplitRows(a: seq<StagedRow>, b: seq<StagedRow>, source: Source, m: Master,
                                     facts: map<FactKey, Fact>)
    ensures AllRowIssues(a + b, source, m, facts)
            == AllRowIssues(a, source, m, facts) + AllRowIssues(b, source, m, facts)
    ensures InvalidCount(a + b, source, m, facts)
            == InvalidCount(a, source, m, facts) + InvalidCount(b, source, m, facts)
  {
    hide RowIssues;
    if b == [] {
      assert a + b == a;
    } else {
      assert (a + b)[..|a + b| - 1] == a + b[..|b| - 1];
      SplitRows(a, b[..|b| - 1], source, m, facts);
    }
  }

  /** No issue at all means that every row is acceptable. */
  lemma {:induction false} CleanRows(rows: seq<StagedRow>, source: Source, m: Master, facts: map<FactKey, Fact>, i: nat)
    requires AllRowIssues(rows, source, m, facts) == [] && i < |rows|
    ensures RowIssues(rows[i], source, m, facts) == []
  {
    hide RowIssues;
    var n := |rows| - 1;
    assert |AllRowIssues(rows[..n], source, m, facts)| + |RowIssues(rows[n], source, m, facts)| == 0;
    if i < n {
      CleanRows(rows[..n], source, m, facts, i);
    }
  }

  // ----- What a file's issues and counters are -----

  /** The issues of a file are those of its rows. */
  lemma {:induction false} AllIssuesMean(rows: seq<StagedRow>, source: Source, m: Master, facts: map<FactKey, Fact>,
                                         i: Issue)
    ensures i in AllRowIssues(rows, source, m, facts) <==> exists r | r in rows :: i in RowIssues(r, source, m, facts)
  {
    hide RowIssues;
    if rows != [] {
      var n := |rows| - 1;
      assert rows == rows[..n] + [rows[n]];
      AllIssuesMean(rows[..n], source, m, facts, i);
    }
  }

  /** There are none exactly when every row is acceptable. */
  lemma {:induction false} CleanMeans(rows: seq<StagedRow>, source: Source, m: Master, facts: map<FactKey, Fact>)
    ensures AllRowIssues(rows, source, m, facts) == [] <==> forall r | r in rows :: Acceptable(r, source, m, facts)
  {
    hide RowIssues, Acceptable;
    if rows != [] {
      var n := |rows| - 1;
      assert rows == rows[..n] + [rows[n]];
      CleanMeans(rows[..n], source, m, facts);
      AcceptanceMeans(rows[n], source, m, facts);
      assert |AllRowIssues(rows, source, m, facts)|
             == |AllRowIssues(rows[..n], source, m, facts)| + |RowIssues(rows[n], source, m, facts)|;
    }
  }

  /** The places of the rows that are not acceptable. */
  function Unacceptable(rows: seq<StagedRow>, source: Source, m: Master, facts: map<FactKey, Fact>): set<nat> {
    set i: nat | i < |rows| && !Acceptable(rows[i], source, m, facts)
  }

  /** The counter of invalid rows is their number. */
  lemma {:induction false} InvalidMeans(rows: seq<StagedRow>, source: Source, m: Master, facts: map<FactKey, Fact>)
    ensures InvalidCount(rows, source, m, facts) == |Unacceptable(rows, source, m, facts)|
  {
    hide RowIssues, Acceptable;
    if rows == [] {
      assert Unacceptable(rows, source, m, facts) == {};
    } else {
      var n := |rows| - 1;
      InvalidMeans(rows[..n], source, m, facts);
      AcceptanceMeans(rows[n], source, m, facts);
      var before, now := Unacceptable(rows[..n], source, m, facts), Unacceptable(rows, source, m, facts);
      assert now == if Acceptable(rows[n], source, m, facts) then before else before + {n};
    }
  }

  // ----- The issues of one row never coincide -----

  /** The order in which the checks run; each reports its own code. */
  function Rank(code: IssueCode): int {
    match code
    case CalendarDateNotFound => 0
    case ProductNotFound => 1
    case TerritoryNotFound => 2
    case TerritoryNotLeaf => 3
    case HospitalNotFound => 4
    case RepresentativeNotFound => 5
    case HospitalTerritoryMismatch => 6
    case RepresentativeTerritoryMismatch => 7
    case SourceRecordConflict => 8
    case _ => 9
  }

  predicate Ranked(issues: seq<Issue>, row: nat, low: int, high: int) {
    && (forall i | i in issues :: i.row == Some(row) && low <= Rank(i.code) < high)
    && (forall i, j | 0 <= i < j < |issues| :: Rank(issues[i].code) < Rank(issues[j].code))
  }

  lemma RankedJoin(a: seq<Issue>, b: seq<Issue>, row: nat, low: int, middle: int, high: int)
    requires Ranked(a, row, low, middle) && Ranked(b, row, middle, high) && low <= middle <= high
    ensures Ranked(a + b, row, low, high)
  {
    hide Rank;
  }

  lemma RankedIf(wrong: bool, r: StagedRow, column: Column, code: IssueCode)
    ensures Ranked(IssueIf(wrong, r, column, code), r.rowNumber, Rank(code), Rank(code) + 1)
  {
  }

  lemma CodeIssuesRanked(r: StagedRow, m: Master)
    ensures Ranked(CodeIssues(r, m), r.rowNumber, 0, 6)
  {
    hide Ranked, IssueIf, Lookup;
    var n, territory := r.rowNumber, Lookup(m.territories, r.territory);
    var noDate, noProduct, noTerritory := r.date !in m.calendar, r.product !in m.products, territory.None?;
    var notLeaf := territory.Some? && !territory.value.isLeaf;
    var noHospital, noRepresentative := |r.hospital| > 0 && r.hospital !in m.hospitals, |r.representative| > 0
      && r.representative !in m.representatives;
    RankedIf(noDate, r, TransactionDateColumn, CalendarDateNotFound);
    RankedIf(noProduct, r, ProductColumn, ProductNotFound);
    RankedIf(noTerritory, r, TerritoryColumn, TerritoryNotFound);
    RankedIf(notLeaf, r, TerritoryColumn, TerritoryNotLeaf);
    RankedIf(noHospital, r, HospitalColumn, HospitalNotFound);
    RankedIf(noRepresentative, r, RepresentativeColumn, RepresentativeNotFound);
    var a := IssueIf(noDate, r, TransactionDateColumn, CalendarDateNotFound);
    var b := a + IssueIf(noProduct, r, ProductColumn, ProductNotFound);
    var c := b + IssueIf(noTerritory, r, TerritoryColumn, TerritoryNotFound);
    var d := c + IssueIf(notLeaf, r, TerritoryColumn, TerritoryNotLeaf);
    var e := d + IssueIf(noHospital, r, HospitalColumn, HospitalNotFound);
    RankedJoin(a, IssueIf(noProduct, r, ProductColumn, ProductNotFound), n, 0, 1, 2);
    RankedJoin(b, IssueIf(noTerritory, r, TerritoryColumn, TerritoryNotFound), n, 0, 2, 3);
    RankedJoin(c, IssueIf(notLeaf, r, TerritoryColumn, TerritoryNotLeaf), n, 0, 3, 4);
    RankedJoin(d, IssueIf(noHospital, r, HospitalColumn, HospitalNotFound), n, 0, 4, 5);
    RankedJoin(e, IssueIf(noRepresentative, r, RepresentativeColumn, RepresentativeNotFound), n, 0, 5, 6);
  }

  lemma AssignmentIssuesRanked(r: StagedRow, m: Master)
    ensures Ranked(AssignmentIssues(r, m), r.rowNumber, 6, 8)
  {
    hide Lookup, OptionalLookup, Mismatched;
  }

  lemma RowIssuesRanked(r: StagedRow, source: Source, m: Master, facts: map<FactKey, Fact>)
    ensures Ranked(RowIssues(r, source, m, facts), r.rowNumber, 0, 9)
    ensures (exists i | i in RowIssues(r, source, m, facts) :: i.code == SourceRecordConflict)
            <==> RowIssues(r, source, m, facts) == [ConflictIssue(r)]
  {
    hide CodeIssues, AssignmentIssues, Conflicts;
    CodeIssuesRanked(r, m);
    AssignmentIssuesRanked(r, m);
    if Resolves(r, m) {
      ResolvesFacts(r, m);
    } else {
      RankedJoin(CodeIssues(r, m), AssignmentIssues(r, m), r.rowNumber, 0, 6, 8);
    }
  }

  lemma {:induction false} AllRowIssuesUnique(rows: seq<StagedRow>, source: Source, m: Master,
                                              facts: map<FactKey, Fact>)
    requires InRowOrder(rows)
    ensures IssuesUnique(AllRowIssues(rows, source, m, facts))
    ensures forall i | i in AllRowIssues(rows, source, m, facts) ::
              i.row.Some? && exists k | 0 <= k < |rows| :: rows[k].rowNumber == i.row.value
    ensures forall i | i in AllRowIssues(rows, source, m, facts) :: i.code != IssueLimitReached
  {
    hide RowIssues;
    if rows != [] {
      var n := |rows| - 1;
      var before, own := AllRowIssues(rows[..n], source, m, facts), RowIssues(rows[n], source, m, facts);
      AllRowIssuesUnique(rows[..n], source, m, facts);
      RowIssuesRanked(rows[n], source, m, facts);
      forall i | i in before
        ensures i.row != Some(rows[n].rowNumber) && exists k | 0 <= k < |rows| :: rows[k].rowNumber == i.row.value
      {
        var k :| 0 <= k < n && rows[..n][k].rowNumber == i.row.value;
        assert rows[k].rowNumber == i.row.value;
      }
      JoinOwn(before, own, rows[n].rowNumber);
    }
  }

  lemma JoinOwn(before: seq<Issue>, own: seq<Issue>, row: nat)
    requires IssuesUnique(before) && Ranked(own, row, 0, 9) && forall i | i in before :: i.row != Some(row)
    ensures IssuesUnique(before + own)
  {
  }

  // ----- The filtered tables of one chunk -----

  datatype Period = Period(from: Day, to: Option<Day>)

  type Periods = map<(nat, nat), seq<Period>>

  datatype ChunkTables = ChunkTables(
    calendar: set<Day>, products: map<string, nat>, territories: map<string, TerritoryRow>,
    hospitals: map<string, nat>, representatives: map<string, nat>,
    hospitalPeriods: Periods, representativePeriods: Periods, facts: map<string, Fact>)

  /** `_is_effective`. */
  predicate IsEffective(periods: seq<Period>, date: Day) {
    exists p | p in periods :: Covers(p.from, p.to, date)
  }

  function PeriodsOf(grouped: Periods, identity: nat, territory: nat): seq<Period> {
    if (identity, territory) in grouped then grouped[(identity, territory)] else []
  }

  /** `_master_map`. */
  function MasterMap<T>(table: map<string, T>, codes: set<string>): map<string, T> {
    map c | c in table && c in codes :: table[c]
  }

  predicate Selected(a: Assignment, identities: set<nat>, territories: set<nat>, minimum: Day, maximum: Day) {
    && a.identity in identities && a.territory in territories
    && a.from <= maximum && (a.to.None? || a.to.value >= minimum)
  }

  predicate Groups(grouped: Periods, assignments: seq<Assignment>, identities: set<nat>, territories: set<nat>,
                   minimum: Day, maximum: Day) {
    && (forall key | key in grouped :: forall p | p in grouped[key] ::
          exists a | a in assignments :: a.identity == key.0 && a.territory == key.1 && p == Period(a.from, a.to))
    && (forall a | a in assignments && Selected(a, identities, territories, minimum, maximum) ::
          Period(a.from, a.to) in PeriodsOf(grouped, a.identity, a.territory))
  }

  lemma GroupsNext(grouped: Periods, assignments: seq<Assignment>, a: Assignment, identities: set<nat>,
                   territories: set<nat>, minimum: Day, maximum: Day)
    requires Groups(grouped, assignments, identities, territories, minimum, maximum)
    ensures !Selected(a, identities, territories, minimum, maximum) ==>
              Groups(grouped, assignments + [a], identities, territories, minimum, maximum)
    ensures Groups(grouped[(a.identity, a.territory) := PeriodsOf(grouped, a.identity, a.territory)
                           + [Period(a.from, a.to)]],
                   assignments + [a], identities, territories, minimum, maximum)
  {
    hide Selected;
    var key' := (a.identity, a.territory);
    var grouped' := grouped[key' := PeriodsOf(grouped, a.identity, a.territory) + [Period(a.from, a.to)]];
    assert a in assignments + [a];
    forall key, p | key in grouped' && p in grouped'[key]
      ensures exists b | b in assignments + [a] ::
                b.identity == key.0 && b.territory == key.1 && p == Period(b.from, b.to)
    {
      if key in grouped && p in grouped[key] {
        var b :| b in assignments && b.identity == key.0 && b.territory == key.1 && p == Period(b.from, b.to);
        assert b in assignments + [a];
      }
    }
    forall key, p | key in grouped && p in grouped[key]
      ensures exists b | b in assignments + [a] ::
                b.identity == key.0 && b.territory == key.1 && p == Period(b.from, b.to)
    {
      var b :| b in assignments && b.identity == key.0 && b.territory == key.1 && p == Period(b.from, b.to);
      assert b in assignments + [a];
    }
  }

  /**
    `_effective_assignment_ids`. Dropping assignments outside the chunk's dates
    never changes the answer for a date inside them.
   */
  method EffectiveAssignments(assignments: seq<Assignment>, identities: set<nat>, territories: set<nat>, minimum: Day,
                              maximum: Day)
    returns (grouped: Periods)
    ensures forall identity, territory, date | identity in identities && territory in territories
              && minimum <= date <= maximum ::
              IsEffective(PeriodsOf(grouped, identity, territory), date)
              <==> AssignedOn(assignments, identity, territory, date)
    ensures forall identity, territory, date | identity in identities && territory in territories
              && minimum <= date <= maximum ::
              IsEffective(PeriodsOf(grouped, identity, territory), date)
              <==> exists a | a in assignments ::
                     && a.identity == identity && a.territory == territory
                     && a.from <= date && (a.to.None? || date <= a.to.value)
  {
    grouped := map[];
    if identities == {} || territories == {} {
      return;
    }
    for n := 0 to |assignments|
      invariant Groups(grouped, assignments[..n], identities, territories, minimum, maximum)
    {
      var a := assignments[n];
      GroupsNext(grouped, assignments[..n], a, identities, territories, minimum, maximum);
      assert assignments[..n + 1] == assignments[..n] + [a];
      if Selected(a, identities, territories, minimum, maximum) {
        grouped :=
          grouped[(a.identity, a.territory) := PeriodsOf(grouped, a.identity, a.territory) + [Period(a.from, a.to)]];
      }
    }
    assert assignments[..|assignments|] == assignments;
    forall identity, territory, date | identity in identities && territory in territories && minimum <= date <= maximum
      ensures IsEffective(PeriodsOf(grouped, identity, territory), date)
              <==> AssignedOn(assignments, identity, territory, date)
      ensures AssignedOn(assignments, identity, territory, date)
              <==> exists a | a in assignments ::
                     && a.identity == identity && a.territory == territory
                     && a.from <= date && (a.to.None? || date <= a.to.value)
    {
      GroupsAnswer(grouped, assignments, identities, territories, minimum, maximum, identity, territory, date);
    }
  }

  lemma GroupsAnswer(grouped: Periods, assignments: seq<Assignment>, identities: set<nat>, territories: set<nat>,
                     minimum: Day, maximum: Day, identity: nat, territory: nat, date: Day)
    requires Groups(grouped, assignments, identities, territories, minimum, maximum)
    requires identity in identities && territory in territories && minimum <= date <= maximum
    ensures IsEffective(PeriodsOf(grouped, identity, territory), date)
            <==> AssignedOn(assignments, identity, territory, date)
    ensures AssignedOn(assignments, identity, territory, date)
            <==> exists a | a in assignments ::
                   && a.identity == identity && a.territory == territory
                   && a.from <= date && (a.to.None? || date <= a.to.value)
  {
    AssignedMeans(assignments, identity, territory, date);
    if AssignedOn(assignments, identity, territory, date) {
      var a :| a in assignments && a.identity == identity && a.territory == territory && Covers(a.from, a.to, date);
      assert Selected(a, identities, territories, minimum, maximum);
      assert Period(a.from, a.to) in PeriodsOf(grouped, identity, territory);
    }
    if IsEffective(PeriodsOf(grouped, identity, territory), date) {
      var p :| p in PeriodsOf(grouped, identity, territory) && Covers(p.from, p.to, date);
      var a :| a in assignments && a.identity == identity && a.territory == territory && p == Period(a.from, a.to);
    }
  }

  function Minimum(rows: seq<StagedRow>): (d: Day)
    requires rows != []
    ensures forall r | r in rows :: d <= r.date
  {
    if |rows| == 1 then rows[0].date
    else
      var d := Minimum(rows[..|rows| - 1]);
      if rows[|rows| - 1].date < d then rows[|rows| - 1].date else d
  }

  function Maximum(rows: seq<StagedRow>): (d: Day)
    requires rows != []
    ensures forall r | r in rows :: d >= r.date
  {
    if |rows| == 1 then rows[0].date
    else
      var d := Maximum(rows[..|rows| - 1]);
      if rows[|rows| - 1].date > d then rows[|rows| - 1].date else d
  }

  function Identifiers(table: map<string, nat>): set<nat> {
    set c | c in table :: table[c]
  }

  function TerritoryIdentifiers(table: map<string, TerritoryRow>): set<nat> {
    set c | c in table :: table[c].id
  }

  predicate PeriodsAgree(grouped: Periods, assignments: seq<Assignment>, identity: Option<nat>,
                         territory: Option<TerritoryRow>, date: Day) {
    identity.Some? && territory.Some? ==>
      (IsEffective(PeriodsOf(grouped, identity.value, territory.value.id), date)
       <==> AssignedOn(assignments, identity.value, territory.value.id, date))
  }

  /** For row `r`, the filtered tables answer every question like the full ones. */
  predicate TablesAgree(t: ChunkTables, r: StagedRow, source: Source, m: Master, facts: map<FactKey, Fact>) {
    && (r.date in t.calendar <==> r.date in m.calendar)
    && Lookup(t.products, r.product) == Lookup(m.products, r.product)
    && Lookup(t.territories, r.territory) == Lookup(m.territories, r.territory)
    && OptionalLookup(t.hospitals, r.hospital) == OptionalLookup(m.hospitals, r.hospital)
    && OptionalLookup(t.representatives, r.representative) == OptionalLookup(m.representatives, r.representative)
    && PeriodsAgree(t.hospitalPeriods, m.hospitalAssignments, OptionalLookup(m.hospitals, r.hospital),
                    Lookup(m.territories, r.territory), r.date)
    && PeriodsAgree(t.representativePeriods, m.representativeAssignments,
                    OptionalLookup(m.representatives, r.representative),
                    Lookup(m.territories, r.territory), r.date)
    && FactsAgree(t.facts, r, source, facts)
  }

  predicate FactsAgree(loaded: map<string, Fact>, r: StagedRow, source: Source, facts: map<FactKey, Fact>) {
    Lookup(loaded, r.recordId)
      == if FactKey(source, r.recordId) in facts then Some(facts[FactKey(source, r.recordId)]) else None
  }

  function FactsByRecord(facts: map<FactKey, Fact>, source: Source, ids: set<string>): map<string, Fact> {
    map id | id in ids && FactKey(source, id) in facts :: facts[FactKey(source, id)]
  }

  lemma MasterMapAgrees<T>(table: map<string, T>, codes: set<string>, code: string)
    ensures code in codes ==> Lookup(MasterMap(table, codes), code) == Lookup(table, code)
    ensures |code| > 0 && code in codes ==> OptionalLookup(MasterMap(table, codes), code) == OptionalLookup(table, code)
  {
  }

  function ProductCodes(rows: seq<StagedRow>): set<string> {
    set r | r in rows :: r.product
  }

  function TerritoryCodes(rows: seq<StagedRow>): set<string> {
    set r | r in rows :: r.territory
  }

  function HospitalCodes(rows: seq<StagedRow>): set<string> {
    set r | r in rows && |r.hospital| > 0 :: r.hospital
  }

  function RepresentativeCodes(rows: seq<StagedRow>): set<string> {
    set r | r in rows && |r.representative| > 0 :: r.representative
  }

  function Dates(rows: seq<StagedRow>): set<Day> {
    set r | r in rows :: r.date
  }

  function RecordIds(rows: seq<StagedRow>): set<string> {
    set r | r in rows :: r.recordId
  }

  lemma CodesOf(rows: seq<StagedRow>, r: StagedRow)
    requires r in rows
    ensures r.product in ProductCodes(rows) && r.territory in TerritoryCodes(rows)
    ensures r.date in Dates(rows) && r.recordId in RecordIds(rows)
    ensures |r.hospital| > 0 ==> r.hospital in HospitalCodes(rows)
    ensures |r.representative| > 0 ==> r.representative in RepresentativeCodes(rows)
  {
  }

  /** The queries at the head of `_resolve_and_validate_chunk`. */
  method LoadChunk(rows: seq<StagedRow>, source: Source, m: Master, facts: map<FactKey, Fact>) returns (t: ChunkTables)
    requires rows != []
    ensures forall r | r in rows :: TablesAgree(t, r, source, m, facts)
  {
    hide IsEffective, AssignedOn, PeriodsOf, Minimum, Maximum, PeriodsAgree, MasterMap, Lookup, OptionalLookup,
         ProductCodes, TerritoryCodes, HospitalCodes, RepresentativeCodes, Dates, RecordIds, Identifiers,
         TerritoryIdentifiers, FactsByRecord, FactsAgree;
    var products := MasterMap(m.products, ProductCodes(rows));
    var territories := MasterMap(m.territories, TerritoryCodes(rows));
    var hospitals := MasterMap(m.hospitals, HospitalCodes(rows));
    var representatives := MasterMap(m.representatives, RepresentativeCodes(rows));
    var minimum, maximum := Minimum(rows), Maximum(rows);
    var hospitalPeriods :=
      EffectiveAssignments(m.hospitalAssignments, Identifiers(hospitals), TerritoryIdentifiers(territories), minimum,
                           maximum);
    var representativePeriods :=
      EffectiveAssignments(m.representativeAssignments, Identifiers(representatives), TerritoryIdentifiers(territories),
                           minimum, maximum);
    t := ChunkTables(Dates(rows) * m.calendar, products, territories, hospitals, representatives, hospitalPeriods,
                     representativePeriods,
                     FactsByRecord(facts, source, RecordIds(rows)));
    forall r | r in rows ensures TablesAgree(t, r, source, m, facts) {
      CodesOf(rows, r);
      MasterMapAgrees(m.products, ProductCodes(rows), r.product);
      MasterMapAgrees(m.territories, TerritoryCodes(rows), r.territory);
      LoadedIdentity(m.hospitals, HospitalCodes(rows), r.hospital);
      LoadedIdentity(m.representatives, RepresentativeCodes(rows), r.representative);
      LoadedTerritory(m.territories, TerritoryCodes(rows), r.territory);
      LoadedFact(facts, source, RecordIds(rows), r);
      PeriodsOfChunk(hospitalPeriods, m.hospitalAssignments, Identifiers(hospitals), TerritoryIdentifiers(territories),
                     minimum, maximum,
                     OptionalLookup(m.hospitals, r.hospital), Lookup(m.territories, r.territory), r);
      PeriodsOfChunk(representativePeriods, m.representativeAssignments, Identifiers(representatives),
                     TerritoryIdentifiers(territories),
                     minimum, maximum, OptionalLookup(m.representatives, r.representative),
                     Lookup(m.territories, r.territory), r);
    }
  }

  lemma LoadedIdentity(table: map<string, nat>, codes: set<string>, code: string)
    requires |code| > 0 ==> code in codes
    ensures OptionalLookup(MasterMap(table, codes), code) == OptionalLookup(table, code)
    ensures OptionalLookup(table, code).Some?
            ==> OptionalLookup(table, code).value in Identifiers(MasterMap(table, codes))
  {
    if code in table && code in codes {
      assert MasterMap(table, codes)[code] == table[code];
    }
  }

  lemma LoadedTerritory(table: map<string, TerritoryRow>, codes: set<string>, code: string)
    requires code in codes
    ensures Lookup(table, code).Some? ==> Lookup(table, code).value.id in TerritoryIdentifiers(MasterMap(table, codes))
  {
    if code in table {
      assert MasterMap(table, codes)[code] == table[code];
    }
  }

  lemma LoadedFact(facts: map<FactKey, Fact>, source: Source, ids: set<string>, r: StagedRow)
    requires r.recordId in ids
    ensures FactsAgree(FactsByRecord(facts, source, ids), r, source, facts)
  {
  }

  lemma PeriodsOfChunk(grouped: Periods, assignments: seq<Assignment>, identities: set<nat>, territories: set<nat>,
                       minimum: Day, maximum: Day, identity: Option<nat>, territory: Option<TerritoryRow>, r: StagedRow)
    requires forall i, t, date | i in identities && t in territories && minimum <= date <= maximum ::
               IsEffective(PeriodsOf(grouped, i, t), date) <==> AssignedOn(assignments, i, t, date)
    requires minimum <= r.date <= maximum
    requires identity.Some? ==> identity.value in identities
    requires territory.Some? ==> territory.value.id in territories
    ensures PeriodsAgree(grouped, assignments, identity, territory, r.date)
  {
  }

  // ----- One row against the filtered tables -----

  lemma AddApart(counted: seq<Issue>, mark: nat, issue: Issue)
    requires mark <= |counted| && forall i | i in counted :: i.row != issue.row || i.code != issue.code
    ensures Counted(counted, mark, issue) == counted + [issue]
  {
    forall i | i in counted[mark..] ensures IdentityOf(i) != IdentityOf(issue) {
      assert i in counted;
    }
  }

  /** Counts an issue when `wrong`, after issues of earlier rows and of earlier checks of this row. */
  method AddIf(collector: IssueCollector, wrong: bool, r: StagedRow, column: Column, code: IssueCode,
               ghost before: seq<Issue>, ghost own: seq<Issue>)
    requires collector.Valid() && collector.counted == before + own
    requires (forall i | i in before :: i.row != Some(r.rowNumber)) && Ranked(own, r.rowNumber, 0, Rank(code))
             && Rank(code) < 9
    modifies collector
    ensures collector.Valid() && collector.drained == old(collector.drained) && collector.mark == old(collector.mark)
    ensures collector.counted == before + (own + IssueIf(wrong, r, column, code))
    ensures Ranked(own + IssueIf(wrong, r, column, code), r.rowNumber, 0, Rank(code) + 1)
  {
    hide Identities, IssueCollection.Details, Counted, Ranked;
    RankedIf(wrong, r, column, code);
    RankedJoin(own, IssueIf(wrong, r, column, code), r.rowNumber, 0, Rank(code), Rank(code) + 1);
    if wrong {
      var issue := Issue(Some(r.rowNumber), column, code, MasterDataPhase);
      RankedBelow(before, own, r.rowNumber, issue);
      AddApart(before + own, collector.mark, issue);
      collector.Add(issue);
      assert (before + own) + [issue] == before + (own + [issue]);
    } else {
      assert own + [] == own;
    }
  }

  lemma RankedBelow(before: seq<Issue>, own: seq<Issue>, row: nat, issue: Issue)
    requires (forall i | i in before :: i.row != Some(row)) && Ranked(own, row, 0, Rank(issue.code))
             && issue.row == Some(row)
    ensures forall i | i in before + own :: i.row != issue.row || i.code != issue.code
  {
  }

  lemma TablesAnswer(t: ChunkTables, r: StagedRow, source: Source, m: Master, facts: map<FactKey, Fact>)
    requires TablesAgree(t, r, source, m, facts)
    ensures (r.date !in t.calendar) == (r.date !in m.calendar)
    ensures Lookup(t.products, r.product).None? == (r.product !in m.products)
    ensures Lookup(t.territories, r.territory) == Lookup(m.territories, r.territory)
    ensures (|r.hospital| > 0 && OptionalLookup(t.hospitals, r.hospital).None?)
            == (|r.hospital| > 0 && r.hospital !in m.hospitals)
    ensures (|r.representative| > 0 && OptionalLookup(t.representatives, r.representative).None?)
            == (|r.representative| > 0 && r.representative !in m.representatives)
    ensures LoadedMismatch(t.hospitalPeriods, OptionalLookup(t.hospitals, r.hospital),
                           Lookup(t.territories, r.territory), r.date)
            == Mismatched(m.hospitalAssignments, OptionalLookup(m.hospitals, r.hospital),
                          Lookup(m.territories, r.territory), r.date)
    ensures LoadedMismatch(t.representativePeriods, OptionalLookup(t.representatives, r.representative),
                           Lookup(t.territories, r.territory), r.date)
            == Mismatched(m.representativeAssignments, OptionalLookup(m.representatives, r.representative),
                          Lookup(m.territories, r.territory), r.date)
  {
    hide IsEffective, AssignedOn, PeriodsOf, FactsAgree;
  }

  predicate LoadedMismatch(grouped: Periods, identity: Option<nat>, territory: Option<TerritoryRow>, date: Day) {
    identity.Some? && territory.Some? && !IsEffective(PeriodsOf(grouped, identity.value, territory.value.id), date)
  }

  function LoadedLinks(t: ChunkTables, r: StagedRow): Option<Links> {
    var product, territory := Lookup(t.products, r.product), Lookup(t.territories, r.territory);
    if product.Some? && territory.Some? then
      Some(Links(r.date, product.value, territory.value.id, OptionalLookup(t.hospitals, r.hospital),
                 OptionalLookup(t.representatives, r.representative)))
    else None
  }

  lemma LoadedLinksResolve(t: ChunkTables, r: StagedRow, source: Source, m: Master, facts: map<FactKey, Fact>)
    requires TablesAgree(t, r, source, m, facts) && Resolves(r, m)
    ensures r.product in m.products && r.territory in m.territories
    ensures LoadedLinks(t, r).Some? && r.(links := LoadedLinks(t, r)) == Resolve(r, m)
    ensures Conflicts(Resolve(r, m), source, facts)
            <==> r.recordId in t.facts && !FactMatches(r.(links := LoadedLinks(t, r)), t.facts[r.recordId])
  {
    hide CodeIssues, AssignmentIssues, PeriodsAgree, FactMatches;
    ResolvesFacts(r, m);
  }

  /** The checks of the date, the product and the territory. */
  method CheckRequiredCodes(t: ChunkTables, r: StagedRow, ghost m: Master, collector: IssueCollector)
    requires collector.Valid() && forall i | i in collector.counted :: i.row != Some(r.rowNumber)
    requires (r.date !in t.calendar) == (r.date !in m.calendar)
    requires Lookup(t.products, r.product).None? == (r.product !in m.products)
    requires Lookup(t.territories, r.territory) == Lookup(m.territories, r.territory)
    modifies collector
    ensures collector.Valid() && collector.drained == old(collector.drained) && collector.mark == old(collector.mark)
    ensures collector.counted == old(collector.counted) + RequiredIssues(r, m)
            && Ranked(RequiredIssues(r, m), r.rowNumber, 0, 4)
  {
    hide Ranked, IssueIf, IssueCollector.Valid, Lookup, Rank;
    Ranks();
    NothingRanked(r.rowNumber);
    ghost var before := collector.counted;
    var product, territory := Lookup(t.products, r.product), Lookup(t.territories, r.territory);
    var noDate, noProduct, noTerritory := r.date !in t.calendar, product.None?, territory.None?;
    var notLeaf := territory.Some? && !territory.value.isLeaf;
    assert before + [] == before;
    AddIf(collector, noDate, r, TransactionDateColumn, CalendarDateNotFound, before, []);
    ghost var own := IssueIf(noDate, r, TransactionDateColumn, CalendarDateNotFound);
    assert [] + own == own;
    AddIf(collector, noProduct, r, ProductColumn, ProductNotFound, before, own);
    own := own + IssueIf(noProduct, r, ProductColumn, ProductNotFound);
    AddIf(collector, noTerritory, r, TerritoryColumn, TerritoryNotFound, before, own);
    own := own + IssueIf(noTerritory, r, TerritoryColumn, TerritoryNotFound);
    AddIf(collector, notLeaf, r, TerritoryColumn, TerritoryNotLeaf, before, own);
  }

  /** The checks of one row against the codes, in their order. */
  method CheckCodes(t: ChunkTables, r: StagedRow, ghost m: Master, collector: IssueCollector)
    requires collector.Valid() && forall i | i in collector.counted :: i.row != Some(r.rowNumber)
    requires (r.date !in t.calendar) == (r.date !in m.calendar)
    requires Lookup(t.products, r.product).None? == (r.product !in m.products)
    requires Lookup(t.territories, r.territory) == Lookup(m.territories, r.territory)
    requires (|r.hospital| > 0 && OptionalLookup(t.hospitals, r.hospital).None?)
             == (|r.hospital| > 0 && r.hospital !in m.hospitals)
    requires (|r.representative| > 0 && OptionalLookup(t.representatives, r.representative).None?)
             == (|r.representative| > 0 && r.representative !in m.representatives)
    modifies collector
    ensures collector.Valid() && collector.drained == old(collector.drained) && collector.mark == old(collector.mark)
    ensures collector.counted == old(collector.counted) + CodeIssues(r, m)
            && Ranked(CodeIssues(r, m), r.rowNumber, 0, 6)
  {
    hide Ranked, IssueIf, IssueCollector.Valid, Lookup, OptionalLookup, Rank, RequiredIssues;
    Ranks();
    ghost var before := collector.counted;
    CheckRequiredCodes(t, r, m, collector);
    var hospital, representative :=
      OptionalLookup(t.hospitals, r.hospital), OptionalLookup(t.representatives, r.representative);
    var noHospital, noRepresentative := |r.hospital| > 0 && hospital.None?, |r.representative| > 0
      && representative.None?;
    ghost var own := RequiredIssues(r, m);
    AddIf(collector, noHospital, r, HospitalColumn, HospitalNotFound, before, own);
    own := own + IssueIf(noHospital, r, HospitalColumn, HospitalNotFound);
    AddIf(collector, noRepresentative, r, RepresentativeColumn, RepresentativeNotFound, before, own);
  }

  /** The checks of one row against codes and assignments, in their order. */
  method CheckReferences(t: ChunkTables, r: StagedRow, ghost source: Source, ghost m: Master,
                         ghost facts: map<FactKey, Fact>, collector: IssueCollector)
    requires collector.Valid() && TablesAgree(t, r, source, m, facts)
             && forall i | i in collector.counted :: i.row != Some(r.rowNumber)
    modifies collector
    ensures collector.Valid() && collector.drained == old(collector.drained) && collector.mark == old(collector.mark)
    ensures collector.counted == old(collector.counted) + (CodeIssues(r, m) + AssignmentIssues(r, m))
  {
    hide TablesAgree, CodeIssues, Ranked, IssueIf, Mismatched, LoadedMismatch, IssueCollection.Details, Identities,
         Lookup, OptionalLookup;
    TablesAnswer(t, r, source, m, facts);
    ghost var before := collector.counted;
    CheckCodes(t, r, m, collector);
    var territory := Lookup(t.territories, r.territory);
    var hospital, representative :=
      OptionalLookup(t.hospitals, r.hospital), OptionalLookup(t.representatives, r.representative);
    ghost var own := CodeIssues(r, m);
    var mismatch := LoadedMismatch(t.hospitalPeriods, hospital, territory, r.date);
    AddIf(collector, mismatch, r, HospitalColumn, HospitalTerritoryMismatch, before, own);
    own := own + IssueIf(mismatch, r, HospitalColumn, HospitalTerritoryMismatch);
    mismatch := LoadedMismatch(t.representativePeriods, representative, territory, r.date);
    AddIf(collector, mismatch, r, RepresentativeColumn, RepresentativeTerritoryMismatch, before, own);
    own := own + IssueIf(mismatch, r, RepresentativeColumn, RepresentativeTerritoryMismatch);
    assert own == CodeIssues(r, m) + AssignmentIssues(r, m);
  }

  lemma Ranks()
    ensures Rank(CalendarDateNotFound) == 0 && Rank(ProductNotFound) == 1 && Rank(TerritoryNotFound) == 2
    ensures Rank(TerritoryNotLeaf) == 3 && Rank(HospitalNotFound) == 4 && Rank(RepresentativeNotFound) == 5
  {
  }

  lemma NothingRanked(row: nat)
    ensures Ranked([], row, 0, 0)
  {
  }

  lemma NoDetailsNoIssues(r: StagedRow, m: Master)
    ensures |CodeIssues(r, m) + AssignmentIssues(r, m)| == 0 <==> Resolves(r, m)
  {
    hide CodeIssues, AssignmentIssues;
  }

  /** The body of the row loop: an acceptable row comes back with its references resolved. */
  method ValidateRow(t: ChunkTables, r: StagedRow, ghost source: Source, ghost m: Master,
                     ghost facts: map<FactKey, Fact>, collector: IssueCollector) returns (resolved: Option<StagedRow>)
    requires collector.Valid() && TablesAgree(t, r, source, m, facts)
             && forall i | i in collector.counted :: i.row != Some(r.rowNumber)
    modifies collector
    ensures collector.Valid() && collector.drained == old(collector.drained) && collector.mark == old(collector.mark)
    ensures collector.counted == old(collector.counted) + RowIssues(r, source, m, facts)
    ensures resolved == if RowIssues(r, source, m, facts) == [] then Some(ValidatedRow(r, source, m, facts)) else None
    ensures resolved.Some? <==> Acceptable(r, source, m, facts)
    ensures resolved.Some? ==>
              && resolved.value.links.Some? && NamesReferences(resolved.value.links.value, r, m)
              && resolved.value == r.(links := resolved.value.links)
  {
    hide TablesAgree, CodeIssues, AssignmentIssues, FactMatches, IssueCollection.Details, Identities, LoadedLinks,
         Counted, Acceptable, NamesReferences;
    AcceptanceMeans(r, source, m, facts);
    var rowIssueCount := collector.total;
    CheckReferences(t, r, source, m, facts, collector);
    NoDetailsNoIssues(r, m);
    if collector.total > rowIssueCount {
      return None;
    }
    LoadedLinksResolve(t, r, source, m, facts);
    assert collector.counted == old(collector.counted);
    var row := r.(links := LoadedLinks(t, r));
    if r.recordId in t.facts && !FactMatches(row, t.facts[r.recordId]) {
      AddApart(collector.counted, collector.mark, ConflictIssue(r));
      collector.Add(ConflictIssue(r));
      return None;
    }
    resolved := Some(row);
  }

  // ----- The simple specification used elsewhere -----

  /** An object that may not have been saved yet. */
  datatype Saved = Saved(pk: Option<nat>)

  datatype DimensionError = TerritoryError | HospitalError | RepresentativeError

  predicate HasError(e: DimensionError, date: Option<Day>, territory: Option<TerritoryRow>, hospital: Option<Saved>,
                     representative: Option<Saved>, m: Master)
  {
    match e
    case TerritoryError => territory.Some? && !territory.value.isLeaf
    case HospitalError =>
      date.Some? && territory.Some? && Unassigned(m.hospitalAssignments, hospital, territory.value, date.value)
    case RepresentativeError =>
      date.Some? && territory.Some?
      && Unassigned(m.representativeAssignments, representative, territory.value, date.value)
  }

  predicate Unassigned(assignments: seq<Assignment>, identity: Option<Saved>, territory: TerritoryRow, date: Day) {
    identity.Some? && (identity.value.pk.None? || !AssignedOn(assignments, identity.value.pk.value, territory.id, date))
  }

  predicate CodesResolve(r: StagedRow, m: Master) {
    && r.product in m.products && r.territory in m.territories
    && (|r.hospital| > 0 ==> r.hospital in m.hospitals)
    && (|r.representative| > 0 ==> r.representative in m.representatives)
  }

  function AsSaved(identity: Option<nat>): Option<Saved> {
    if identity.Some? then Some(Saved(identity)) else None
  }

  predicate Reports(issues: seq<Issue>, code: IssueCode) {
    exists i | i in issues :: i.code == code
  }

  predicate RowHasError(e: DimensionError, r: StagedRow, m: Master)
    requires CodesResolve(r, m)
  {
    HasError(e, Some(r.date), Some(m.territories[r.territory]), AsSaved(OptionalLookup(m.hospitals, r.hospital)),
             AsSaved(OptionalLookup(m.representatives, r.representative)), m)
  }

  /** On rows whose codes resolve, the import reports exactly the errors of single-record validation. */
  lemma SameErrors(r: StagedRow, m: Master)
    requires CodesResolve(r, m)
    ensures RowHasError(TerritoryError, r, m) <==> Reports(CodeIssues(r, m) + AssignmentIssues(r, m), TerritoryNotLeaf)
    ensures RowHasError(HospitalError, r, m)
            <==> Reports(CodeIssues(r, m) + AssignmentIssues(r, m), HospitalTerritoryMismatch)
    ensures RowHasError(RepresentativeError, r, m)
            <==> Reports(CodeIssues(r, m) + AssignmentIssues(r, m), RepresentativeTerritoryMismatch)
    ensures Resolves(r, m) <==> r.date in m.calendar && forall e :: !RowHasError(e, r, m)
  {
    hide AssignedOn, Reports, OptionalLookup, CodeIssues, AssignmentIssues, Resolves;
    ResolvedReports(r, m);
    assert !RowHasError(TerritoryError, r, m) && !RowHasError(HospitalError, r, m)
           && !RowHasError(RepresentativeError, r, m)
           ==> forall e :: !RowHasError(e, r, m);
    assert forall e :: RowHasError(e, r, m) ==>
      RowHasError(TerritoryError, r, m) || RowHasError(HospitalError, r, m) || RowHasError(RepresentativeError, r, m);
  }

  /** The saved objects that a row names. */
  ghost predicate Names(r: StagedRow, m: Master, date: Option<Day>, territory: Option<TerritoryRow>,
                        hospital: Option<Saved>, representative: Option<Saved>)
  {
    && CodesResolve(r, m) && date == Some(r.date) && territory == Some(m.territories[r.territory])
    && hospital == AsSaved(OptionalLookup(m.hospitals, r.hospital))
    && representative == AsSaved(OptionalLookup(m.representatives, r.representative))
  }

  /**
    `validate_sales_dimensions`: the keys of the `errors` dictionary it raises with.
    On the objects that a row names they are what the import reports for that row.
   */
  method ValidateSalesDimensions(date: Option<Day>, territory: Option<TerritoryRow>, hospital: Option<Saved>,
                                 representative: Option<Saved>, m: Master) returns (errors: set<DimensionError>)
    ensures forall e :: e in errors <==> HasError(e, date, territory, hospital, representative, m)
    ensures TerritoryError in errors <==> territory.Some? && !territory.value.isLeaf
    ensures HospitalError in errors <==>
              && date.Some? && territory.Some? && hospital.Some?
              && !exists a | a in m.hospitalAssignments ::
                   && hospital.value.pk == Some(a.identity) && a.territory == territory.value.id
                   && a.from <= date.value && (a.to.None? || date.value <= a.to.value)
    ensures RepresentativeError in errors <==>
              && date.Some? && territory.Some? && representative.Some?
              && !exists a | a in m.representativeAssignments ::
                   && representative.value.pk == Some(a.identity) && a.territory == territory.value.id
                   && a.from <= date.value && (a.to.None? || date.value <= a.to.value)
    ensures forall r: StagedRow | Names(r, m, date, territory, hospital, representative) ::
              && (TerritoryError in errors <==> Reports(CodeIssues(r, m) + AssignmentIssues(r, m), TerritoryNotLeaf))
              && (HospitalError in errors
                  <==> Reports(CodeIssues(r, m) + AssignmentIssues(r, m), HospitalTerritoryMismatch))
              && (RepresentativeError in errors
                  <==> Reports(CodeIssues(r, m) + AssignmentIssues(r, m), RepresentativeTerritoryMismatch))
              && (Resolves(r, m) <==> r.date in m.calendar && errors == {})
  {
    hide Reports, CodeIssues, AssignmentIssues, Resolves, AssignedOn, OptionalLookup;
    errors := {};
    if date.Some? && territory.Some? {
      UnassignedMeans(m.hospitalAssignments, hospital, territory.value, date.value);
      UnassignedMeans(m.representativeAssignments, representative, territory.value, date.value);
    }
    if territory.Some? && !territory.value.isLeaf {
      errors := errors + {TerritoryError};
    }
    if date.Some? && territory.Some? {
      if Unassigned(m.hospitalAssignments, hospital, territory.value, date.value) {
        errors := errors + {HospitalError};
      }
      if Unassigned(m.representativeAssignments, representative, territory.value, date.value) {
        errors := errors + {RepresentativeError};
      }
    }
    forall r: StagedRow | Names(r, m, date, territory, hospital, representative)
      ensures TerritoryError in errors <==> Reports(CodeIssues(r, m) + AssignmentIssues(r, m), TerritoryNotLeaf)
      ensures HospitalError in errors <==> Reports(CodeIssues(r, m) + AssignmentIssues(r, m), HospitalTerritoryMismatch)
      ensures RepresentativeError in errors
              <==> Reports(CodeIssues(r, m) + AssignmentIssues(r, m), RepresentativeTerritoryMismatch)
      ensures Resolves(r, m) <==> r.date in m.calendar && errors == {}
    {
      SameErrors(r, m);
      NoErrors(errors, r, m);
    }
  }

  lemma UnassignedMeans(assignments: seq<Assignment>, identity: Option<Saved>, territory: TerritoryRow, date: Day)
    ensures Unassigned(assignments, identity, territory, date) <==>
              && identity.Some?
              && !exists a | a in assignments ::
                   && identity.value.pk == Some(a.identity) && a.territory == territory.id
                   && a.from <= date && (a.to.None? || date <= a.to.value)
  {
  }

  lemma NoErrors(errors: set<DimensionError>, r: StagedRow, m: Master)
    requires CodesResolve(r, m) && forall e :: e in errors <==> RowHasError(e, r, m)
    ensures errors == {} <==> forall e :: !RowHasError(e, r, m)
  {
    hide RowHasError;
    if forall e :: !RowHasError(e, r, m) {
      assert forall e :: e !in errors;
    }
  }

  lemma ResolvedReports(r: StagedRow, m: Master)
    requires CodesResolve(r, m)
    ensures Reports(CodeIssues(r, m) + AssignmentIssues(r, m), TerritoryNotLeaf) <==> !m.territories[r.territory].isLeaf
    ensures Reports(CodeIssues(r, m) + AssignmentIssues(r, m), HospitalTerritoryMismatch)
            <==> Mismatched(m.hospitalAssignments, OptionalLookup(m.hospitals, r.hospital),
                            Some(m.territories[r.territory]), r.date)
    ensures Reports(CodeIssues(r, m) + AssignmentIssues(r, m), RepresentativeTerritoryMismatch)
            <==> Mismatched(m.representativeAssignments, OptionalLookup(m.representatives, r.representative),
                            Some(m.territories[r.territory]), r.date)
    ensures Resolves(r, m) <==>
              && r.date in m.calendar && m.territories[r.territory].isLeaf
              && !Mismatched(m.hospitalAssignments, OptionalLookup(m.hospitals, r.hospital),
                             Some(m.territories[r.territory]), r.date)
              && !Mismatched(m.representativeAssignments, OptionalLookup(m.representatives, r.representative),
                             Some(m.territories[r.territory]), r.date)
  {
    hide Mismatched, OptionalLookup;
    var hospital :=
      Mismatched(m.hospitalAssignments, OptionalLookup(m.hospitals, r.hospital), Some(m.territories[r.territory]),
                 r.date);
    var representative :=
      Mismatched(m.representativeAssignments, OptionalLookup(m.representatives, r.representative),
                 Some(m.territories[r.territory]), r.date);
    assert CodeIssues(r, m) == IssueIf(r.date !in m.calendar, r, TransactionDateColumn, CalendarDateNotFound)
                               + IssueIf(!m.territories[r.territory].isLeaf, r, TerritoryColumn, TerritoryNotLeaf);
  }
}
