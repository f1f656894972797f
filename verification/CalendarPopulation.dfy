/** Filling complete years of the calendar table, and checking what is stored. */
module CalendarPopulation {
  import opened Results
  import opened Gregorian
  import opened CalendarRows
  import opened CalendarTrigger

  type Table = map<Date, CalendarRow>

  const MAX_YEAR_SPAN := 100
  const MAX_SUPPORTED_YEAR := 9998
  const BATCH_SIZE := 1000

  predicate Supported(d: Date) {
    IsDate(d) && d.year <= MAX_SUPPORTED_YEAR
  }

  function DateKey(d: Date): int {
    d.year * 10000 + d.month * 100 + d.day
  }

  /** The constraints on stored rows that matter here; other fields may hold anything. */
  predicate TableConstraints(rows: Table) {
    forall d | d in rows :: Supported(d) && rows[d].date == d && rows[d].dateKey == DateKey(d)
  }

  // ----- Ranges of dates -----

  function Days(first: int, count: nat): seq<Date>
    requires first >= 1
  {
    seq(count, i requires 0 <= i < count => FromOrdinal(first + i))
  }

  function RangeDays(start: Date, end: Date): seq<Date>
    requires IsDate(start) && IsDate(end) && OnOrAfter(end, start)
  {
    WithinYear(start);
    Days(Ordinal(start), Ordinal(end) - Ordinal(start) + 1)
  }

  /** `_date_range`: it ends, because the days in between are finitely many, and yields each of them once. */
  method DateRange(start: Date, end: Date) returns (dates: seq<Date>)
    requires Supported(start) && Supported(end) && OnOrAfter(end, start)
    ensures dates == RangeDays(start, end)
    ensures forall d :: d in dates <==> InRange(d, start, end)
    ensures forall i, k | 0 <= i < k < |dates| :: dates[i] != dates[k]
  {
    hide Ordinal, FromOrdinal, InRange;
    RangeExact(start, end);
    WithinYear(start);
    FromOrdinalInverse(start);
    var current := start;
    dates := [];
    while true
      invariant IsDate(current) && Ordinal(start) <= Ordinal(current) <= Ordinal(end)
      invariant dates == Days(Ordinal(start), Ordinal(current) - Ordinal(start))
      decreases Ordinal(end) - Ordinal(current)
    {
      FromOrdinalInverse(current);
      dates := dates + [current];
      if current == end {
        return;
      }
      OrdinalGrows(current, end);
      NextDayIsNext(current);
      current := NextDay(current);
    }
  }

  predicate InRange(d: Date, start: Date, end: Date) {
    IsDate(d) && Ordinal(start) <= Ordinal(d) <= Ordinal(end)
  }

  lemma RangeMembers(start: Date, end: Date, d: Date)
    requires IsDate(start) && IsDate(end) && OnOrAfter(end, start)
    ensures d in RangeDays(start, end) <==> InRange(d, start, end)
  {
    hide Ordinal, FromOrdinal;
    WithinYear(start);
    if InRange(d, start, end) {
      FromOrdinalInverse(d);
      assert RangeDays(start, end)[Ordinal(d) - Ordinal(start)] == d;
    }
    if d in RangeDays(start, end) {
      var i :| 0 <= i < |RangeDays(start, end)| && RangeDays(start, end)[i] == d;
      DayAt(Ordinal(start), Ordinal(end) - Ordinal(start) + 1, i);
    }
  }

  lemma DayAt(first: int, count: nat, i: nat)
    requires first >= 1 && i < count
    ensures IsDate(Days(first, count)[i]) && Ordinal(Days(first, count)[i]) == first + i
  {
    hide Ordinal, FromOrdinal, IsDate;
    var d := FromOrdinal(first + i);
    assert Days(first, count)[i] == d;
  }

  /** Consecutive days never repeat. */
  lemma DaysDistinct(first: int, count: nat, i: nat, k: nat)
    requires first >= 1 && i < k < count
    ensures Days(first, count)[i] != Days(first, count)[k]
  {
    hide Ordinal, Days;
    DayAt(first, count, i);
    DayAt(first, count, k);
  }

  lemma RangeExact(start: Date, end: Date)
    requires IsDate(start) && IsDate(end) && OnOrAfter(end, start)
    ensures forall d :: d in RangeDays(start, end) <==> InRange(d, start, end)
    ensures forall i, k | 0 <= i < k < |RangeDays(start, end)| :: RangeDays(start, end)[i] != RangeDays(start, end)[k]
  {
    hide Ordinal, FromOrdinal, InRange, Days;
    forall d ensures d in RangeDays(start, end) <==> InRange(d, start, end) {
      RangeMembers(start, end, d);
    }
    WithinYear(start);
    var days := RangeDays(start, end);
    forall i, k | 0 <= i < k < |days| ensures days[i] != days[k] {
      DaysCount(Ordinal(start), Ordinal(end) - Ordinal(start) + 1);
      DaysDistinct(Ordinal(start), Ordinal(end) - Ordinal(start) + 1, i, k);
    }
  }

  lemma DaysCount(first: int, count: nat)
    requires first >= 1
    ensures |Days(first, count)| == count
  {
  }

  // ----- Inserting rows -----

  function Derived(d: Date): CalendarRow
    requires Supported(d)
  {
    TriggerRow(d)
  }

  /** A table after inserting the derived rows of `dates` that it did not have. */
  function WithDates(rows: Table, dates: seq<Date>): Table
    requires forall d | d in dates :: Supported(d)
  {
    map d | d in rows.Keys + (set x | x in dates) :: if d in rows then rows[d] else Derived(d)
  }

  lemma KeysDiffer(a: Date, b: Date)
    requires Supported(a) && Supported(b)
    ensures DateKey(a) == DateKey(b) <==> a == b
  {
  }

  class CalendarTable {
    var rows: Table

    constructor (rows: Table)
      ensures this.rows == rows
    {
      this.rows := rows;
    }

    /**
      `bulk_create(ignore_conflicts=True)`: the trigger derives each row; rows with a
      stored date or key are skipped.
     */
    method InsertIgnoringConflicts(batch: seq<CalendarRow>)
      requires TableConstraints(rows) && forall r | r in batch :: Supported(r.date)
      modifies this
      ensures TableConstraints(rows) && rows == WithDates(old(rows), DatesOf(batch))
    {
      hide IsDate, TriggerRow, BuildCalendarDate;
      ghost var before := rows;
      BatchDates(batch);
      NothingInserted(before);
      for n := 0 to |batch|
        invariant TableConstraints(rows) && rows == WithDates(before, DatesOf(batch)[..n])
      {
        var supplied := batch[n];
        TriggerKey(supplied.date);
        NextInserted(before, DatesOf(batch), n);
        var derived := DeriveCalendarDate(supplied);
        StoredKeys(rows, derived);
        if !(exists d | d in rows :: d == derived.date || rows[d].dateKey == derived.dateKey) {
          rows := rows[derived.date := derived];
        }
      }
      assert DatesOf(batch)[..|batch|] == DatesOf(batch);
    }

    /** `_populate`, in batches of 1000. */
    method Populate(start: Date, end: Date)
      requires TableConstraints(rows) && Supported(start) && Supported(end) && OnOrAfter(end, start)
      modifies this
      ensures TableConstraints(rows) && Filled(old(rows), rows, start, end)
    {
      hide IsDate, TriggerRow, BuildCalendarDate, Ordinal, WithDates, DatesOf, RangeDays, TableConstraints, Filled;
      ghost var before := rows;
      var dates := DateRange(start, end);
      RangeSupported(start, end);
      NothingInserted(before);
      NoDates();
      var batch: seq<CalendarRow> := [];
      ghost var done := 0;
      for n := 0 to |dates|
        invariant TableConstraints(rows) && |batch| < BATCH_SIZE && done + |batch| == n
        invariant DatesOf(batch) == dates[done..n] && forall r | r in batch :: Supported(r.date)
        invariant (forall d | d in dates[..done] :: Supported(d)) && rows == WithDates(before, dates[..done])
      {
        var value := dates[n];
        assert value in dates;
        SupportedDatesAgree(value);
        BuiltDate(value);
        BatchGrows(batch, BuildCalendarDate(value).value, dates, done, n);
        batch := batch + [BuildCalendarDate(value).value];
        if |batch| == BATCH_SIZE {
          BatchJoins(before, dates, done, n + 1);
          InsertIgnoringConflicts(batch);
          batch := [];
          done := n + 1;
        }
      }
      assert dates[..|dates|] == dates;
      if batch != [] {
        BatchJoins(before, dates, done, |dates|);
        InsertIgnoringConflicts(batch);
      }
      FilledIs(before, rows, start, end);
    }
  }

  lemma NoDates()
    ensures DatesOf([]) == []
  {
  }

  lemma BatchGrows(batch: seq<CalendarRow>, row: CalendarRow, dates: seq<Date>, done: nat, n: nat)
    requires done <= n < |dates| && DatesOf(batch) == dates[done..n] && row.date == dates[n]
    ensures DatesOf(batch + [row]) == dates[done..n + 1]
  {
    assert DatesOf(batch + [row]) == DatesOf(batch) + [row.date];
    assert dates[done..n + 1] == dates[done..n] + [dates[n]];
  }

  lemma BatchJoins(rows: Table, dates: seq<Date>, done: nat, n: nat)
    requires done <= n <= |dates| && forall d | d in dates :: Supported(d)
    ensures (forall d | d in dates[..done] :: Supported(d)) && (forall d | d in dates[done..n] :: Supported(d))
            && (forall d | d in dates[..n] :: Supported(d))
    ensures WithDates(WithDates(rows, dates[..done]), dates[done..n]) == WithDates(rows, dates[..n])
  {
    hide IsDate, WithDates;
    assert dates[..done] + dates[done..n] == dates[..n];
    InsertedTwice(rows, dates[..done], dates[done..n]);
  }

  function DatesOf(batch: seq<CalendarRow>): seq<Date> {
    seq(|batch|, i requires 0 <= i < |batch| => batch[i].date)
  }

  /** Every date of the range is stored, existing rows are untouched, and nothing else is added. */
  ghost predicate Filled(before: Table, after: Table, start: Date, end: Date) {
    && (forall d | d in before :: d in after && after[d] == before[d])
    && (forall d | InRange(d, start, end) :: d in after)
    && (forall d | d in after && d !in before :: InRange(d, start, end) && BuildCalendarDate'(d) == Some(after[d]))
  }

  function BuildCalendarDate'(d: Date): Option<CalendarRow> {
    if Representable(d) && BuildCalendarDate(d).Ok? then Some(BuildCalendarDate(d).value) else None
  }

  lemma TriggerKey(d: Date)
    requires Supported(d)
    ensures TriggerRow(d).date == d && TriggerRow(d).dateKey == DateKey(d)
  {
  }

  lemma BuiltDate(d: Date)
    requires Supported(d) && BuildCalendarDate(d).Ok?
    ensures BuildCalendarDate(d).value.date == d
  {
    RowBounds(d);
  }

  lemma BatchDates(batch: seq<CalendarRow>)
    requires forall r | r in batch :: Supported(r.date)
    ensures forall d | d in DatesOf(batch) :: Supported(d)
  {
    hide IsDate;
  }

  lemma NothingInserted(rows: Table)
    ensures WithDates(rows, []) == rows
  {
  }

  lemma NextInserted(rows: Table, dates: seq<Date>, n: nat)
    requires n < |dates| && Supported(dates[n]) && forall d | d in dates :: Supported(d)
    ensures WithDates(rows, dates[..n + 1])
            == var before := WithDates(rows, dates[..n]);
               if dates[n] in before then before else before[dates[n] := Derived(dates[n])]
  {
    hide IsDate, TriggerRow;
    assert forall d :: d in dates[..n + 1] <==> d in dates[..n] || d == dates[n];
  }

  lemma StoredKeys(rows: Table, derived: CalendarRow)
    requires TableConstraints(rows) && Supported(derived.date) && derived.dateKey == DateKey(derived.date)
    ensures (exists d | d in rows :: d == derived.date || rows[d].dateKey == derived.dateKey) <==> derived.date in rows
  {
    forall d | d in rows && rows[d].dateKey == derived.dateKey ensures d == derived.date {
      KeysDiffer(d, derived.date);
    }
  }

  lemma InsertedTwice(rows: Table, first: seq<Date>, second: seq<Date>)
    requires forall d | d in first + second :: Supported(d)
    ensures (forall d | d in first :: Supported(d)) && (forall d | d in second :: Supported(d))
    ensures WithDates(WithDates(rows, first), second) == WithDates(rows, first + second)
  {
    hide IsDate, TriggerRow;
  }

  lemma RangeSupported(start: Date, end: Date)
    requires Supported(start) && Supported(end) && OnOrAfter(end, start)
    ensures forall d | d in RangeDays(start, end) :: Supported(d)
  {
    forall d | d in RangeDays(start, end) ensures Supported(d) {
      RangeMembers(start, end, d);
      OrdinalGrows(end, d);
    }
  }

  lemma FilledIs(before: Table, after: Table, start: Date, end: Date)
    requires Supported(start) && Supported(end) && OnOrAfter(end, start)
             && forall d | d in RangeDays(start, end) :: Supported(d)
    requires after == WithDates(before, RangeDays(start, end))
    ensures Filled(before, after, start, end)
  {
    hide TriggerRow, BuildCalendarDate, Ordinal, IsDate;
    forall d: Date ensures d in RangeDays(start, end) <==> InRange(d, start, end) {
      RangeMembers(start, end, d);
    }
    forall d | d in after && d !in before ensures BuildCalendarDate'(d) == Some(after[d]) {
      SupportedDatesAgree(d);
    }
  }

  /** Populating again changes nothing. */
  lemma SecondRunCreatesNone(rows: Table, once: Table, twice: Table, start: Date, end: Date)
    requires Filled(rows, once, start, end) && Filled(once, twice, start, end)
    ensures twice == once
  {
    hide BuildCalendarDate', Ordinal, IsDate;
  }

  // ----- Checking what is stored -----

  function StoredDates(rows: Table, start: Date, end: Date): set<Date> {
    set d | d in rows && InRange(d, start, end)
  }

  function DaySet(first: int, count: nat): set<Date>
    requires first >= 1
  {
    set d | d in Days(first, count)
  }

  lemma {:induction false} DaySetSize(first: int, count: nat)
    requires first >= 1
    ensures |DaySet(first, count)| == count
  {
    if count > 0 {
      var last := FromOrdinal(first + count - 1);
      assert Days(first, count) == Days(first, count - 1) + [last];
      if last in Days(first, count - 1) {
        var i :| 0 <= i < count - 1 && Days(first, count - 1)[i] == last;
        DayAt(first, count - 1, i);
      }
      assert DaySet(first, count) == DaySet(first, count - 1) + {last};
      DaySetSize(first, count - 1);
    }
  }

  lemma SubsetOfSameSize<T>(a: set<T>, b: set<T>)
    requires a <= b && |a| == |b|
    ensures a == b
  {
    assert b == a + (b - a);
    assert |b - a| == 0;
  }

  lemma RangeSet(rows: Table, start: Date, end: Date)
    requires IsDate(start) && IsDate(end) && OnOrAfter(end, start)
    ensures Ordinal(start) >= 1
            && StoredDates(rows, start, end) <= DaySet(Ordinal(start), Ordinal(end) - Ordinal(start) + 1)
    ensures |DaySet(Ordinal(start), Ordinal(end) - Ordinal(start) + 1)| == Ordinal(end) - Ordinal(start) + 1
    ensures DaySet(Ordinal(start), Ordinal(end) - Ordinal(start) + 1) == set d | d in RangeDays(start, end)
  {
    hide Ordinal, Days;
    WithinYear(start);
    DaySetSize(Ordinal(start), Ordinal(end) - Ordinal(start) + 1);
    forall d | d in StoredDates(rows, start, end) ensures d in RangeDays(start, end) {
      RangeMembers(start, end, d);
    }
  }

  /** A range holds its full number of rows exactly when it holds every date. */
  lemma CountMeansComplete(rows: Table, start: Date, end: Date)
    requires IsDate(start) && IsDate(end) && OnOrAfter(end, start)
    ensures |StoredDates(rows, start, end)| == Ordinal(end) - Ordinal(start) + 1
            <==> forall d | d in RangeDays(start, end) :: d in rows
  {
    hide Ordinal, DaySet, RangeDays;
    RangeSet(rows, start, end);
    var all := DaySet(Ordinal(start), Ordinal(end) - Ordinal(start) + 1);
    forall d | d in RangeDays(start, end) ensures InRange(d, start, end) {
      RangeMembers(start, end, d);
    }
    if |StoredDates(rows, start, end)| == |all| {
      SubsetOfSameSize(StoredDates(rows, start, end), all);
      assert forall d | d in RangeDays(start, end) :: d in all;
    }
    if forall d | d in RangeDays(start, end) :: d in rows {
      assert StoredDates(rows, start, end) == all;
    }
  }

  datatype Verdict = Consistent | WrongCount | Inconsistent(first: Date)

  predicate RowConsistent(rows: Table, d: Date) {
    d in rows && BuildCalendarDate'(d) == Some(rows[d])
  }

  /** What verification must report: the earliest inconsistent date of a complete range. */
  ghost predicate VerdictFor(rows: Table, start: Date, end: Date, verdict: Verdict) {
    match verdict
    case WrongCount => exists d :: InRange(d, start, end) && d !in rows
    case Consistent => forall d | InRange(d, start, end) :: RowConsistent(rows, d)
    case Inconsistent(first) =>
      && InRange(first, start, end) && first in rows && !RowConsistent(rows, first)
      && forall d | InRange(d, start, end) && Ordinal(d) < Ordinal(first) :: RowConsistent(rows, d)
  }

  /** `_verify`: all stored rows are compared, the first mismatch is remembered. */
  method Verify(rows: Table, start: Date, end: Date, expectedCount: int) returns (verdict: Verdict)
    requires Supported(start) && Supported(end) && OnOrAfter(end, start)
             && expectedCount == Ordinal(end) - Ordinal(start) + 1
    ensures VerdictFor(rows, start, end, verdict)
  {
    hide Ordinal, IsDate, BuildCalendarDate, StoredDates, RangeDays;
    CountMeansComplete(rows, start, end);
    var actualCount := |StoredDates(rows, start, end)|;
    if actualCount != expectedCount {
      ghost var d :| d in RangeDays(start, end) && d !in rows;
      RangeMembers(start, end, d);
      return WrongCount;
    }
    var dates := DateRange(start, end);
    RangeSupported(start, end);
    var firstInconsistent: Option<Date> := None;
    for n := 0 to |dates|
      invariant firstInconsistent.None? ==> forall i | 0 <= i < n :: RowConsistent(rows, dates[i])
      invariant firstInconsistent.Some?
                ==> exists k | 0 <= k < n :: FirstAt(rows, dates, k) && dates[k] == firstInconsistent.value
    {
      assert dates[n] in dates;
      SupportedDatesAgree(dates[n]);
      if rows[dates[n]] != BuildCalendarDate(dates[n]).value && firstInconsistent.None? {
        firstInconsistent := Some(dates[n]);
        assert FirstAt(rows, dates, n);
      }
    }
    if firstInconsistent.Some? {
      ghost var k :| 0 <= k < |dates| && FirstAt(rows, dates, k) && dates[k] == firstInconsistent.value;
      FirstIsEarliest(rows, start, end, k);
      return Inconsistent(firstInconsistent.value);
    }
    AllConsistent(rows, start, end);
    verdict := Consistent;
  }

  ghost predicate FirstAt(rows: Table, dates: seq<Date>, k: nat) {
    && k < |dates| && dates[k] in rows && !RowConsistent(rows, dates[k])
    && forall i | 0 <= i < k :: RowConsistent(rows, dates[i])
  }

  lemma RangeIndex(start: Date, end: Date, d: Date)
    requires IsDate(start) && IsDate(end) && OnOrAfter(end, start) && InRange(d, start, end)
    ensures var i := Ordinal(d) - Ordinal(start); 0 <= i < |RangeDays(start, end)| && RangeDays(start, end)[i] == d
  {
    hide Ordinal;
    WithinYear(start);
    FromOrdinalInverse(d);
  }

  lemma FirstIsEarliest(rows: Table, start: Date, end: Date, k: nat)
    requires IsDate(start) && IsDate(end) && OnOrAfter(end, start) && FirstAt(rows, RangeDays(start, end), k)
    ensures VerdictFor(rows, start, end, Inconsistent(RangeDays(start, end)[k]))
  {
    hide Ordinal, RangeDays, RowConsistent;
    var dates := RangeDays(start, end);
    RangeMembers(start, end, dates[k]);
    RangeIndex(start, end, dates[k]);
    IndexOf(start, end, k);
    forall d | InRange(d, start, end) && Ordinal(d) < Ordinal(dates[k]) ensures RowConsistent(rows, d) {
      RangeIndex(start, end, d);
    }
  }

  lemma IndexOf(start: Date, end: Date, k: nat)
    requires IsDate(start) && IsDate(end) && OnOrAfter(end, start) && k < |RangeDays(start, end)|
    ensures Ordinal(RangeDays(start, end)[k]) == Ordinal(start) + k
  {
    hide Ordinal, Days;
    WithinYear(start);
    DaysSize(Ordinal(start), Ordinal(end) - Ordinal(start) + 1);
    DayAt(Ordinal(start), Ordinal(end) - Ordinal(start) + 1, k);
  }

  lemma DaysSize(first: int, count: nat)
    requires first >= 1
    ensures |Days(first, count)| == count
  {
  }

  lemma AllConsistent(rows: Table, start: Date, end: Date)
    requires IsDate(start) && IsDate(end) && OnOrAfter(end, start)
    requires forall i | 0 <= i < |RangeDays(start, end)| :: RowConsistent(rows, RangeDays(start, end)[i])
    ensures VerdictFor(rows, start, end, Consistent)
  {
    hide Ordinal, RangeDays, RowConsistent;
    forall d | InRange(d, start, end) ensures RowConsistent(rows, d) {
      RangeIndex(start, end, d);
    }
  }

  // ----- The command -----

  datatype CommandError = BadYears | VerificationFailed(verdict: Verdict)

  predicate YearsAccepted(startYear: int, endYear: int) {
    && 1 <= startYear <= MAX_SUPPORTED_YEAR && 1 <= endYear <= MAX_SUPPORTED_YEAR
    && startYear <= endYear && endYear - startYear + 1 <= MAX_YEAR_SPAN
  }

  lemma YearRange(startYear: int, endYear: int)
    requires YearsAccepted(startYear, endYear)
    ensures Supported(Date(startYear, 1, 1)) && Supported(Date(endYear, 12, 31))
            && OnOrAfter(Date(endYear, 12, 31), Date(startYear, 1, 1))
  {
    OrdinalGrows(Date(endYear, 12, 31), Date(startYear, 1, 1));
  }

  /** The rows added are those the range did not have. */
  lemma CreatedCount(before: Table, after: Table, start: Date, end: Date)
    requires IsDate(start) && IsDate(end) && OnOrAfter(end, start) && Filled(before, after, start, end)
    ensures |after| - |before| == Ordinal(end) - Ordinal(start) + 1 - |StoredDates(before, start, end)|
    ensures forall d | d in RangeDays(start, end) :: d in after
  {
    hide Ordinal, DaySet, RangeDays, BuildCalendarDate';
    RangeSet(before, start, end);
    var all, stored := DaySet(Ordinal(start), Ordinal(end) - Ordinal(start) + 1), StoredDates(before, start, end);
    forall d | d in RangeDays(start, end) ensures InRange(d, start, end) && d in after {
      RangeMembers(start, end, d);
    }
    forall d | InRange(d, start, end) ensures d in all {
      RangeMembers(start, end, d);
    }
    assert after.Keys == before.Keys + (all - stored) && before.Keys !! (all - stored);
    assert |all - stored| == |all| - |stored|;
    assert |after| == |after.Keys| && |before| == |before.Keys|;
  }

  /** After filling, verification fails exactly for rows that were inconsistent before, and never for the count. */
  lemma FilledVerdict(before: Table, after: Table, start: Date, end: Date, verdict: Verdict)
    requires Filled(before, after, start, end) && VerdictFor(after, start, end, verdict)
    ensures !verdict.WrongCount?
    ensures verdict.Consistent? <==> forall d | d in before && InRange(d, start, end) :: RowConsistent(before, d)
    ensures verdict.Inconsistent? ==> verdict.first in before && !RowConsistent(before, verdict.first)
  {
    hide Ordinal, BuildCalendarDate', IsDate;
    forall d | InRange(d, start, end) ensures d in before ==> (RowConsistent(after, d) <==> RowConsistent(before, d)) {
      assert d in after;
    }
  }

  /**
    The whole command, in one transaction. It succeeds exactly when the years are
    accepted and no stored row of the range is inconsistent, and it reports how
    many rows it created.
   */
  method Handle(table: CalendarTable, startYear: int, endYear: int) returns (r: Result<(int, int), CommandError>)
    requires TableConstraints(table.rows)
    modifies table
    ensures TableConstraints(table.rows)
    ensures r.Err? ==> table.rows == old(table.rows)
    ensures r == Err(BadYears) <==> !YearsAccepted(startYear, endYear)
    ensures r == Err(BadYears) <==> !(1 <= startYear <= endYear <= 9998 && endYear - startYear + 1 <= 100)
    ensures YearsAccepted(startYear, endYear) ==>
              var start, end := Date(startYear, 1, 1), Date(endYear, 12, 31);
              && (r.Ok? <==> forall d | d in old(table.rows) && InRange(d, start, end) ::
                               RowConsistent(old(table.rows), d))
              && (r.Ok? ==>
                    && Filled(old(table.rows), table.rows, start, end)
                    && (forall d | InRange(d, start, end) :: RowConsistent(table.rows, d))
                    && r.value.1 == |table.rows| - |old(table.rows)|
                    && r.value.0 == r.value.1 + |StoredDates(old(table.rows), start, end)|)
  {
    hide Ordinal, Supported, BuildCalendarDate', IsDate, RangeDays, TableConstraints, Filled, OnOrAfter, VerdictFor,
         StoredDates, RowConsistent;
    if !YearsAccepted(startYear, endYear) {
      return Err(BadYears);
    }
    YearRange(startYear, endYear);
    var start, end := Date(startYear, 1, 1), Date(endYear, 12, 31);
    SupportedIs(start);
    SupportedIs(end);
    var expectedCount := Ordinal(end) - Ordinal(start) + 1;
    var savepoint := table.rows;
    var beforeCount := |StoredDates(table.rows, start, end)|;
    table.Populate(start, end);
    CreatedCount(savepoint, table.rows, start, end);
    var verdict := Verify(table.rows, start, end, expectedCount);
    FilledVerdict(savepoint, table.rows, start, end, verdict);
    if verdict != Consistent {
      table.rows := savepoint;
      return Err(VerificationFailed(verdict));
    }
    ConsistentMeans(table.rows, start, end);
    r := Ok((expectedCount, expectedCount - beforeCount));
  }

  lemma SupportedIs(d: Date)
    ensures Supported(d) ==> IsDate(d)
  {
  }

  lemma ConsistentMeans(rows: Table, start: Date, end: Date)
    requires VerdictFor(rows, start, end, Consistent)
    ensures forall d | InRange(d, start, end) :: RowConsistent(rows, d)
  {
  }
}
