/** The reporting calendar row of a date, as the application builds it. */
module CalendarRows {
  import opened Results
  import opened Gregorian

  datatype CalendarRow = CalendarRow(
    date: Date, dateKey: int, year: int, quarter: int, month: int, monthName: string, monthAbbreviation: string,
    dayOfMonth: int, dayOfYear: int, isoYear: int, isoWeek: int, isoWeekday: int, weekdayName: string, isWeekend: bool,
    weekStart: Date, weekEnd: Date, monthStart: Date, monthEnd: Date, quarterStart: Date, quarterEnd: Date,
    yearStart: Date, yearEnd: Date, yearMonthKey: int, yearMonthLabel: string, yearQuarterLabel: string)

  datatype CalendarError = OverflowError

  const MAX_YEAR := 9999

  const MONTH_NAMES :=
    ["", "January", "February", "March", "April", "May", "June", "July", "August", "September", "October", "November",
     "December"]
  const MONTH_ABBREVIATIONS := ["", "Jan", "Feb", "Mar", "Apr", "May", "Jun", "Jul", "Aug", "Sep", "Oct", "Nov", "Dec"]
  const WEEKDAY_NAMES := ["", "Monday", "Tuesday", "Wednesday", "Thursday", "Friday", "Saturday", "Sunday"]

  /** A Python `date`: its years end with 9999. */
  predicate Representable(d: Date) {
    IsDate(d) && d.year <= MAX_YEAR
  }

  /** `date + timedelta(days)`; `None` is its OverflowError. */
  function Shift(d: Date, days: int): (r: Option<Date>)
    requires IsDate(d)
    ensures r.Some? <==> 1 <= Ordinal(d) + days <= Ordinal(Date(MAX_YEAR, 12, 31))
    ensures r.Some? ==> Representable(r.value) && Ordinal(r.value) == Ordinal(d) + days
  {
    if 1 <= Ordinal(d) + days <= Ordinal(Date(MAX_YEAR, 12, 31)) then
      LastRepresentable(Plus(d, days));
      Some(Plus(d, days))
    else None
  }

  lemma LastRepresentable(d: Date)
    requires IsDate(d)
    ensures Ordinal(d) <= Ordinal(Date(MAX_YEAR, 12, 31)) <==> Representable(d)
  {
    OrdinalGrows(Date(MAX_YEAR, 12, 31), d);
  }

  // ----- Labels -----

  function Decimal(n: nat): string {
    if n < 10 then ["0123456789"[n]] else Decimal(n / 10) + ["0123456789"[n % 10]]
  }

  /** Python's `04d`: at least four digits. */
  function ZeroPadded(s: string): string
    decreases 4 - |s|
  {
    if |s| < 4 then ZeroPadded("0" + s) else s
  }

  function YearText(year: int): string
    requires year >= 0
  {
    ZeroPadded(Decimal(year))
  }

  function Digit(n: int): string
    requires 0 <= n <= 9
  {
    ["0123456789"[n]]
  }

  function Quarter(month: int): (q: int)
    ensures 1 <= month <= 12 ==> 1 <= q <= 4
  {
    (month - 1) / 3 + 1
  }

  function QuarterStartMonth(month: int): (q: int)
    ensures 1 <= month <= 12 ==> 1 <= q <= 10 && q <= month <= q + 2
  {
    (Quarter(month) - 1) * 3 + 1
  }

  function MonthName(month: int): string
    requires 1 <= month <= 12
  {
    MONTH_NAMES[month]
  }

  function MonthAbbreviation(month: int): string
    requires 1 <= month <= 12
  {
    MONTH_ABBREVIATIONS[month]
  }

  function WeekdayName(weekday: int): string
    requires 1 <= weekday <= 7
  {
    WEEKDAY_NAMES[weekday]
  }

  function MonthLabel(d: Date): string
    requires IsDate(d)
  {
    MonthAbbreviation(d.month) + " " + YearText(d.year)
  }

  function QuarterLabel(d: Date): string
    requires 1 <= d.month <= 12 && d.year >= 0
  {
    YearText(d.year) + " Q" + Digit(Quarter(d.month))
  }

  // ----- Bounds -----

  function LastDayOfMonth(value: Date): (r: Option<Date>)
    requires Representable(value)
  {
    if value.month == 12 then Some(Date(value.year, 12, 31)) else Shift(Date(value.year, value.month + 1, 1), -1)
  }

  function LastDayOfQuarter(value: Date, quarterStartMonth: int): (r: Option<Date>)
    requires Representable(value) && 1 <= quarterStartMonth <= 10
  {
    if quarterStartMonth == 10 then Some(Date(value.year, 12, 31))
    else Shift(Date(value.year, quarterStartMonth + 3, 1), -1)
  }

  datatype Bounds = Bounds(weekStart: Date, weekEnd: Date, monthEnd: Date, quarterEnd: Date)

  /** The bounds that need date arithmetic. */
  function DateBounds(value: Date): Option<Bounds>
    requires Representable(value)
  {
    var weekStart := Shift(value, -(IsoWeekday(value) - 1));
    if weekStart.None? then None
    else
      var weekEnd, monthEnd := Shift(weekStart.value, 6), LastDayOfMonth(value);
      var quarterEnd := LastDayOfQuarter(value, QuarterStartMonth(value.month));
      if weekEnd.None? || monthEnd.None? || quarterEnd.None? then None
      else Some(Bounds(weekStart.value, weekEnd.value, monthEnd.value, quarterEnd.value))
  }

  function RowWith(value: Date, iso: WeekDate, bounds: Bounds): CalendarRow
    requires Representable(value) && 1 <= iso.weekday <= 7
  {
    CalendarRow(
      value, value.year * 10_000 + value.month * 100 + value.day, value.year, Quarter(value.month), value.month,
      MonthName(value.month), MonthAbbreviation(value.month), value.day,
      Ordinal(value) - Ordinal(NewYear(value.year)) + 1,
      iso.year, iso.week, iso.weekday, WeekdayName(iso.weekday), iso.weekday >= 6,
      bounds.weekStart, bounds.weekEnd, value.(day := 1), bounds.monthEnd,
      Date(value.year, QuarterStartMonth(value.month), 1), bounds.quarterEnd, NewYear(value.year),
      Date(value.year, 12, 31),
      value.year * 100 + value.month, MonthLabel(value), QuarterLabel(value))
  }

  /** The row, or an overflow if any of its dates cannot be represented. */
  function BuildCalendarDate(value: Date): Result<CalendarRow, CalendarError>
    requires Representable(value)
  {
    var bounds := DateBounds(value);
    if bounds.None? then Err(OverflowError) else Ok(RowWith(value, CountedWeekDate(value), bounds.value))
  }

  function EndOfMonth(year: int, month: int): Date {
    Date(year, month, DaysInMonth(year, month))
  }

  lemma ShiftBack(year: int, month: int)
    requires 1 <= year <= MAX_YEAR && 1 <= month <= 11
    ensures IsDate(Date(year, month + 1, 1)) && IsDate(EndOfMonth(year, month))
    ensures Shift(Date(year, month + 1, 1), -1) == Some(EndOfMonth(year, month))
  {
    hide Ordinal;
    NextDayIsNext(EndOfMonth(year, month));
    FromOrdinalInverse(EndOfMonth(year, month));
    LastRepresentable(EndOfMonth(year, month));
  }

  lemma MonthEndIs(value: Date)
    requires Representable(value)
    ensures LastDayOfMonth(value) == Some(EndOfMonth(value.year, value.month))
  {
    hide Shift;
    if value.month < 12 {
      ShiftBack(value.year, value.month);
    }
  }

  lemma QuarterEndIs(value: Date, start: int)
    requires Representable(value) && 1 <= start <= 10
    ensures LastDayOfQuarter(value, start) == Some(EndOfMonth(value.year, start + 2))
  {
    hide Shift;
    if start < 10 {
      ShiftBack(value.year, start + 2);
    }
  }

  /** The whole row of every date but the last five of year 9999 is representable; for those the week ends too late. */
  lemma BuildSucceedsExactly(value: Date)
    requires Representable(value)
    ensures BuildCalendarDate(value).Ok? <==> Before(value, Date(9999, 12, 27))
  {
    hide LastDayOfMonth, LastDayOfQuarter, YearText, Ordinal, CountedWeekDate;
    MonthEndIs(value);
    QuarterEndIs(value, QuarterStartMonth(value.month));
    WithinYear(value);
    WeekFits(value);
  }

  lemma LastMonday()
    ensures Ordinal(Date(9999, 12, 27)) == 3652055 && Ordinal(Date(9999, 12, 31)) == 3652059
  {
    MonthTotals(9999);
  }

  lemma WeekFits(value: Date)
    requires Representable(value)
    ensures CountedWeekDate(value).weekday == IsoWeekday(value)
    ensures Ordinal(value) - (IsoWeekday(value) - 1) >= 1
    ensures Ordinal(value) <= Ordinal(Date(MAX_YEAR, 12, 31))
    ensures Ordinal(value) - (IsoWeekday(value) - 1) + 6 <= Ordinal(Date(MAX_YEAR, 12, 31))
            <==> Before(value, Date(9999, 12, 27))
  {
    WithinYear(value);
    LastRepresentable(value);
    OrdinalGrows(value, Date(9999, 12, 27));
    LastMonday();
    WeekArithmetic(Ordinal(value));
  }

  lemma WeekArithmetic(n: int)
    requires n >= 1
    ensures n - (n - 1) % 7 >= 1
    ensures n - (n - 1) % 7 + 6 <= 3652059 <==> n < 3652055
  {
  }

  /** All dates the table accepts, up to the end of 9998, have a row. */
  lemma SupportedDatesBuild(value: Date)
    requires IsDate(value) && value.year <= 9998
    ensures BuildCalendarDate(value).Ok?
  {
    BuildSucceedsExactly(value);
  }

  // ----- What the rows mean -----

  /** The dates whose row can be represented. */
  predicate HasRow(d: Date) {
    IsDate(d) && Before(d, Date(9999, 12, 27))
  }

  predicate OnOrAfter(a: Date, b: Date) {
    Ordinal(a) >= Ordinal(b)
  }

  predicate Within(d: Date, first: Date, last: Date) {
    OnOrAfter(d, first) && OnOrAfter(last, d)
  }

  lemma BoundsAre(value: Date)
    requires Representable(value) && DateBounds(value).Some?
    ensures var b := DateBounds(value).value;
            && Ordinal(b.weekStart) == MondayOf(Ordinal(value)) && Ordinal(b.weekEnd) == MondayOf(Ordinal(value)) + 6
            && IsDate(b.weekStart) && IsDate(b.weekEnd)
            && b.monthEnd == EndOfMonth(value.year, value.month)
            && b.quarterEnd == EndOfMonth(value.year, QuarterStartMonth(value.month) + 2)
  {
    hide LastDayOfMonth, LastDayOfQuarter, Ordinal, QuarterStartMonth, EndOfMonth;
    MonthEndIs(value);
    QuarterEndIs(value, QuarterStartMonth(value.month));
    MondayStep(value);
  }

  lemma MondayStep(value: Date)
    ensures Ordinal(value) - (IsoWeekday(value) - 1) == MondayOf(Ordinal(value))
  {
    hide Ordinal;
  }

  lemma WeekdayIs(value: Date)
    ensures CountedWeekDate(value).weekday == IsoWeekday(value) && 1 <= IsoWeekday(value) <= 7
  {
    hide Ordinal, FirstMonday;
  }

  /** The bounds of a row, in closed form. */
  lemma RowBounds(value: Date)
    requires Representable(value) && BuildCalendarDate(value).Ok?
    ensures var row, q := BuildCalendarDate(value).value, QuarterStartMonth(value.month);
            && row.date == value
            && Ordinal(row.weekStart) == MondayOf(Ordinal(value))
            && Ordinal(row.weekEnd) == MondayOf(Ordinal(value)) + 6
            && IsDate(row.weekStart) && IsDate(row.weekEnd)
            && row.monthStart == Date(value.year, value.month, 1) && row.monthEnd == EndOfMonth(value.year, value.month)
            && row.quarterStart == Date(value.year, q, 1) && row.quarterEnd == EndOfMonth(value.year, q + 2)
            && row.yearStart == NewYear(value.year) && row.yearEnd == Date(value.year, 12, 31)
            && row.dateKey == value.year * 10_000 + value.month * 100 + value.day
            && WeekDate(row.isoYear, row.isoWeek, row.isoWeekday) == CountedWeekDate(value)
  {
    hide DateBounds, Ordinal, CountedWeekDate, QuarterStartMonth, MonthLabel, QuarterLabel, MonthName,
         MonthAbbreviation, WeekdayName, EndOfMonth, Quarter, MondayOf, IsoWeekday;
    WeekdayIs(value);
    BoundsAre(value);
  }

  /** The other fields of a row, as a reader of the calendar understands them. */
  lemma RowFields(value: Date)
    requires Representable(value) && BuildCalendarDate(value).Ok?
    ensures var row := BuildCalendarDate(value).value;
            && row.year == value.year && row.month == value.month && row.dayOfMonth == value.day
            && 3 * (row.quarter - 1) < value.month <= 3 * row.quarter
            && row.quarterStart.month == 3 * row.quarter - 2 && row.quarterEnd.month == 3 * row.quarter
            && row.dayOfYear == Ordinal(value) - Ordinal(Date(value.year, 1, 1)) + 1
            && row.isoWeekday == (Ordinal(value) - Ordinal(row.weekStart)) + 1
            && (row.isWeekend <==> row.isoWeekday == 6 || row.isoWeekday == 7)
            && row.yearMonthKey == value.year * 100 + value.month
            && row.yearMonthLabel == row.monthAbbreviation + " " + YearText(value.year)
            && row.yearQuarterLabel == YearText(value.year) + " Q" + ["1234"[row.quarter - 1]]
            && row.monthName == ["January", "February", "March", "April", "May", "June", "July", "August", "September",
                                 "October", "November", "December"][value.month - 1]
            && |row.monthAbbreviation| == 3 && row.monthAbbreviation <= row.monthName
            && row.weekdayName == ["Monday", "Tuesday", "Wednesday", "Thursday", "Friday", "Saturday",
                                   "Sunday"][row.isoWeekday - 1]
  {
    hide Ordinal, CountedWeekDate, YearText, DateBounds, MondayOf;
    WeekdayIs(value);
    BoundsAre(value);
    MondayStep(value);
    NamesMatch(value.month);
  }

  lemma NamesMatch(month: int)
    requires 1 <= month <= 12
    ensures |MonthAbbreviation(month)| == 3 && MonthAbbreviation(month) <= MonthName(month)
  {
  }

  function YearDigit(n: int): char
    requires n >= 0
  {
    "0123456789"[n % 10]
  }

  lemma DecimalSteps(n: nat)
    ensures n < 10 ==> Decimal(n) == [YearDigit(n)]
    ensures n >= 10 ==> Decimal(n) == Decimal(n / 10) + [YearDigit(n)]
  {
  }

  lemma FourPadded(s: string)
    requires 1 <= |s| <= 4
    ensures ZeroPadded(s)
            == if |s| == 4 then s else if |s| == 3 then "0" + s else if |s| == 2 then "00" + s else "000" + s
  {
    if |s| == 3 {
      assert ZeroPadded("0" + s) == "0" + s;
    } else if |s| == 2 {
      assert ZeroPadded("0" + ("0" + s)) == "0" + ("0" + s) && "0" + ("0" + s) == "00" + s;
    } else if |s| == 1 {
      assert "0" + ("0" + ("0" + s)) == "000" + s;
      assert ZeroPadded("0" + ("0" + ("0" + s))) == "000" + s;
    }
  }

  /** A year is written with its four digits. */
  lemma YearTextMeans(year: int)
    requires 1 <= year <= 9999
    ensures YearText(year) == [YearDigit(year / 1000), YearDigit(year / 100), YearDigit(year / 10), YearDigit(year)]
  {
    hide Decimal, ZeroPadded;
    DecimalSteps(year);
    DecimalSteps(year / 10);
    DecimalSteps(year / 10 / 10);
    DecimalSteps(year / 10 / 10 / 10);
    QuotientsOfTen(year);
    FourPadded(Decimal(year));
  }

  lemma QuotientsOfTen(n: int)
    requires n >= 0
    ensures n / 10 / 10 == n / 100 && n / 10 / 10 / 10 == n / 1000
  {
  }

  /** Weeks tile the calendar: a date is between the bounds of another date's week exactly when it has the same week. */
  lemma WeeksTile(a: Date, b: Date)
    requires HasRow(a) && HasRow(b)
    ensures BuildCalendarDate(a).Ok? && BuildCalendarDate(b).Ok?
    ensures var r, s := BuildCalendarDate(a).value, BuildCalendarDate(b).value;
            Within(b, r.weekStart, r.weekEnd) <==> s.weekStart == r.weekStart
  {
    hide BuildCalendarDate, Ordinal;
    BuildSucceedsExactly(a);
    BuildSucceedsExactly(b);
    RowBounds(a);
    RowBounds(b);
    var r, s := BuildCalendarDate(a).value, BuildCalendarDate(b).value;
    OrdinalGrows(r.weekStart, s.weekStart);
    SameMonday(Ordinal(a), Ordinal(b));
  }

  lemma SameMonday(m: int, n: int)
    ensures MondayOf(m) <= n <= MondayOf(m) + 6 <==> MondayOf(m) == MondayOf(n)
  {
    SameWeekday(MondayOf(m), MondayOf(n));
  }

  /** Being within some months of a year is a matter of year and month. */
  lemma WithinMonths(d: Date, year: int, first: int, last: int)
    requires IsDate(d) && year >= 1 && 1 <= first <= last <= 12
    ensures Within(d, Date(year, first, 1), EndOfMonth(year, last)) <==> d.year == year && first <= d.month <= last
  {
    hide Ordinal;
    OrdinalGrows(d, Date(year, first, 1));
    OrdinalGrows(EndOfMonth(year, last), d);
  }

  /** Months tile the calendar. */
  lemma MonthsTile(a: Date, b: Date)
    requires HasRow(a) && HasRow(b)
    ensures BuildCalendarDate(a).Ok? && BuildCalendarDate(b).Ok?
    ensures var r, s := BuildCalendarDate(a).value, BuildCalendarDate(b).value;
            Within(b, r.monthStart, r.monthEnd) <==> s.monthStart == r.monthStart
  {
    hide BuildCalendarDate, Ordinal, Within, EndOfMonth;
    BuildSucceedsExactly(a);
    BuildSucceedsExactly(b);
    RowBounds(a);
    RowBounds(b);
    WithinMonths(b, a.year, a.month, a.month);
  }

  lemma QuarterStarts(a: int, b: int)
    requires 1 <= a <= 12 && 1 <= b <= 12
    ensures QuarterStartMonth(a) <= b <= QuarterStartMonth(a) + 2 <==> QuarterStartMonth(a) == QuarterStartMonth(b)
  {
    assert forall m | 1 <= m <= 12 ::
             QuarterStartMonth(m) == if m <= 3 then 1 else if m <= 6 then 4 else if m <= 9 then 7 else 10;
  }

  /** Quarters tile the calendar. */
  lemma QuartersTile(a: Date, b: Date)
    requires HasRow(a) && HasRow(b)
    ensures BuildCalendarDate(a).Ok? && BuildCalendarDate(b).Ok?
    ensures var r, s := BuildCalendarDate(a).value, BuildCalendarDate(b).value;
            Within(b, r.quarterStart, r.quarterEnd) <==> s.quarterStart == r.quarterStart
  {
    hide BuildCalendarDate, Ordinal, QuarterStartMonth, Within, EndOfMonth;
    BuildSucceedsExactly(a);
    BuildSucceedsExactly(b);
    RowBounds(a);
    RowBounds(b);
    QuarterStarts(a.month, b.month);
    WithinMonths(b, a.year, QuarterStartMonth(a.month), QuarterStartMonth(a.month) + 2);
  }

  /** Years tile the calendar. */
  lemma YearsTile(a: Date, b: Date)
    requires HasRow(a) && HasRow(b)
    ensures BuildCalendarDate(a).Ok? && BuildCalendarDate(b).Ok?
    ensures var r, s := BuildCalendarDate(a).value, BuildCalendarDate(b).value;
            Within(b, r.yearStart, r.yearEnd) <==> s.yearStart == r.yearStart
  {
    hide BuildCalendarDate, Ordinal, Within;
    BuildSucceedsExactly(a);
    BuildSucceedsExactly(b);
    RowBounds(a);
    RowBounds(b);
    WithinMonths(b, a.year, 1, 12);
  }

  /** Sorting by `date_key` is sorting by date. */
  lemma KeysFollowDates(a: Date, b: Date)
    requires HasRow(a) && HasRow(b)
    ensures BuildCalendarDate(a).Ok? && BuildCalendarDate(b).Ok?
    ensures BuildCalendarDate(a).value.dateKey < BuildCalendarDate(b).value.dateKey <==> Ordinal(a) < Ordinal(b)
    ensures BuildCalendarDate(a).value.dateKey == BuildCalendarDate(b).value.dateKey <==> a == b
  {
    hide BuildCalendarDate, Ordinal;
    BuildSucceedsExactly(a);
    BuildSucceedsExactly(b);
    RowBounds(a);
    RowBounds(b);
    OrdinalGrows(a, b);
  }

  /** ISO year, week and weekday identify one row. */
  lemma WeekFieldsIdentify(a: Date, b: Date)
    requires HasRow(a) && HasRow(b)
    ensures BuildCalendarDate(a).Ok? && BuildCalendarDate(b).Ok?
    ensures var r, s := BuildCalendarDate(a).value, BuildCalendarDate(b).value;
            r.isoYear == s.isoYear && r.isoWeek == s.isoWeek && r.isoWeekday == s.isoWeekday ==> a == b
  {
    hide BuildCalendarDate, Ordinal, CountedWeekDate;
    BuildSucceedsExactly(a);
    BuildSucceedsExactly(b);
    RowBounds(a);
    RowBounds(b);
    if CountedWeekDate(a) == CountedWeekDate(b) {
      WeekDateDetermines(a, b);
    }
  }
}
