/** The proleptic Gregorian calendar: dates, their ordinals, and ISO 8601 weeks. */
module Gregorian {
  datatype Date = Date(year: int, month: int, day: int)

  predicate IsLeap(year: int) {
    year % 4 == 0 && (year % 100 != 0 || year % 400 == 0)
  }

  function DaysInMonth(year: int, month: int): int {
    if month == 2 then (if IsLeap(year) then 29 else 28)
    else if month == 4 || month == 6 || month == 9 || month == 11 then 30
    else 31
  }

  predicate IsDate(d: Date) {
    d.year >= 1 && 1 <= d.month <= 12 && 1 <= d.day <= DaysInMonth(d.year, d.month)
  }

  function DaysBeforeYear(year: int): int {
    (year - 1) * 365 + (year - 1) / 4 - (year - 1) / 100 + (year - 1) / 400
  }

  function DaysBeforeMonth(year: int, month: int): int
    decreases month
  {
    if month <= 1 then 0 else DaysBeforeMonth(year, month - 1) + DaysInMonth(year, month - 1)
  }

  function DaysInYear(year: int): int {
    if IsLeap(year) then 366 else 365
  }

  /** Day 1 is 0001-01-01. */
  function Ordinal(d: Date): int {
    DaysBeforeYear(d.year) + DaysBeforeMonth(d.year, d.month) + d.day
  }

  function NewYear(year: int): Date {
    Date(year, 1, 1)
  }

  lemma Quotients(n: int)
    ensures (n + 1) / 4 == n / 4 + if (n + 1) % 4 == 0 then 1 else 0
    ensures (n + 1) / 100 == n / 100 + if (n + 1) % 100 == 0 then 1 else 0
    ensures (n + 1) / 400 == n / 400 + if (n + 1) % 400 == 0 then 1 else 0
  {
  }

  lemma HundredTimes(n: int, m: int)
    requires n == 100 * m
    ensures n % 100 == 0
  {
  }

  lemma FourTimes(n: int, m: int)
    requires n == 4 * m
    ensures n % 4 == 0
  {
  }

  lemma Multiples(n: int)
    ensures n % 400 == 0 ==> n % 100 == 0
    ensures n % 100 == 0 ==> n % 4 == 0
  {
    if n % 400 == 0 {
      HundredTimes(n, 4 * (n / 400));
    }
    if n % 100 == 0 {
      FourTimes(n, 25 * (n / 100));
    }
  }

  lemma MonthTotals(year: int)
    ensures DaysBeforeMonth(year, 12) + 31 == DaysInYear(year)
  {
    hide IsLeap;
    assert DaysBeforeMonth(year, 4) == 31 + DaysInMonth(year, 2) + 31;
    assert DaysBeforeMonth(year, 7) == DaysBeforeMonth(year, 4) + 30 + 31 + 30;
    assert DaysBeforeMonth(year, 10) == DaysBeforeMonth(year, 7) + 31 + 31 + 30;
  }

  lemma YearLength(year: int)
    ensures DaysBeforeYear(year + 1) == DaysBeforeYear(year) + DaysInYear(year)
    ensures DaysBeforeMonth(year, 12) + 31 == DaysInYear(year)
  {
    MonthTotals(year);
    Quotients(year - 1);
    Multiples(year);
    LeapCount(year);
  }

  lemma LeapCount(year: int)
    requires year / 4 == (year - 1) / 4 + if year % 4 == 0 then 1 else 0
    requires year / 100 == (year - 1) / 100 + if year % 100 == 0 then 1 else 0
    requires year / 400 == (year - 1) / 400 + if year % 400 == 0 then 1 else 0
    requires (year % 400 == 0 ==> year % 100 == 0) && (year % 100 == 0 ==> year % 4 == 0)
    ensures DaysBeforeYear(year + 1) == DaysBeforeYear(year) + DaysInYear(year)
  {
  }

  lemma {:induction false} MonthsGrow(year: int, a: int, b: int)
    requires 1 <= a <= b
    ensures DaysBeforeMonth(year, a) + 28 * (b - a) <= DaysBeforeMonth(year, b)
  {
    if a < b {
      MonthsGrow(year, a, b - 1);
    }
  }

  lemma {:induction false} YearsGrow(a: int, b: int)
    requires a <= b
    ensures DaysBeforeYear(a) + 365 * (b - a) <= DaysBeforeYear(b)
    decreases b - a
  {
    if a < b {
      YearsGrow(a, b - 1);
      YearLength(b - 1);
    }
  }

  lemma WithinYear(d: Date)
    requires IsDate(d)
    ensures DaysBeforeYear(d.year) < Ordinal(d) <= DaysBeforeYear(d.year + 1)
    ensures 1 <= Ordinal(d)
  {
    MonthsGrow(d.year, 1, d.month);
    YearLength(d.year);
    if d.month < 12 {
      MonthsGrow(d.year, d.month + 1, 12);
    }
    YearsGrow(1, d.year);
  }

  predicate Before(a: Date, b: Date) {
    a.year < b.year || (a.year == b.year && (a.month < b.month || (a.month == b.month && a.day < b.day)))
  }

  /** Ordinals order dates as their parts do. */
  lemma OrdinalGrows(a: Date, b: Date)
    requires IsDate(a) && IsDate(b)
    ensures Ordinal(a) < Ordinal(b) <==> Before(a, b)
    ensures Ordinal(a) == Ordinal(b) <==> a == b
  {
    if Before(a, b) {
      BeforeMeansLess(a, b);
    } else if Before(b, a) {
      BeforeMeansLess(b, a);
    } else {
      assert a == b;
    }
  }

  lemma NextMonth(year: int, month: int)
    requires month >= 1
    ensures DaysBeforeMonth(year, month + 1) == DaysBeforeMonth(year, month) + DaysInMonth(year, month)
  {
  }

  lemma BeforeMeansLess(a: Date, b: Date)
    requires IsDate(a) && IsDate(b) && Before(a, b)
    ensures Ordinal(a) < Ordinal(b)
  {
    hide DaysBeforeYear, DaysBeforeMonth, DaysInMonth;
    if a.year < b.year {
      WithinYear(a);
      WithinYear(b);
      YearsGrow(a.year + 1, b.year);
    } else if a.month < b.month {
      NextMonth(a.year, a.month);
      MonthsGrow(a.year, a.month + 1, b.month);
    }
  }

  // ----- Counting days -----

  function NextDay(d: Date): Date {
    if d.day < DaysInMonth(d.year, d.month) then d.(day := d.day + 1)
    else if d.month < 12 then Date(d.year, d.month + 1, 1)
    else NewYear(d.year + 1)
  }

  lemma NextDayIsNext(d: Date)
    requires IsDate(d)
    ensures IsDate(NextDay(d)) && Ordinal(NextDay(d)) == Ordinal(d) + 1
  {
    YearLength(d.year);
  }

  function FromOrdinal(n: int): (d: Date)
    requires n >= 1
    ensures IsDate(d) && Ordinal(d) == n
    decreases n
  {
    if n == 1 then NewYear(1)
    else
      NextDayIsNext(FromOrdinal(n - 1));
      NextDay(FromOrdinal(n - 1))
  }

  lemma FromOrdinalInverse(d: Date)
    requires IsDate(d)
    ensures Ordinal(d) >= 1 && FromOrdinal(Ordinal(d)) == d
  {
    WithinYear(d);
    OrdinalGrows(d, FromOrdinal(Ordinal(d)));
  }

  /** The date `days` later, for as long as that is on or after 0001-01-01. */
  function Plus(d: Date, days: int): (r: Date)
    requires IsDate(d) && Ordinal(d) + days >= 1
    ensures IsDate(r) && Ordinal(r) == Ordinal(d) + days
  {
    FromOrdinal(Ordinal(d) + days)
  }

  // ----- ISO 8601 week dates, section 4.1.4 of ISO 8601:2004 -----

  /** Monday is 1; 0001-01-01 was a Monday. */
  function IsoWeekday(d: Date): (w: int)
    ensures 1 <= w <= 7
  {
    (Ordinal(d) - 1) % 7 + 1
  }

  function MondayOf(n: int): (m: int)
    ensures m <= n < m + 7 && (m - 1) % 7 == 0
  {
    n - (n - 1) % 7
  }

  datatype WeekDate = WeekDate(year: int, week: int, weekday: int)

  /** The first formulation: a week belongs to the year of its Thursday, and is numbered by that Thursday. */
  function ThursdayWeekDate(d: Date): WeekDate
    requires IsDate(d)
  {
    ThursdayExists(d);
    var thursday := Plus(d, 4 - IsoWeekday(d));
    WeekDate(thursday.year, (Ordinal(thursday) - Ordinal(NewYear(thursday.year))) / 7 + 1, IsoWeekday(d))
  }

  lemma ThursdayExists(d: Date)
    requires IsDate(d)
    ensures Ordinal(d) + 4 - IsoWeekday(d) >= 4
  {
    WithinYear(d);
  }

  /** The Monday of the week that contains January 4. */
  function FirstMonday(year: int): int {
    MondayOf(Ordinal(Date(year, 1, 4)))
  }

  /** The second formulation: count weeks from the first Monday of the year, or of a neighbouring year. */
  function CountedWeekDate(d: Date): WeekDate {
    var n := Ordinal(d);
    var year :=
      if n < FirstMonday(d.year) then d.year - 1
      else if n >= FirstMonday(d.year + 1) then d.year + 1
      else d.year;
    WeekDate(year, (n - FirstMonday(year)) / 7 + 1, IsoWeekday(d))
  }

  lemma SameWeekday(a: int, b: int)
    requires (a - 1) % 7 == 0 && (b - 1) % 7 == 0
    ensures a - b == 7 * ((a - b) / 7)
  {
  }

  /** A Thursday falls in or after a year exactly when its week starts at or after the year's first Monday. */
  lemma ThursdayOfYear(monday: int, year: int)
    requires (monday - 1) % 7 == 0
    ensures monday + 3 >= Ordinal(NewYear(year)) <==> monday >= FirstMonday(year)
    ensures monday >= FirstMonday(year) ==>
              (monday + 3 - Ordinal(NewYear(year))) / 7 == (monday - FirstMonday(year)) / 7
  {
    hide MondayOf;
    var first, fourth := FirstMonday(year), Ordinal(Date(year, 1, 4));
    assert fourth == Ordinal(NewYear(year)) + 3;
    SameWeekday(monday, first);
    WeeksApart(monday, first, fourth, (monday - first) / 7);
  }

  lemma WeeksApart(monday: int, first: int, fourth: int, weeks: int)
    requires monday - first == 7 * weeks && first <= fourth < first + 7
    ensures monday + 6 >= fourth <==> weeks >= 0
    ensures (monday + 6 - fourth) / 7 == weeks
  {
    assert monday + 6 - fourth == 7 * weeks + (first + 6 - fourth);
  }

  lemma YearOf(d: Date, year: int)
    requires IsDate(d)
    ensures d.year >= year <==> Ordinal(d) >= Ordinal(NewYear(year))
  {
    WithinYear(d);
    if d.year >= year {
      YearsGrow(year, d.year);
    } else {
      YearsGrow(d.year + 1, year);
    }
  }

  lemma NearYear(d: Date)
    requires IsDate(d)
    ensures FirstMonday(d.year - 1) <= Ordinal(d) < FirstMonday(d.year + 2)
  {
    WithinYear(d);
    YearsGrow(d.year - 1, d.year);
    YearsGrow(d.year + 1, d.year + 2);
  }

  lemma FirstMondayIsMonday(year: int)
    ensures (FirstMonday(year) - 1) % 7 == 0
  {
  }

  lemma MondayCompare(n: int, m: int)
    requires (m - 1) % 7 == 0
    ensures n >= m <==> MondayOf(n) >= m
    ensures (n - m) / 7 == (MondayOf(n) - m) / 7
  {
    var k := MondayOf(n);
    assert (k - m) % 7 == 0;
  }

  function ThursdayOf(d: Date): (t: Date)
    requires IsDate(d)
    ensures IsDate(t) && Ordinal(t) == MondayOf(Ordinal(d)) + 3
  {
    ThursdayExists(d);
    Plus(d, 4 - IsoWeekday(d))
  }

  lemma ThursdayCounts(d: Date, year: int)
    requires IsDate(d)
    ensures ThursdayOf(d).year >= year <==> Ordinal(d) >= FirstMonday(year)
    ensures Ordinal(d) >= FirstMonday(year) ==>
              (Ordinal(ThursdayOf(d)) - Ordinal(NewYear(year))) / 7 == (Ordinal(d) - FirstMonday(year)) / 7
  {
    hide Ordinal, FirstMonday, ThursdayOf, MondayOf;
    YearOf(ThursdayOf(d), year);
    FirstMondayIsMonday(year);
    ThursdayOfYear(MondayOf(Ordinal(d)), year);
    MondayCompare(Ordinal(d), FirstMonday(year));
  }

  /** Both formulations name the same week. */
  lemma WeekDatesAgree(d: Date)
    requires IsDate(d)
    ensures ThursdayWeekDate(d) == CountedWeekDate(d)
  {
    hide Ordinal, FirstMonday, MondayOf, FromOrdinal, IsoWeekday, Plus;
    ThursdayIs(d);
    NearYear(d);
    ThursdayCounts(d, d.year - 1);
    ThursdayCounts(d, d.year);
    ThursdayCounts(d, d.year + 1);
    ThursdayCounts(d, d.year + 2);
  }

  lemma ThursdayIs(d: Date)
    requires IsDate(d)
    ensures ThursdayWeekDate(d)
            == WeekDate(ThursdayOf(d).year, (Ordinal(ThursdayOf(d)) - Ordinal(NewYear(ThursdayOf(d).year))) / 7 + 1,
                        IsoWeekday(d))
  {
    hide Ordinal, FromOrdinal, IsoWeekday;
  }

  /** Week year, week number and weekday determine the date. */
  lemma WeekDateDetermines(a: Date, b: Date)
    requires IsDate(a) && IsDate(b) && CountedWeekDate(a) == CountedWeekDate(b)
    ensures a == b
  {
    hide FirstMonday, MondayOf;
    WeekDateCounts(a);
    WeekDateCounts(b);
    OrdinalGrows(a, b);
  }

  lemma WeekDateCounts(d: Date)
    requires IsDate(d)
    ensures var w := CountedWeekDate(d); Ordinal(d) == FirstMonday(w.year) + 7 * (w.week - 1) + w.weekday - 1
  {
    hide FirstMonday;
    var w := CountedWeekDate(d);
    FirstMondayIsMonday(w.year);
  }

  lemma NewYearOrdinal(year: int)
    ensures Ordinal(NewYear(year)) == (year - 1) * 365 + (year - 1) / 4 - (year - 1) / 100 + (year - 1) / 400 + 1
  {
  }

  /** Fixed points of the calendar: its first day, and two known weekdays. */
  lemma KnownDates()
    ensures Ordinal(NewYear(1)) == 1 && Ordinal(NewYear(1970)) == 719163
    ensures IsoWeekday(NewYear(1970)) == 4 && IsoWeekday(NewYear(2000)) == 6
  {
    hide Ordinal;
    NewYearOrdinal(1);
    NewYearOrdinal(1970);
    NewYearOrdinal(2000);
  }

  /** The year lengths of every year. */
  lemma LeapYears(year: int)
    requires year >= 1
    ensures IsDate(Date(year, 2, 29)) <==> year % 400 == 0 || (year % 4 == 0 && year % 100 != 0)
    ensures Ordinal(Date(year + 1, 1, 1)) - Ordinal(Date(year, 1, 1)) == if IsDate(Date(year, 2, 29)) then 366 else 365
  {
    Multiples(year);
    YearLength(year);
  }
}
