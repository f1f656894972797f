/** The database trigger that derives a calendar row, and its agreement with the application. */
module CalendarTrigger {
  import opened Results
  import opened Gregorian
  import opened CalendarRows

  // ----- PostgreSQL's date functions -----

  function DateTruncMonth(d: Date): Date {
    Date(d.year, d.month, 1)
  }

  function DateTruncQuarter(d: Date): Date {
    Date(d.year, (d.month - 1) / 3 * 3 + 1, 1)
  }

  function DateTruncYear(d: Date): Date {
    Date(d.year, 1, 1)
  }

  /** Months are added first, and the day is brought back into the month reached. */
  function AddMonths(d: Date, months: nat): Date {
    var m := d.year * 12 + d.month - 1 + months;
    var year, month := m / 12, m % 12 + 1;
    Date(year, month, if d.day <= DaysInMonth(year, month) then d.day else DaysInMonth(year, month))
  }

  /** Adding `INTERVAL 'n months - 1 day'`. */
  function AddMonthsLessADay(d: Date, months: nat): Date
    requires IsDate(AddMonths(d, months)) && Ordinal(AddMonths(d, months)) >= 2
  {
    Plus(AddMonths(d, months), -1)
  }

  function ExtractDayOfYear(d: Date): int {
    DaysBeforeMonth(d.year, d.month) + d.day
  }

  /** `lpad(s, width, '0')` also cuts longer strings. */
  function LeftPad(s: string, width: nat): string
    decreases width - |s|
  {
    if |s| >= width then s[..width] else LeftPad("0" + s, width)
  }

  function CaseMonth(month: int): string {
    match month
    case 1 => "January" case 2 => "February" case 3 => "March" case 4 => "April" case 5 => "May" case 6 => "June"
    case 7 => "July" case 8 => "August" case 9 => "September" case 10 => "October" case 11 => "November"
    case 12 => "December"
    case _ => ""
  }

  function CaseMonthAbbreviation(month: int): string {
    match month
    case 1 => "Jan" case 2 => "Feb" case 3 => "Mar" case 4 => "Apr" case 5 => "May" case 6 => "Jun"
    case 7 => "Jul" case 8 => "Aug" case 9 => "Sep" case 10 => "Oct" case 11 => "Nov" case 12 => "Dec"
    case _ => ""
  }

  function CaseWeekday(day: int): string {
    match day
    case 1 => "Monday" case 2 => "Tuesday" case 3 => "Wednesday" case 4 => "Thursday" case 5 => "Friday"
    case 6 => "Saturday"
    case 7 => "Sunday"
    case _ => ""
  }

  /** The values the trigger assigns. */
  function TriggerRow(d: Date): CalendarRow
    requires Representable(d)
  {
    PeriodEnds(d);
    WeekStarts(d);
    PartsAgree(d);
    var isoDay, week := IsoWeekday(d), ThursdayWeekDate(d);
    CalendarRow(
      d, d.year * 10000 + d.month * 100 + d.day, d.year, (d.month - 1) / 3 + 1, d.month, CaseMonth(d.month),
      CaseMonthAbbreviation(d.month),
      d.day, ExtractDayOfYear(d), week.year, week.week, isoDay, CaseWeekday(isoDay), isoDay == 6 || isoDay == 7,
      Plus(d, -(isoDay - 1)), Plus(d, 7 - isoDay), DateTruncMonth(d), AddMonthsLessADay(DateTruncMonth(d), 1),
      DateTruncQuarter(d), AddMonthsLessADay(DateTruncQuarter(d), 3), DateTruncYear(d),
      AddMonthsLessADay(DateTruncYear(d), 12),
      d.year * 100 + d.month, CaseMonthAbbreviation(d.month) + " " + LeftPad(Decimal(d.year), 4),
      LeftPad(Decimal(d.year), 4) + " Q" + Decimal((d.month - 1) / 3 + 1))
  }

  // ----- The trigger -----

  /** `business_data_derive_calendar_date`: whatever the statement supplied in `NEW`, only its date survives. */
  method DeriveCalendarDate(supplied: CalendarRow) returns (row: CalendarRow)
    requires Representable(supplied.date)
    ensures row == TriggerRow(supplied.date)
  {
    hide Ordinal, ThursdayWeekDate, Quarter, QuarterStartMonth, IsoWeekday, AddMonths, AddMonthsLessADay,
         ExtractDayOfYear, CaseMonth, IsDate, CaseMonthAbbreviation, CaseWeekday, LeftPad, Decimal, DateTruncMonth,
         DateTruncQuarter, DateTruncYear, EndOfMonth, Plus;
    row := supplied;
    TriggerRowFits(row.date);
    var calendarYear := row.date.year;
    var calendarQuarter := (row.date.month - 1) / 3 + 1;
    var calendarMonth := row.date.month;
    var calendarDay := row.date.day;
    var isoDay := IsoWeekday(row.date);
    row := row.(dateKey := calendarYear * 10000 + calendarMonth * 100 + calendarDay);
    row := row.(year := calendarYear);
    row := row.(quarter := calendarQuarter);
    row := row.(month := calendarMonth);
    row := row.(monthName := CaseMonth(calendarMonth));
    row := row.(monthAbbreviation := CaseMonthAbbreviation(calendarMonth));
    row := row.(dayOfMonth := calendarDay);
    row := row.(dayOfYear := ExtractDayOfYear(row.date));
    row := row.(isoYear := ThursdayWeekDate(row.date).year);
    row := row.(isoWeek := ThursdayWeekDate(row.date).week);
    row := row.(isoWeekday := isoDay);
    row := row.(weekdayName := CaseWeekday(isoDay));
    row := row.(isWeekend := isoDay == 6 || isoDay == 7);
    row := row.(weekStart := Plus(row.date, -(isoDay - 1)));
    row := row.(weekEnd := Plus(row.date, 7 - isoDay));
    row := row.(monthStart := DateTruncMonth(row.date));
    row := row.(monthEnd := AddMonthsLessADay(DateTruncMonth(row.date), 1));
    row := row.(quarterStart := DateTruncQuarter(row.date));
    row := row.(quarterEnd := AddMonthsLessADay(DateTruncQuarter(row.date), 3));
    row := row.(yearStart := DateTruncYear(row.date));
    row := row.(yearEnd := AddMonthsLessADay(DateTruncYear(row.date), 12));
    row := row.(yearMonthKey := calendarYear * 100 + calendarMonth);
    row := row.(yearMonthLabel := row.monthAbbreviation + " " + LeftPad(Decimal(calendarYear), 4));
    row := row.(yearQuarterLabel := LeftPad(Decimal(calendarYear), 4) + " Q" + Decimal(calendarQuarter));
  }

  lemma TriggerRowFits(d: Date)
    requires Representable(d)
    ensures IsDate(d) && d.year >= 0 && (d.month - 1) / 3 + 1 >= 0
    ensures Ordinal(d) - (IsoWeekday(d) - 1) >= 1 && Ordinal(d) + 7 - IsoWeekday(d) >= 1
    ensures IsDate(AddMonths(DateTruncMonth(d), 1)) && Ordinal(AddMonths(DateTruncMonth(d), 1)) >= 2
    ensures IsDate(AddMonths(DateTruncQuarter(d), 3)) && Ordinal(AddMonths(DateTruncQuarter(d), 3)) >= 2
    ensures IsDate(AddMonths(DateTruncYear(d), 12)) && Ordinal(AddMonths(DateTruncYear(d), 12)) >= 2
  {
    hide Ordinal, AddMonths, IsoWeekday;
    PeriodEnds(d);
    WeekStarts(d);
    PartsAgree(d);
  }

  // ----- Field by field -----

  lemma {:induction false} DecimalLength(n: nat, width: nat, bound: nat)
    requires width >= 1 && n < bound && bound == Power10(width)
    ensures 1 <= |Decimal(n)| <= width
    decreases width
  {
    if n >= 10 {
      DecimalLength(n / 10, width - 1, bound / 10);
    }
  }

  function Power10(n: nat): nat {
    if n == 0 then 1 else 10 * Power10(n - 1)
  }

  lemma {:induction false} PaddingsAgree(s: string)
    requires |s| <= 4
    ensures LeftPad(s, 4) == ZeroPadded(s)
    decreases 4 - |s|
  {
    if |s| < 4 {
      PaddingsAgree("0" + s);
    }
  }

  lemma YearTextsAgree(year: int)
    requires 1 <= year <= MAX_YEAR
    ensures LeftPad(Decimal(year), 4) == YearText(year)
  {
    hide Decimal;
    assert Power10(4) == 10 * (10 * (10 * (10 * Power10(0))));
    DecimalLength(year, 4, 10000);
    PaddingsAgree(Decimal(year));
  }

  /** The day before the first of the following month. */
  lemma LessADay(d: Date, months: nat, end: Date)
    requires IsDate(end) && AddMonths(d, months) == NextDay(end)
    ensures IsDate(AddMonths(d, months)) && Ordinal(AddMonths(d, months)) >= 2 && AddMonthsLessADay(d, months) == end
  {
    hide Ordinal, AddMonths, NextDay;
    NextDayIsNext(end);
    WithinYear(end);
    OrdinalGrows(AddMonthsLessADay(d, months), end);
  }

  lemma AddToFirst(year: int, month: int, months: nat)
    requires year >= 1 && 1 <= month <= 12 && months <= 12
    ensures AddMonths(Date(year, month, 1), months)
            == if month + months <= 12 then Date(year, month + months, 1) else Date(year + 1, month + months - 12, 1)
  {
    MonthIndex(year * 12, month - 1 + months, year);
  }

  lemma MonthIndex(base: int, offset: int, year: int)
    requires base == 12 * year && 0 <= offset < 24
    ensures (base + offset) / 12 == year + (if offset < 12 then 0 else 1)
    ensures (base + offset) % 12 == if offset < 12 then offset else offset - 12
  {
  }

  lemma PeriodEnds(d: Date)
    requires Representable(d)
    ensures IsDate(AddMonths(DateTruncMonth(d), 1)) && Ordinal(AddMonths(DateTruncMonth(d), 1)) >= 2
    ensures AddMonthsLessADay(DateTruncMonth(d), 1) == EndOfMonth(d.year, d.month)
    ensures IsDate(AddMonths(DateTruncQuarter(d), 3)) && Ordinal(AddMonths(DateTruncQuarter(d), 3)) >= 2
    ensures AddMonthsLessADay(DateTruncQuarter(d), 3) == EndOfMonth(d.year, QuarterStartMonth(d.month) + 2)
    ensures IsDate(AddMonths(DateTruncYear(d), 12)) && Ordinal(AddMonths(DateTruncYear(d), 12)) >= 2
    ensures AddMonthsLessADay(DateTruncYear(d), 12) == Date(d.year, 12, 31)
  {
    hide Ordinal, AddMonths, AddMonthsLessADay;
    var q := QuarterStartMonth(d.month);
    AddToFirst(d.year, d.month, 1);
    LessADay(DateTruncMonth(d), 1, EndOfMonth(d.year, d.month));
    AddToFirst(d.year, q, 3);
    LessADay(DateTruncQuarter(d), 3, EndOfMonth(d.year, q + 2));
    AddToFirst(d.year, 1, 12);
    LessADay(DateTruncYear(d), 12, Date(d.year, 12, 31));
  }

  lemma NamesAgree(month: int, day: int)
    ensures 1 <= month <= 12
            ==> CaseMonth(month) == MonthName(month) && CaseMonthAbbreviation(month) == MonthAbbreviation(month)
    ensures 1 <= day <= 7 ==> CaseWeekday(day) == WeekdayName(day)
  {
  }

  lemma WeekBoundsAgree(d: Date)
    requires Representable(d) && DateBounds(d).Some?
    ensures Ordinal(d) - (IsoWeekday(d) - 1) >= 1 && Ordinal(d) + 7 - IsoWeekday(d) >= 1
    ensures Plus(d, -(IsoWeekday(d) - 1)) == DateBounds(d).value.weekStart
            && Plus(d, 7 - IsoWeekday(d)) == DateBounds(d).value.weekEnd
  {
    hide Ordinal, DateBounds, IsoWeekday;
    BoundsAre(d);
    MondayStep(d);
    WeekStarts(d);
    WithinYear(d);
    OrdinalGrows(Plus(d, -(IsoWeekday(d) - 1)), DateBounds(d).value.weekStart);
    OrdinalGrows(Plus(d, 7 - IsoWeekday(d)), DateBounds(d).value.weekEnd);
  }

  lemma WeekStarts(d: Date)
    requires IsDate(d)
    ensures 1 <= IsoWeekday(d) <= 7 && MondayOf(Ordinal(d)) >= 1
    ensures Ordinal(d) - (IsoWeekday(d) - 1) >= 1 && Ordinal(d) + 7 - IsoWeekday(d) >= 1
  {
    hide DaysBeforeYear, DaysBeforeMonth;
    WithinYear(d);
  }

  lemma LabelsAgree(d: Date)
    requires Representable(d)
    ensures CaseMonthAbbreviation(d.month) + " " + LeftPad(Decimal(d.year), 4) == MonthLabel(d)
    ensures LeftPad(Decimal(d.year), 4) + " Q" + Decimal(Quarter(d.month)) == QuarterLabel(d)
  {
    hide LeftPad, CaseMonthAbbreviation, MonthAbbreviation, YearText, Quarter;
    NamesAgree(d.month, 0);
    YearTextsAgree(d.year);
  }

  lemma PartsAgree(d: Date)
    requires Representable(d)
    ensures ExtractDayOfYear(d) == Ordinal(d) - Ordinal(NewYear(d.year)) + 1
    ensures DateTruncQuarter(d) == Date(d.year, QuarterStartMonth(d.month), 1)
    ensures 0 <= (d.month - 1) / 3 + 1 == Quarter(d.month)
  {
    hide DaysBeforeYear;
  }

  /** The two derivations agree on every field of every date whose row the application can represent. */
  lemma DerivationsAgree(d: Date)
    requires HasRow(d)
    ensures BuildCalendarDate(d) == Ok(TriggerRow(d))
  {
    hide DateBounds, CountedWeekDate, ThursdayWeekDate, MonthLabel, QuarterLabel, MonthName, MonthAbbreviation,
         WeekdayName, IsoWeekday, AddMonths, AddMonthsLessADay, CaseMonth, CaseMonthAbbreviation, CaseWeekday, LeftPad,
         Decimal, EndOfMonth, Ordinal, ExtractDayOfYear, Quarter, QuarterStartMonth, DateTruncQuarter, Plus;
    BuildSucceedsExactly(d);
    WeekdayIs(d);
    BoundsAre(d);
    NamesAgree(d.month, IsoWeekday(d));
    WeekDatesAgree(d);
    WeekBoundsAgree(d);
    PeriodEnds(d);
    LabelsAgree(d);
    PartsAgree(d);
  }

  /** In particular for every date the calendar table accepts. */
  lemma SupportedDatesAgree(d: Date)
    requires IsDate(d) && d.year <= 9998
    ensures BuildCalendarDate(d) == Ok(TriggerRow(d))
  {
    hide BuildCalendarDate, TriggerRow;
    DerivationsAgree(d);
  }
}
