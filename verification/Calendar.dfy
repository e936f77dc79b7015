/** The proleptic Gregorian calendar: civil dates, their day numbers, and the proof
    that the two are the same order. Day 1 is 1 January of year 1, a Monday. */
module Calendar {
  datatype Date = Date(year: int, month: int, day: int)

  predicate Leap(y: int) {
    y % 4 == 0 && (y % 100 != 0 || y % 400 == 0)
  }

  function DaysIn(y: int, m: int): int {
    if m == 2 then (if Leap(y) then 29 else 28)
    else if m == 4 || m == 6 || m == 9 || m == 11 then 30
    else 31
  }

  function DaysInYear(y: int): int {
    if Leap(y) then 366 else 365
  }

  predicate ValidDate(d: Date) {
    d.year >= 1 && 1 <= d.month <= 12 && 1 <= d.day <= DaysIn(d.year, d.month)
  }

  function DaysBeforeYear(y: int): int
    decreases y
  {
    if y <= 1 then 0 else DaysBeforeYear(y - 1) + DaysInYear(y - 1)
  }

  function DaysBeforeMonth(y: int, m: int): int
    decreases m
  {
    if m <= 1 then 0 else DaysBeforeMonth(y, m - 1) + DaysIn(y, m - 1)
  }

  function DayNumber(d: Date): int {
    DaysBeforeYear(d.year) + DaysBeforeMonth(d.year, d.month) + d.day
  }

  /** Monday is 0. */
  function WeekdayOf(n: int): int {
    (n + 6) % 7
  }

  function Weekday(d: Date): int {
    WeekdayOf(DayNumber(d))
  }

  predicate Before(a: Date, b: Date) {
    a.year < b.year
    || (a.year == b.year && (a.month < b.month || (a.month == b.month && a.day < b.day)))
  }

  predicate NotAfter(a: Date, b: Date) {
    a == b || Before(a, b)
  }

  // ---------- anchors ----------

  /** The lengths of the twelve months, and which Februaries have 29 days. */
  lemma {:induction false} MonthLengths(y: int)
    ensures forall m :: m in {1, 3, 5, 7, 8, 10, 12} ==> DaysIn(y, m) == 31
    ensures forall m :: m in {4, 6, 9, 11} ==> DaysIn(y, m) == 30
    ensures DaysIn(y, 2) == if (y % 4 == 0 && y % 100 != 0) || y % 400 == 0 then 29 else 28
  {
    LeapDivisors(y);
  }

  lemma {:induction false} NextWeekday(n: int)
    ensures 0 <= WeekdayOf(n) < 7 && WeekdayOf(n + 1) == (WeekdayOf(n) + 1) % 7
  {
  }

  /** 1 January of year 1 is day 1, a Monday. */
  lemma {:induction false} DayOne(d: Date)
    requires d.year == 1 && d.month == 1 && d.day == 1
    ensures DayNumber(d) == 1 && Weekday(d) == 0
  {
    assert DaysBeforeYear(d.year) == 0;
    assert DaysBeforeMonth(d.year, d.month) == 0;
  }

  /** Weekdays run round. */
  lemma {:induction false} WeekdaysGoRound(d: Date)
    requires ValidDate(d)
    ensures 0 <= Weekday(d) < 7
    ensures Weekday(NextDay(d)) == (Weekday(d) + 1) % 7
  {
    NextDayIsNextNumber(d);
    NextWeekday(DayNumber(d));
  }

  /** Two known days: 20 January 2025 was a Monday, 29 February 2024 a Thursday. */
  lemma {:induction false} KnownDays()
    ensures DayNumber(Date(2025, 1, 20)) == 739_271 && Weekday(Date(2025, 1, 20)) == 0
    ensures DayNumber(Date(2024, 2, 29)) == 738_945 && Weekday(Date(2024, 2, 29)) == 3
  {
    DaysBeforeYearClosed(2025);
    DaysBeforeYearClosed(2024);
    assert DaysBeforeMonth(2024, 2) == DaysBeforeMonth(2024, 1) + 31 == 31;
  }

  // ---------- order ----------

  lemma {:induction false} Quarter(y: int)
    ensures y / 4 == (y - 1) / 4 + if y % 4 == 0 then 1 else 0
  {
  }

  lemma {:induction false} Century(y: int)
    ensures y / 100 == (y - 1) / 100 + if y % 100 == 0 then 1 else 0
  {
  }

  lemma {:induction false} FourCenturies(y: int)
    ensures y / 400 == (y - 1) / 400 + if y % 400 == 0 then 1 else 0
  {
  }

  lemma {:induction false} LeapDivisors(y: int)
    ensures y % 400 == 0 ==> y % 100 == 0
    ensures y % 100 == 0 ==> y % 4 == 0
  {
    FourHundreds(y);
    Hundreds(y);
  }

  lemma {:induction false} FourHundreds(y: int)
    ensures y % 400 == 0 ==> y % 100 == 0
  {
    if y % 400 == 0 {
      assert y == 100 * (4 * (y / 400));
    }
  }

  lemma {:induction false} Hundreds(y: int)
    ensures y % 100 == 0 ==> y % 4 == 0
  {
    if y % 100 == 0 {
      assert y == 4 * (25 * (y / 100));
    }
  }

  /** The usual closed form of the count of days before a year. */
  lemma {:induction false} DaysBeforeYearClosed(y: int)
    requires y >= 1
    ensures DaysBeforeYear(y) == (y - 1) * 365 + (y - 1) / 4 - (y - 1) / 100 + (y - 1) / 400
    decreases y
  {
    if y > 1 {
      DaysBeforeYearClosed(y - 1);
      Quarter(y - 1);
      Century(y - 1);
      FourCenturies(y - 1);
      LeapDivisors(y - 1);
    }
  }

  lemma {:induction false} YearsGrow(a: int, b: int)
    requires 1 <= a < b
    ensures DaysBeforeYear(a) + DaysInYear(a) <= DaysBeforeYear(b)
    decreases b
  {
    if a + 1 < b { YearsGrow(a, b - 1); }
  }

  lemma {:induction false} MonthsGrow(y: int, a: int, b: int)
    requires 1 <= a < b
    ensures DaysBeforeMonth(y, a) + DaysIn(y, a) <= DaysBeforeMonth(y, b)
    decreases b
  {
    if a + 1 < b { MonthsGrow(y, a, b - 1); }
  }

  lemma {:induction false} YearLength(y: int)
    ensures DaysBeforeMonth(y, 13) == DaysInYear(y)
  {
    assert DaysBeforeMonth(y, 4) == 59 + 31 + if Leap(y) then 1 else 0 by {
      assert DaysBeforeMonth(y, 3) == 59 + if Leap(y) then 1 else 0;
    }
    assert DaysBeforeMonth(y, 7) == DaysBeforeMonth(y, 4) + 91;
    assert DaysBeforeMonth(y, 10) == DaysBeforeMonth(y, 7) + 92;
  }

  lemma {:induction false} WithinYear(d: Date)
    requires ValidDate(d)
    ensures 1 <= DaysBeforeMonth(d.year, d.month) + d.day <= DaysInYear(d.year)
  {
    YearLength(d.year);
    MonthsGrow(d.year, d.month, 13);
    if d.month > 1 { MonthsGrow(d.year, 1, d.month); }
  }

  lemma {:induction false} BeforeIsSmaller(a: Date, b: Date)
    requires ValidDate(a) && ValidDate(b) && Before(a, b)
    ensures DayNumber(a) < DayNumber(b)
  {
    WithinYear(a);
    WithinYear(b);
    if a.year < b.year {
      YearsGrow(a.year, b.year);
    } else if a.month < b.month {
      MonthsGrow(a.year, a.month, b.month);
    }
  }

  /** The calendar order is the order of day numbers, so equal numbers mean equal dates. */
  lemma {:induction false} OrderIsDayOrder(a: Date, b: Date)
    requires ValidDate(a) && ValidDate(b)
    ensures Before(a, b) <==> DayNumber(a) < DayNumber(b)
    ensures NotAfter(a, b) <==> DayNumber(a) <= DayNumber(b)
    ensures a == b <==> DayNumber(a) == DayNumber(b)
  {
    if Before(a, b) {
      BeforeIsSmaller(a, b);
    } else if a != b {
      BeforeIsSmaller(b, a);
    }
  }

  // ---------- the bijection ----------

  function NextDay(d: Date): Date {
    if d.day < DaysIn(d.year, d.month) then d.(day := d.day + 1)
    else if d.month < 12 then Date(d.year, d.month + 1, 1)
    else Date(d.year + 1, 1, 1)
  }

  lemma {:induction false} NextDayIsNextNumber(d: Date)
    requires ValidDate(d)
    ensures ValidDate(NextDay(d)) && DayNumber(NextDay(d)) == DayNumber(d) + 1
  {
    YearLength(d.year);
  }

  /** The date with a given day number, counted up from day 1. */
  function FromDayNumber(n: int): (d: Date)
    requires n >= 1
    ensures ValidDate(d) && DayNumber(d) == n
    decreases n
  {
    if n == 1 then Date(1, 1, 1)
    else
      var d := FromDayNumber(n - 1);
      NextDayIsNextNumber(d);
      NextDay(d)
  }

  lemma {:induction false} DayNumberPositive(d: Date)
    requires ValidDate(d)
    ensures DayNumber(d) >= 1
  {
    WithinYear(d);
    if d.year > 1 { YearsGrow(1, d.year); }
  }

  /** Civil dates and positive day numbers are in bijection. */
  lemma {:induction false} DayNumberRoundTrip(d: Date)
    requires ValidDate(d)
    ensures DayNumber(d) >= 1 && FromDayNumber(DayNumber(d)) == d
  {
    DayNumberPositive(d);
    OrderIsDayOrder(FromDayNumber(DayNumber(d)), d);
  }

  /** `date + timedelta(days=n)`. */
  function AddDays(d: Date, n: nat): (r: Date)
    requires ValidDate(d)
    ensures ValidDate(r) && DayNumber(r) == DayNumber(d) + n
  {
    DayNumberPositive(d);
    FromDayNumber(DayNumber(d) + n)
  }
}
