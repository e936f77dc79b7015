/** Fire dates of recurring rules: the first one, the next one, the loop that skips
    missed periods, and the schedule they enumerate. */
module NextFireDate {
  import opened Wrappers
  import opened Calendar

  datatype Recurrence = NoRecurrence | Weekly | Monthly | Yearly

  datatype Schedule = Schedule(
    recurrence: Recurrence,
    dayOfMonth: Option<int>,
    dayOfWeek: Option<int>,
    month: Option<int>)

  datatype ValueError = ValueError(reason: string)

  /** The day of a month, held back to its last day; `date` refuses days below 1. */
  function Clamped(y: int, m: int, day: int): Date {
    Date(y, m, if day <= DaysIn(y, m) then day else DaysIn(y, m))
  }

  function MonthAfter(y: int, m: int): (int, int) {
    if m + 1 > 12 then (y + 1, 1) else (y, m + 1)
  }

  /** Days from one weekday to the next given one, none if it is the same. */
  function DaysAhead(weekday: int, dayOfWeek: int): nat {
    (dayOfWeek - weekday) % 7
  }

  function ComputeFirst(start: Date, s: Schedule): Result<Date, ValueError>
    requires ValidDate(start)
  {
    match s.recurrence
    case Weekly =>
      if s.dayOfWeek.None? then Err(ValueError("WEEKLY recurrence requires day_of_week"))
      else Ok(AddDays(start, DaysAhead(Weekday(start), s.dayOfWeek.value)))
    case Monthly =>
      if s.dayOfMonth.None? then Err(ValueError("MONTHLY recurrence requires day_of_month"))
      else if s.dayOfMonth.value < 1 then Err(ValueError("day is out of range for month"))
      else
        var candidate := Clamped(start.year, start.month, s.dayOfMonth.value);
        if Before(candidate, start) then
          var (y, m) := MonthAfter(start.year, start.month);
          Ok(Clamped(y, m, s.dayOfMonth.value))
        else Ok(candidate)
    case Yearly =>
      if s.dayOfMonth.None? then Err(ValueError("YEARLY recurrence requires day_of_month"))
      else if s.month.None? then Err(ValueError("YEARLY recurrence requires month"))
      else if !(1 <= s.month.value <= 12) then Err(ValueError("bad month number"))
      else if s.dayOfMonth.value < 1 then Err(ValueError("day is out of range for month"))
      else
        var candidate := Clamped(start.year, s.month.value, s.dayOfMonth.value);
        if Before(candidate, start) then Ok(Clamped(start.year + 1, s.month.value, s.dayOfMonth.value))
        else Ok(candidate)
    case NoRecurrence => Err(ValueError("Unsupported recurrence for RecurringRule"))
  }

  function Advance(current: Date, s: Schedule): Result<Date, ValueError>
    requires ValidDate(current)
  {
    match s.recurrence
    case Weekly => Ok(AddDays(current, 7))
    case Monthly =>
      if s.dayOfMonth.None? then Err(ValueError("MONTHLY recurrence requires day_of_month"))
      else if s.dayOfMonth.value < 1 then Err(ValueError("day is out of range for month"))
      else
        var (y, m) := MonthAfter(current.year, current.month);
        Ok(Clamped(y, m, s.dayOfMonth.value))
    case Yearly =>
      if s.dayOfMonth.None? then Err(ValueError("YEARLY recurrence requires day_of_month"))
      else if s.month.None? then Err(ValueError("YEARLY recurrence requires month"))
      else if !(1 <= s.month.value <= 12) then Err(ValueError("bad month number"))
      else if s.dayOfMonth.value < 1 then Err(ValueError("day is out of range for month"))
      else Ok(Clamped(current.year + 1, s.month.value, s.dayOfMonth.value))
    case NoRecurrence => Err(ValueError("Unsupported recurrence for RecurringRule"))
  }

  /** Every field the recurrence needs is there and names a real day. */
  predicate Complete(s: Schedule) {
    match s.recurrence
    case Weekly => s.dayOfWeek.Some?
    case Monthly => s.dayOfMonth.Some? && s.dayOfMonth.value >= 1
    case Yearly => s.dayOfMonth.Some? && s.dayOfMonth.value >= 1 && s.month.Some? && 1 <= s.month.value <= 12
    case NoRecurrence => false
  }

  /** The set of dates a schedule means. */
  predicate OnSchedule(d: Date, s: Schedule)
    requires Complete(s)
  {
    ValidDate(d) &&
    match s.recurrence
    case Weekly => Weekday(d) == s.dayOfWeek.value % 7
    case Monthly => d == Clamped(d.year, d.month, s.dayOfMonth.value)
    case Yearly => d == Clamped(d.year, s.month.value, s.dayOfMonth.value)
  }

  /** The schedule in plain numbers: the given weekday, or the given day of every month or of one
      month a year, and the last day of a month that is too short for it. */
  lemma {:induction false} OnScheduleMeans(d: Date, s: Schedule)
    requires ValidDate(d)
    ensures Complete(s) <==>
              || (s.recurrence == Weekly && s.dayOfWeek.Some?)
              || (s.recurrence == Monthly && s.dayOfMonth.Some? && s.dayOfMonth.value >= 1)
              || (s.recurrence == Yearly && s.dayOfMonth.Some? && s.dayOfMonth.value >= 1
                  && s.month.Some? && 1 <= s.month.value <= 12)
    ensures Complete(s) && s.recurrence == Weekly ==>
              (OnSchedule(d, s) <==> (DayNumber(d) - 1 - s.dayOfWeek.value) % 7 == 0)
    ensures Complete(s) && s.recurrence in {Monthly, Yearly} ==>
              (OnSchedule(d, s) <==>
                 && (s.recurrence == Yearly ==> d.month == s.month.value)
                 && (d.day == s.dayOfMonth.value
                     || (d.day < s.dayOfMonth.value && d.day == DaysIn(d.year, d.month))))
  {
    if Complete(s) && s.recurrence == Weekly {
      SameDayOfWeek(DayNumber(d), s.dayOfWeek.value);
    }
  }

  lemma {:induction false} SameDayOfWeek(n: int, dow: int)
    ensures (n + 6) % 7 == dow % 7 <==> (n - 1 - dow) % 7 == 0
  {
    var q := (n + 6) / 7 - dow / 7;
    assert n + 6 - dow == 7 * q + ((n + 6) % 7 - dow % 7);
    assert (n - 1 - dow) == 7 * (q - 1) + ((n + 6) % 7 - dow % 7);
  }

  /** d is the earliest scheduled date that is not before `from`. */
  ghost predicate IsFirstFrom(d: Date, from: Date, s: Schedule)
    requires Complete(s)
  {
    && OnSchedule(d, s) && NotAfter(from, d)
    && forall x :: OnSchedule(x, s) && NotAfter(from, x) ==> NotAfter(d, x)
  }

  /** d is the earliest scheduled date after `current`. */
  ghost predicate IsNextAfter(d: Date, current: Date, s: Schedule)
    requires Complete(s)
  {
    && OnSchedule(d, s) && Before(current, d)
    && forall x :: OnSchedule(x, s) && Before(current, x) ==> NotAfter(d, x)
  }

  // ---------- the first fire date ----------

  /** Of the days from a on, a + DaysAhead is the first with the given weekday. */
  lemma {:induction false} WeeklyGap(a: int, b: int, dow: int)
    requires a <= b && WeekdayOf(b) == dow % 7
    ensures a + DaysAhead(WeekdayOf(a), dow) <= b
  {
    assert ((b - a) - (dow - (a + 6) % 7)) % 7 == 0;
  }

  lemma {:induction false} WeeklyLands(a: int, dow: int)
    ensures WeekdayOf(a + DaysAhead(WeekdayOf(a), dow)) == dow % 7
  {
    var w := (a + 6) % 7;
    var d := (dow - w) % 7;
    assert a + 6 + d - dow == 7 * ((a + 6) / 7 - (dow - w) / 7);
    SameResidue(a + 6 + d, dow, (a + 6) / 7 - (dow - w) / 7);
  }

  lemma {:induction false} SameResidue(x: int, y: int, q: int)
    requires x - y == 7 * q
    ensures x % 7 == y % 7
  {
    assert x == 7 * (y / 7 + q) + y % 7;
  }

  lemma {:induction false} SameWeekday(a: int, b: int)
    ensures WeekdayOf(a + 7) == WeekdayOf(a)
    ensures a < b && WeekdayOf(a) == WeekdayOf(b) ==> a + 7 <= b
  {
  }

  lemma {:induction false} WeeklyNoEarlier(start: Date, s: Schedule, x: Date)
    requires ValidDate(start) && s.recurrence == Weekly && Complete(s)
    requires OnSchedule(x, s) && NotAfter(start, x)
    ensures NotAfter(ComputeFirst(start, s).value, x)
  {
    OrderIsDayOrder(start, x);
    OrderIsDayOrder(ComputeFirst(start, s).value, x);
    WeeklyGap(DayNumber(start), DayNumber(x), s.dayOfWeek.value);
  }

  lemma {:induction false} WeeklyStands(start: Date, s: Schedule)
    requires ValidDate(start) && s.recurrence == Weekly && Complete(s)
    ensures OnSchedule(ComputeFirst(start, s).value, s) && NotAfter(start, ComputeFirst(start, s).value)
  {
    WeeklyLands(DayNumber(start), s.dayOfWeek.value);
    OrderIsDayOrder(start, ComputeFirst(start, s).value);
  }

  lemma {:induction false} WeeklyFirst(start: Date, s: Schedule)
    requires ValidDate(start) && s.recurrence == Weekly && Complete(s)
    ensures IsFirstFrom(ComputeFirst(start, s).value, start, s)
  {
    var d := ComputeFirst(start, s).value;
    WeeklyStands(start, s);
    forall x | OnSchedule(x, s) && NotAfter(start, x) ensures NotAfter(d, x) {
      WeeklyNoEarlier(start, s, x);
    }
  }

  lemma {:induction false} MonthlyFirst(start: Date, s: Schedule)
    requires ValidDate(start) && s.recurrence == Monthly && Complete(s)
    ensures IsFirstFrom(ComputeFirst(start, s).value, start, s)
  {
  }

  lemma {:induction false} YearlyFirst(start: Date, s: Schedule)
    requires ValidDate(start) && s.recurrence == Yearly && Complete(s)
    ensures IsFirstFrom(ComputeFirst(start, s).value, start, s)
  {
  }

  /** The first fire date exists exactly for complete schedules, and is then the
      earliest scheduled date not before the start. */
  lemma {:induction false} FirstIsLeast(start: Date, s: Schedule)
    requires ValidDate(start)
    ensures ComputeFirst(start, s).Ok? <==> Complete(s)
    ensures Complete(s) ==> IsFirstFrom(ComputeFirst(start, s).value, start, s)
  {
    if Complete(s) {
      match s.recurrence
      case Weekly => WeeklyFirst(start, s);
      case Monthly => MonthlyFirst(start, s);
      case Yearly => YearlyFirst(start, s);
    }
  }

  // ---------- the next fire date ----------

  lemma {:induction false} WeeklyNotWithin(current: Date, s: Schedule, x: Date)
    requires s.recurrence == Weekly && Complete(s) && OnSchedule(current, s)
    requires OnSchedule(x, s) && Before(current, x)
    ensures NotAfter(AddDays(current, 7), x)
  {
    OrderIsDayOrder(current, x);
    OrderIsDayOrder(AddDays(current, 7), x);
    SameWeekday(DayNumber(current), DayNumber(x));
  }

  lemma {:induction false} WeeklyNext(current: Date, s: Schedule)
    requires s.recurrence == Weekly && Complete(s) && OnSchedule(current, s)
    ensures IsNextAfter(Advance(current, s).value, current, s)
  {
    OrderIsDayOrder(current, AddDays(current, 7));
    SameWeekday(DayNumber(current), DayNumber(current));
    forall x | OnSchedule(x, s) && Before(current, x) ensures NotAfter(AddDays(current, 7), x) {
      WeeklyNotWithin(current, s, x);
    }
  }

  lemma {:induction false} MonthlyNext(current: Date, s: Schedule)
    requires s.recurrence == Monthly && Complete(s) && OnSchedule(current, s)
    ensures IsNextAfter(Advance(current, s).value, current, s)
  {
  }

  lemma {:induction false} YearlyNext(current: Date, s: Schedule)
    requires s.recurrence == Yearly && Complete(s) && OnSchedule(current, s)
    ensures IsNextAfter(Advance(current, s).value, current, s)
  {
  }

  /** From a scheduled date, advancing lands on the very next scheduled date. */
  lemma {:induction false} AdvanceIsNext(current: Date, s: Schedule)
    requires Complete(s) && OnSchedule(current, s)
    ensures Advance(current, s).Ok? && IsNextAfter(Advance(current, s).value, current, s)
  {
    match s.recurrence
    case Weekly => WeeklyNext(current, s);
    case Monthly => MonthlyNext(current, s);
    case Yearly => YearlyNext(current, s);
  }

  lemma {:induction false} LeastIsUnique(a: Date, b: Date, from: Date, s: Schedule)
    requires Complete(s) && IsFirstFrom(a, from, s) && IsFirstFrom(b, from, s)
    ensures a == b
  {
    OrderIsDayOrder(a, b);
    OrderIsDayOrder(b, a);
  }

  /** "After a date" and "from the next day on" are the same. */
  lemma {:induction false} AfterIsFromNextDay(a: Date, x: Date)
    requires ValidDate(a) && ValidDate(x)
    ensures Before(a, x) <==> NotAfter(AddDays(a, 1), x)
  {
    OrderIsDayOrder(a, x);
    OrderIsDayOrder(AddDays(a, 1), x);
  }

  lemma {:induction false} NextIsFirstFromTomorrow(d: Date, current: Date, s: Schedule)
    requires Complete(s) && ValidDate(current)
    ensures IsNextAfter(d, current, s) <==> IsFirstFrom(d, AddDays(current, 1), s)
  {
    forall x | ValidDate(x) ensures Before(current, x) <==> NotAfter(AddDays(current, 1), x) {
      AfterIsFromNextDay(current, x);
    }
  }

  /** The date the schedule gives current's own period: its month, its year, or itself. */
  predicate PastOwnPeriod(current: Date, s: Schedule)
    requires Complete(s)
  {
    match s.recurrence
    case Weekly => Weekday(current) == s.dayOfWeek.value % 7
    case Monthly => NotAfter(Clamped(current.year, current.month, s.dayOfMonth.value), current)
    case Yearly => NotAfter(Clamped(current.year, s.month.value, s.dayOfMonth.value), current)
  }

  lemma {:induction false} WeeklyNextIff(current: Date, s: Schedule)
    requires ValidDate(current) && Complete(s) && s.recurrence == Weekly
    ensures IsNextAfter(Advance(current, s).value, current, s) <==> PastOwnPeriod(current, s)
  {
    if PastOwnPeriod(current, s) {
      WeeklyNext(current, s);
    } else {
      SameWeekday(DayNumber(current), DayNumber(current));
      assert !OnSchedule(AddDays(current, 7), s);
    }
  }

  lemma {:induction false} MonthlyNextIff(current: Date, s: Schedule)
    requires ValidDate(current) && Complete(s) && s.recurrence == Monthly
    ensures IsNextAfter(Advance(current, s).value, current, s) <==> PastOwnPeriod(current, s)
  {
    var own := Clamped(current.year, current.month, s.dayOfMonth.value);
    assert OnSchedule(own, s);
  }

  lemma {:induction false} YearlyNextIff(current: Date, s: Schedule)
    requires ValidDate(current) && Complete(s) && s.recurrence == Yearly
    ensures IsNextAfter(Advance(current, s).value, current, s) <==> PastOwnPeriod(current, s)
  {
    var own := Clamped(current.year, s.month.value, s.dayOfMonth.value);
    assert OnSchedule(own, s);
  }

  /** From any date, scheduled or not: advancing gives the next scheduled date exactly
      when the date's own period has already had its turn. */
  lemma {:induction false} AdvanceIsNextIff(current: Date, s: Schedule)
    requires ValidDate(current) && Complete(s)
    ensures Advance(current, s).Ok?
    ensures IsNextAfter(Advance(current, s).value, current, s) <==> PastOwnPeriod(current, s)
  {
    match s.recurrence
    case Weekly => WeeklyNextIff(current, s);
    case Monthly => MonthlyNextIff(current, s);
    case Yearly => YearlyNextIff(current, s);
  }

  /** Advancing from a scheduled date is starting afresh the day after. */
  lemma {:induction false} AdvanceIsFirstFromTomorrow(current: Date, s: Schedule)
    requires Complete(s) && OnSchedule(current, s)
    ensures Advance(current, s) == ComputeFirst(AddDays(current, 1), s)
  {
    AdvanceIsNext(current, s);
    FirstIsLeast(AddDays(current, 1), s);
    NextIsFirstFromTomorrow(Advance(current, s).value, current, s);
    LeastIsUnique(Advance(current, s).value, ComputeFirst(AddDays(current, 1), s).value, AddDays(current, 1), s);
  }

  // ---------- the schedule is enumerated ----------

  /** The n-th date reached from `first` by advancing. */
  function Nth(first: Date, s: Schedule, n: nat): (d: Date)
    requires Complete(s) && OnSchedule(first, s)
    ensures OnSchedule(d, s)
    decreases n
  {
    if n == 0 then first
    else
      AdvanceIsNext(first, s);
      Nth(Advance(first, s).value, s, n - 1)
  }

  lemma {:induction false} NthStep(first: Date, s: Schedule, n: nat)
    requires Complete(s) && OnSchedule(first, s)
    ensures Nth(first, s, n + 1) == Advance(Nth(first, s, n), s).value
    ensures IsNextAfter(Nth(first, s, n + 1), Nth(first, s, n), s)
    decreases n
  {
    AdvanceIsNext(first, s);
    if n > 0 {
      NthStep(Advance(first, s).value, s, n - 1);
    }
  }

  /** No gap and no drift: the dates reached by advancing are exactly the scheduled
      dates from the first one on, each followed by its immediate successor. */
  lemma {:induction false} AdvancingEnumerates(first: Date, s: Schedule, d: Date)
    requires Complete(s) && OnSchedule(first, s)
    ensures OnSchedule(d, s) && NotAfter(first, d) <==> exists n: nat :: Nth(first, s, n) == d
  {
    if OnSchedule(d, s) && NotAfter(first, d) {
      var n := IndexOf(first, s, d);
    }
    if n: nat :| Nth(first, s, n) == d {
      NthNotBefore(first, s, n);
    }
  }

  lemma {:induction false} NthNotBefore(first: Date, s: Schedule, n: nat)
    requires Complete(s) && OnSchedule(first, s)
    ensures NotAfter(first, Nth(first, s, n))
    decreases n
  {
    if n > 0 {
      NthNotBefore(first, s, n - 1);
      NthStep(first, s, n - 1);
    }
  }

  lemma {:induction false} IndexOf(first: Date, s: Schedule, d: Date) returns (n: nat)
    requires Complete(s) && OnSchedule(first, s) && OnSchedule(d, s) && NotAfter(first, d)
    ensures Nth(first, s, n) == d
    decreases DayNumber(d) - DayNumber(first)
  {
    if first == d {
      n := 0;
    } else {
      AdvanceIsNext(first, s);
      var next := Advance(first, s).value;
      OrderIsDayOrder(first, d);
      OrderIsDayOrder(first, next);
      OrderIsDayOrder(next, d);
      var m := IndexOf(next, s, d);
      n := m + 1;
    }
  }

  // ---------- skipping missed periods ----------

  /** Advancing always moves forward, on schedule or off it. */
  lemma {:induction false} AdvanceMovesOn(current: Date, s: Schedule)
    requires ValidDate(current) && Complete(s)
    ensures Advance(current, s).Ok? && ValidDate(Advance(current, s).value)
    ensures DayNumber(current) < DayNumber(Advance(current, s).value)
  {
    OrderIsDayOrder(current, Advance(current, s).value);
  }

  function SkipPast(d: Date, s: Schedule, today: Date): (r: Date)
    requires ValidDate(d) && ValidDate(today) && Complete(s)
    ensures ValidDate(r)
    decreases DayNumber(today) - DayNumber(d) + 1
  {
    if NotAfter(d, today) then
      AdvanceMovesOn(d, s);
      OrderIsDayOrder(d, today);
      SkipPast(Advance(d, s).value, s, today)
    else d
  }

  /** From a scheduled date not after the first one from tomorrow, skipping ends exactly there. */
  lemma {:induction false} SkipPastIsFirstFromTomorrow(d: Date, s: Schedule, today: Date, goal: Date)
    requires Complete(s) && OnSchedule(d, s) && ValidDate(today)
    requires IsFirstFrom(goal, AddDays(today, 1), s) && NotAfter(d, goal)
    ensures SkipPast(d, s, today) == goal
    decreases DayNumber(today) - DayNumber(d) + 1
  {
    if NotAfter(d, today) {
      AdvanceIsNext(d, s);
      AdvanceMovesOn(d, s);
      OrderIsDayOrder(d, today);
      AfterIsFromNextDay(today, goal);
      assert Before(d, goal);
      SkipPastIsFirstFromTomorrow(Advance(d, s).value, s, today, goal);
    } else {
      NotAfterOrBefore(d, today);
      AfterIsFromNextDay(today, d);
      NotAfterOrBefore(goal, d);
    }
  }

  lemma {:induction false} NotAfterOrBefore(a: Date, b: Date)
    ensures NotAfter(a, b) || Before(b, a)
    ensures NotAfter(a, b) && NotAfter(b, a) ==> a == b
  {
  }

  /** The catch-up of a fired rule: one advance, then as many as it takes to pass today. */
  method CatchUp(next: Date, s: Schedule, today: Date) returns (r: Date)
    requires ValidDate(next) && ValidDate(today) && Complete(s)
    ensures r == SkipPast(Advance(next, s).value, s, today)
    ensures ValidDate(r) && Before(today, r)
    ensures OnSchedule(next, s) && NotAfter(next, today) ==> Ok(r) == ComputeFirst(AddDays(today, 1), s)
  {
    AdvanceMovesOn(next, s);
    r := Advance(next, s).value;
    while NotAfter(r, today)
      invariant ValidDate(r) && SkipPast(r, s, today) == SkipPast(Advance(next, s).value, s, today)
      decreases DayNumber(today) - DayNumber(r) + 1
    {
      AdvanceMovesOn(r, s);
      OrderIsDayOrder(r, today);
      r := Advance(r, s).value;
    }
    NotAfterOrBefore(r, today);
    if OnSchedule(next, s) && NotAfter(next, today) {
      CatchUpIsFirstFromTomorrow(next, s, today);
    }
  }

  /** However many periods were missed, the new date is the first scheduled one after today. */
  lemma {:induction false} CatchUpIsFirstFromTomorrow(next: Date, s: Schedule, today: Date)
    requires Complete(s) && OnSchedule(next, s) && ValidDate(today) && NotAfter(next, today)
    ensures Advance(next, s).Ok? && ValidDate(Advance(next, s).value)
    ensures Ok(SkipPast(Advance(next, s).value, s, today)) == ComputeFirst(AddDays(today, 1), s)
  {
    FirstIsLeast(AddDays(today, 1), s);
    var goal := ComputeFirst(AddDays(today, 1), s).value;
    AdvanceIsNext(next, s);
    AfterIsFromNextDay(today, goal);
    assert Before(next, goal);
    SkipPastIsFirstFromTomorrow(Advance(next, s).value, s, today, goal);
  }
}
