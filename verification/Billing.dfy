/** Subscription billing: how the next billing date is computed, and what the hourly runs charge. */
module Billing {
  import opened Calendar

  datatype Interval = DAY | WEEK | MONTH | YEAR

  /** A time value as Day(t) and TimeWithinDay(t). */
  datatype Instant = Instant(day: int, time: nat)

  predicate AtMost(a: Instant, b: Instant) {
    a.day < b.day || (a.day == b.day && a.time <= b.time)
  }

  /** The day after one interval; setDate, setMonth and setFullYear all go through MakeDay. */
  function NextDay(c: Civil, interval: Interval): int {
    match interval
    case DAY => MakeDay(c.year, c.month, c.date + 1)
    case WEEK => MakeDay(c.year, c.month, c.date + 7)
    case MONTH => MakeDay(c.year, c.month + 1, c.date)
    case YEAR => MakeDay(c.year + 1, c.month, c.date)
  }

  /** The time of day is kept. */
  function ComputeNextBillingDate(current: Instant, interval: Interval): Instant {
    Instant(NextDay(CivilOf(current.day), interval), current.time)
  }

  // ---------- One step ----------

  lemma MakeDayDate(year: int, month: int, date: int)
    ensures MakeDay(year, month, date) == MakeDay(year, month, 1) + date - 1
  {
    hide MonthStart;
  }

  lemma MakeDayInYear(year: int, month: nat)
    requires month < 12
    ensures MakeDay(year, month, 1) == MonthStart(year, month)
  {
    hide MonthStart;
    assert month / 12 == 0 && month % 12 == month;
  }

  lemma DayOfMonth(c: Civil)
    requires c.month < 12
    ensures DayOf(c) == MonthStart(c.year, c.month) + c.date - 1
  {
    hide MonthStart;
  }

  lemma DayStep(c: Civil)
    requires ValidDate(c)
    ensures NextDay(c, DAY) == DayOf(c) + 1 && NextDay(c, WEEK) == DayOf(c) + 7
  {
    MakeDayDate(c.year, c.month, c.date + 1);
    MakeDayDate(c.year, c.month, c.date + 7);
    MakeDayInYear(c.year, c.month);
    DayOfMonth(c);
    hide MonthStart, MakeDay, DayOf;
  }

  function NextMonth(c: Civil): Civil {
    if c.month == 11 then Civil(c.year + 1, 0, c.date) else Civil(c.year, c.month + 1, c.date)
  }

  lemma NextMonthDay(c: Civil)
    requires c.month < 12
    ensures NextMonth(c).month < 12 && DayOf(NextMonth(c)) == NextDay(c, MONTH)
  {
    var n := NextMonth(c);
    hide MonthStart;
    if c.month == 11 {
      assert (c.month + 1) / 12 == 1 && (c.month + 1) % 12 == 0;
    } else {
      assert (c.month + 1) / 12 == 0 && (c.month + 1) % 12 == c.month + 1;
    }
  }

  lemma NextMonthStarts(c: Civil)
    requires c.month < 12
    ensures var n := NextMonth(c);
      n.month < 12 && MonthStart(n.year, n.month) == MonthStart(c.year, c.month) + DaysInMonth(c.year, c.month)
  {
    YearsAddUp(c.year);
    hide DayFromYear, Leap;
  }

  /** A MONTH step adds exactly the length of the current month, even when the date does not exist in the next one. */
  lemma MonthStep(c: Civil)
    requires ValidDate(c)
    ensures NextDay(c, MONTH) == DayOf(c) + DaysInMonth(c.year, c.month)
  {
    NextMonthDay(c);
    NextMonthStarts(c);
    DayOfMonth(c);
    DayOfMonth(NextMonth(c));
    hide MonthStart, NextDay, DayOf, DaysInMonth;
  }

  lemma BothYears(month: nat, now: bool, next: bool)
    requires month < 12
    ensures DaysBefore(month, next) - DaysBefore(month, now)
         == (if next && month >= 2 then 1 else 0) - (if now && month >= 2 then 1 else 0)
  {
  }

  lemma YearApart(year: int, month: nat)
    requires month < 12
    ensures MonthStart(year + 1, month) - MonthStart(year, month)
         == if Leap(if month >= 2 then year + 1 else year) then 366 else 365
  {
    YearsAddUp(year);
    BothYears(month, Leap(year), Leap(year + 1));
    hide DayFromYear, DaysBefore, Leap;
  }

  lemma NextYearDay(c: Civil)
    requires c.month < 12
    ensures NextDay(c, YEAR) == MonthStart(c.year + 1, c.month) + c.date - 1
  {
    MakeDayDate(c.year + 1, c.month, c.date);
    MakeDayInYear(c.year + 1, c.month);
    hide MonthStart, MakeDay;
  }

  /** A YEAR step adds 366 days exactly when a 29 February lies between, otherwise 365. */
  lemma YearStep(c: Civil)
    requires ValidDate(c)
    ensures NextDay(c, YEAR) == DayOf(c) + if Leap(if c.month >= 2 then c.year + 1 else c.year) then 366 else 365
  {
    YearApart(c.year, c.month);
    NextYearDay(c);
    DayOfMonth(c);
    hide MonthStart, NextDay, DayOf, Leap;
  }

  /** Every step moves forward, by a day at least and a leap year at most. */
  lemma StepsForward(current: Instant, interval: Interval)
    ensures var next := ComputeNextBillingDate(current, interval);
      1 <= next.day - current.day <= 366 && next.time == current.time
  {
    var c := CivilOf(current.day);
    DayStep(c);
    MonthStep(c);
    YearStep(c);
    hide NextDay, CivilOf, DayOf, DaysInMonth, Leap;
  }

  // ---------- Many steps ----------

  /** The k-th billing date, counted from zero. */
  function Nth(start: Instant, interval: Interval, k: nat): Instant {
    if k == 0 then start else ComputeNextBillingDate(Nth(start, interval, k - 1), interval)
  }

  lemma {:induction false} BillingDatesIncrease(start: Instant, interval: Interval, j: nat, k: nat)
    requires j < k
    ensures Nth(start, interval, j).day < Nth(start, interval, k).day
    ensures Nth(start, interval, j).time == Nth(start, interval, k).time
    decreases k
  {
    hide ComputeNextBillingDate;
    StepsForward(Nth(start, interval, k - 1), interval);
    if j < k - 1 {
      BillingDatesIncrease(start, interval, j, k - 1);
    }
  }

  function MonthIndex(c: Civil): int {
    12 * c.year + c.month
  }

  /** A MONTH step from a date that the next month has leads to the same date there. */
  lemma MonthStepKeepsDate(c: Civil)
    requires ValidDate(c) && ValidDate(NextMonth(c))
    ensures CivilOf(NextDay(c, MONTH)) == NextMonth(c)
  {
    NextMonthDay(c);
    hide CivilOf, DayOf, NextDay, NextMonth, DaysInMonth;
    DatesAreUnique(CivilOf(NextDay(c, MONTH)), NextMonth(c));
  }

  /** Where a date that the next month does not have leads: that many days into the month after. */
  function Overflowed(c: Civil): Civil
    requires ValidDate(c) && !ValidDate(NextMonth(c))
  {
    var m := NextMonth(c);
    NextMonth(m).(date := c.date - DaysInMonth(m.year, m.month))
  }

  lemma OverflowedDate(c: Civil)
    requires ValidDate(c) && !ValidDate(NextMonth(c))
    ensures var n := Overflowed(c); ValidDate(n) && n.date <= 3 && n.date < c.date && MonthIndex(n) == MonthIndex(c) + 2
  {
    hide Leap, DaysBefore;
  }

  lemma OverflowedDay(c: Civil)
    requires ValidDate(c) && !ValidDate(NextMonth(c))
    ensures Overflowed(c).month < 12 && DayOf(Overflowed(c)) == NextDay(c, MONTH)
  {
    var m := NextMonth(c);
    NextMonthDay(c);
    NextMonthStarts(m);
    DayOfMonth(m);
    DayOfMonth(Overflowed(c));
    hide MonthStart, DayOf, DaysInMonth, NextDay;
  }

  lemma MonthStepOverflows(c: Civil)
    requires ValidDate(c) && !ValidDate(NextMonth(c))
    ensures CivilOf(NextDay(c, MONTH)) == Overflowed(c)
  {
    OverflowedDate(c);
    OverflowedDay(c);
    hide CivilOf, DayOf, NextDay, NextMonth, DaysInMonth, Overflowed;
    DatesAreUnique(CivilOf(NextDay(c, MONTH)), Overflowed(c));
  }

  /** One monthly billing, in terms of dates. */
  function MonthLater(c: Civil): Civil
    requires ValidDate(c)
  {
    if ValidDate(NextMonth(c)) then NextMonth(c) else Overflowed(c)
  }

  lemma BilledMonthLater(start: Instant, k: nat)
    requires k > 0
    ensures CivilOf(Nth(start, MONTH, k).day) == MonthLater(CivilOf(Nth(start, MONTH, k - 1).day))
  {
    var c := CivilOf(Nth(start, MONTH, k - 1).day);
    hide CivilOf, NextDay, NextMonth, Overflowed, DayOf;
    if ValidDate(NextMonth(c)) {
      MonthStepKeepsDate(c);
    } else {
      MonthStepOverflows(c);
    }
  }

  lemma MonthLaterKeeps(c: Civil)
    requires ValidDate(c)
    ensures c.date <= 28 ==> MonthLater(c).date == c.date
    ensures MonthLater(c).date == c.date ==> MonthIndex(MonthLater(c)) == MonthIndex(c) + 1
  {
    hide Leap, DaysBefore;
    if !ValidDate(NextMonth(c)) { OverflowedDate(c); }
  }

  /** Up to the 28th, a monthly subscription is billed on its day of the month for ever, month by month. */
  lemma {:induction false} EarlyDatesAreKept(start: Instant, k: nat)
    requires CivilOf(start.day).date <= 28
    ensures var c := CivilOf(Nth(start, MONTH, k).day);
      c.date == CivilOf(start.day).date && MonthIndex(c) == MonthIndex(CivilOf(start.day)) + k
  {
    if k > 0 {
      EarlyDatesAreKept(start, k - 1);
      BilledMonthLater(start, k);
      MonthLaterKeeps(CivilOf(Nth(start, MONTH, k - 1).day));
      hide CivilOf, MonthLater, Nth, MonthIndex, ValidDate;
    }
  }

  ghost predicate DateKept(start: Instant, k: nat) {
    CivilOf(Nth(start, MONTH, k).day).date == CivilOf(start.day).date
  }

  /** If the date were kept for ever, the months would follow one another. */
  lemma {:induction false} KeptDatesFollow(start: Instant, k: nat)
    requires forall j: nat :: DateKept(start, j)
    ensures MonthIndex(CivilOf(Nth(start, MONTH, k).day)) == MonthIndex(CivilOf(start.day)) + k
  {
    if k > 0 {
      KeptDatesFollow(start, k - 1);
      BilledMonthLater(start, k);
      assert DateKept(start, k) && DateKept(start, k - 1);
      MonthLaterKeeps(CivilOf(Nth(start, MONTH, k - 1).day));
      hide CivilOf, MonthLater, Nth, MonthIndex, ValidDate;
    }
  }

  lemma ShortFebruary(c: Civil, year: int)
    requires ValidDate(c) && MonthIndex(c) == 12 * year + 1 && !Leap(year)
    ensures c.date <= 28
  {
    assert c.year == year && c.month == 1;
    hide Leap, DaysBefore;
  }

  /** From any start a February of 28 days comes. */
  lemma NextShortFebruary(c: Civil) returns (year: int, k: nat)
    requires c.month < 12
    ensures !Leap(year) && MonthIndex(c) + k == 12 * year + 1
  {
    year := if Leap(c.year + 1) then c.year + 2 else c.year + 1;
    k := 12 * (year - c.year) + 1 - c.month;
  }

  /** Exactly the dates up to the 28th are kept by every monthly billing. */
  lemma DateKeptIffEarly(start: Instant)
    ensures (forall k: nat :: DateKept(start, k)) <==> CivilOf(start.day).date <= 28
  {
    hide CivilOf, Nth, MonthIndex, ValidDate;
    if CivilOf(start.day).date <= 28 {
      forall k: nat
        ensures DateKept(start, k)
      {
        EarlyDatesAreKept(start, k);
      }
    } else if forall k: nat :: DateKept(start, k) {
      ValidMonth(CivilOf(start.day));
      var year, k := NextShortFebruary(CivilOf(start.day));
      KeptDatesFollow(start, k);
      assert DateKept(start, k);
      ShortFebruary(CivilOf(Nth(start, MONTH, k).day), year);
    }
  }

  lemma ValidMonth(c: Civil)
    requires ValidDate(c)
    ensures c.month < 12
  {
  }
}
