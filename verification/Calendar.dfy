/** Days, months and years of section 21.4.1 of ECMA-262, counted in days since 1 January 1970, in UTC. */
module Calendar {

  predicate Leap(year: int) {
    (year % 4 == 0 && year % 100 != 0) || year % 400 == 0
  }

  /** The day number of 1 January. */
  function DayFromYear(year: int): int {
    365 * (year - 1970) + (year - 1969) / 4 - (year - 1901) / 100 + (year - 1601) / 400
  }

  function DaysInYear(year: int): (n: nat)
    ensures n == 365 || n == 366
  {
    if Leap(year) then 366 else 365
  }

  lemma FourthYears(year: int)
    ensures (year - 1968) / 4 == (year - 1969) / 4 + if year % 4 == 0 then 1 else 0
  {
  }

  lemma HundredthYears(year: int)
    ensures (year - 1900) / 100 == (year - 1901) / 100 + if year % 100 == 0 then 1 else 0
  {
  }

  lemma FourHundredthYears(year: int)
    ensures (year - 1600) / 400 == (year - 1601) / 400 + if year % 400 == 0 then 1 else 0
  {
  }

  /** Leap days, counted by three quotients, are the leap years' own. */
  lemma LeapDays(by4: int, by100: int, by400: int, year: int)
    requires by4 == (if year % 4 == 0 then 1 else 0) && by100 == (if year % 100 == 0 then 1 else 0)
    requires by400 == if year % 400 == 0 then 1 else 0
    ensures by4 - by100 + by400 == if Leap(year) then 1 else 0
  {
  }

  lemma YearsAddUp(year: int)
    ensures DayFromYear(year + 1) == DayFromYear(year) + DaysInYear(year)
  {
    FourthYears(year);
    HundredthYears(year);
    FourHundredthYears(year);
    hide Leap;
    var by4, by100, by400 := (year - 1968) / 4 - (year - 1969) / 4, (year - 1900) / 100 - (year - 1901) / 100,
                             (year - 1600) / 400 - (year - 1601) / 400;
    LeapDays(by4, by100, by400, year);
  }

  /** The days of the year before a month, which counts from zero; month 12 stands for the end of the year. */
  function DaysBefore(month: nat, leap: bool): (n: nat)
    requires month <= 12
  {
    (match month
     case 0 => 0 case 1 => 31 case 2 => 59 case 3 => 90 case 4 => 120 case 5 => 151 case 6 => 181
     case 7 => 212 case 8 => 243 case 9 => 273 case 10 => 304 case 11 => 334 case _ => 365)
    + if leap && month >= 2 then 1 else 0
  }

  function DaysInMonth(year: int, month: nat): (n: nat)
    requires month < 12
    ensures 28 <= n <= 31
    ensures n == 28 <==> month == 1 && !Leap(year)
    ensures DaysBefore(month + 1, Leap(year)) == DaysBefore(month, Leap(year)) + n
  {
    DaysBefore(month + 1, Leap(year)) - DaysBefore(month, Leap(year))
  }

  /** Thirty days hath September. */
  lemma MonthLengths(year: int, month: nat)
    requires month < 12
    ensures DaysInMonth(year, month) ==
      if month == 1 then (if Leap(year) then 29 else 28) else if month in {3, 5, 8, 10} then 30 else 31
    ensures DaysBefore(0, Leap(year)) == 0 && DaysBefore(12, Leap(year)) == DaysInYear(year)
  {
    hide Leap;
  }

  /** Every fourth year is a leap year, but of the years that end a century only every fourth. */
  lemma LeapYears(year: int)
    ensures Leap(year) <==> year % 4 == 0 && (year % 100 == 0 ==> year % 400 == 0)
  {
  }

  function MonthStart(year: int, month: nat): int
    requires month < 12
  {
    DayFromYear(year) + DaysBefore(month, Leap(year))
  }

  /** MakeDay: a month or date out of range carries over. */
  function MakeDay(year: int, month: int, date: int): int {
    MonthStart(year + month / 12, month % 12) + date - 1
  }

  // ---------- Reading a day number ----------

  lemma YearsIncrease(year: int)
    ensures DayFromYear(year) < DayFromYear(year + 1)
  {
    YearsAddUp(year);
  }

  function YearUp(day: int, guess: int): (year: int)
    requires DayFromYear(guess) <= day
    ensures DayFromYear(year) <= day < DayFromYear(year + 1)
    decreases day - DayFromYear(guess)
  {
    YearsIncrease(guess);
    if day < DayFromYear(guess + 1) then guess else YearUp(day, guess + 1)
  }

  function YearDown(day: int, guess: int): (year: int)
    requires day < DayFromYear(guess + 1)
    ensures DayFromYear(year) <= day < DayFromYear(year + 1)
    decreases DayFromYear(guess + 1) - day
  {
    YearsIncrease(guess);
    if DayFromYear(guess) <= day then guess else YearDown(day, guess - 1)
  }

  /** The year a day number lies in. */
  function YearOf(day: int): (year: int)
    ensures DayFromYear(year) <= day < DayFromYear(year + 1)
  {
    if DayFromYear(1970) <= day then YearUp(day, 1970) else YearDown(day, 1969)
  }

  lemma {:induction false} YearsGrow(a: int, b: int)
    requires a < b
    ensures DayFromYear(a + 1) <= DayFromYear(b)
    decreases b - a
  {
    if a + 1 < b {
      YearsGrow(a, b - 1);
      YearsAddUp(b - 1);
    }
  }

  /** The last month that starts no later than the given day of the year. */
  function MonthFrom(dayInYear: nat, leap: bool, month: nat): (m: nat)
    requires month < 12 && DaysBefore(month, leap) <= dayInYear < DaysBefore(12, leap)
    ensures m < 12 && DaysBefore(m, leap) <= dayInYear < DaysBefore(m + 1, leap)
    decreases 12 - month
  {
    if dayInYear < DaysBefore(month + 1, leap) then month else MonthFrom(dayInYear, leap, month + 1)
  }

  datatype Civil = Civil(year: int, month: nat, date: nat)

  predicate ValidDate(c: Civil) {
    c.month < 12 && 1 <= c.date <= DaysInMonth(c.year, c.month)
  }

  function DayOf(c: Civil): int
    requires c.month < 12
  {
    MonthStart(c.year, c.month) + c.date - 1
  }

  function DateIn(year: int, dayInYear: nat): (c: Civil)
    requires dayInYear < DaysInYear(year)
    ensures ValidDate(c) && c.year == year && DaysBefore(c.month, Leap(year)) + c.date - 1 == dayInYear
  {
    var month := MonthFrom(dayInYear, Leap(year), 0);
    Civil(year, month, dayInYear - DaysBefore(month, Leap(year)) + 1)
  }

  function CivilOf(day: int): (c: Civil)
    ensures ValidDate(c) && DayOf(c) == day
  {
    var year := YearOf(day);
    YearsAddUp(year);
    DateIn(year, day - DayFromYear(year))
  }

  lemma MonthsGrow(a: nat, b: nat, leap: bool)
    requires a < b <= 12
    ensures DaysBefore(a + 1, leap) <= DaysBefore(b, leap)
  {
  }

  /** A day number lies in one year only. */
  lemma YearIsUnique(a: int, b: int, day: int)
    requires DayFromYear(a) <= day < DayFromYear(a + 1) && DayFromYear(b) <= day < DayFromYear(b + 1)
    ensures a == b
  {
    hide DayFromYear;
    if a < b { YearsGrow(a, b); }
    if b < a { YearsGrow(b, a); }
  }

  lemma MonthIsUnique(a: nat, b: nat, dayInYear: int, leap: bool)
    requires a < 12 && DaysBefore(a, leap) <= dayInYear < DaysBefore(a + 1, leap)
    requires b < 12 && DaysBefore(b, leap) <= dayInYear < DaysBefore(b + 1, leap)
    ensures a == b
  {
    hide DaysBefore;
    if a < b { MonthsGrow(a, b, leap); }
    if b < a { MonthsGrow(b, a, leap); }
  }

  /** Where a date's day lies in its year and month. */
  lemma DateLies(c: Civil)
    requires ValidDate(c)
    ensures var dayInYear := DayOf(c) - DayFromYear(c.year);
      DaysBefore(c.month, Leap(c.year)) <= dayInYear < DaysBefore(c.month + 1, Leap(c.year))
      && c.date == dayInYear - DaysBefore(c.month, Leap(c.year)) + 1
  {
    hide DayFromYear, DaysBefore;
  }

  lemma DatesOfYearAreUnique(a: Civil, b: Civil)
    requires ValidDate(a) && ValidDate(b) && DayOf(a) == DayOf(b) && a.year == b.year
    ensures a == b
  {
    DateLies(a);
    DateLies(b);
    MonthIsUnique(a.month, b.month, DayOf(a) - DayFromYear(a.year), Leap(a.year));
  }

  /** A day number belongs to one date only. */
  lemma DatesAreUnique(a: Civil, b: Civil)
    requires ValidDate(a) && ValidDate(b) && DayOf(a) == DayOf(b)
    ensures a == b
  {
    hide DayFromYear, DaysInMonth, DaysBefore, Leap, ValidDate, MonthStart, DayOf;
    ValidMonthOf(a);
    DayIsInYear(a);
    DayIsInYear(b);
    YearIsUnique(a.year, b.year, DayOf(a));
    DatesOfYearAreUnique(a, b);
  }

  /** The date after, by the lengths of months and years. */
  function Tomorrow(c: Civil): Civil
    requires ValidDate(c)
  {
    if c.date < DaysInMonth(c.year, c.month) then c.(date := c.date + 1)
    else if c.month < 11 then Civil(c.year, c.month + 1, 1)
    else Civil(c.year + 1, 0, 1)
  }

  lemma TomorrowIsValid(c: Civil)
    requires ValidDate(c)
    ensures ValidDate(Tomorrow(c))
  {
    hide DaysBefore, Leap;
  }

  lemma TomorrowIsNext(c: Civil)
    requires ValidDate(c) && Tomorrow(c).month < 12
    ensures DayOf(Tomorrow(c)) == DayOf(c) + 1
  {
    YearsAddUp(c.year);
    MonthLengths(c.year, c.month);
    assert DaysBefore(0, Leap(c.year + 1)) == 0;
    assert c.month == 11 ==> DaysBefore(12, Leap(c.year)) == DaysInYear(c.year);
    hide Leap, DayFromYear, DaysBefore;
  }

  lemma SameDate(a: Civil, b: Civil, day: int)
    requires ValidDate(a) && ValidDate(b) && DayOf(a) == day && DayOf(b) == day
    ensures a == b
  {
    hide ValidDate, DayOf;
    DatesAreUnique(a, b);
  }

  lemma TomorrowHasDay(c: Civil, day: int)
    requires ValidDate(c) && DayOf(c) == day
    ensures ValidDate(Tomorrow(c)) && DayOf(Tomorrow(c)) == day + 1
  {
    TomorrowIsValid(c);
    hide DayOf, Tomorrow, DaysInMonth;
    ValidMonthOf(Tomorrow(c));
    TomorrowIsNext(c);
  }

  /** Days are counted one by one from 1 January 1970. */
  lemma CountedFromTheEpoch(day: int)
    ensures CivilOf(0) == Civil(1970, 0, 1)
    ensures CivilOf(day + 1) == Tomorrow(CivilOf(day))
  {
    hide CivilOf, DayOf, Tomorrow, DaysInMonth;
    EpochDay();
    SameDate(CivilOf(0), Civil(1970, 0, 1), 0);
    TomorrowHasDay(CivilOf(day), day);
    SameDate(CivilOf(day + 1), Tomorrow(CivilOf(day)), day + 1);
  }

  lemma ValidMonthOf(c: Civil)
    requires ValidDate(c)
    ensures c.month < 12
  {
  }

  lemma EpochDay()
    ensures ValidDate(Civil(1970, 0, 1)) && DayOf(Civil(1970, 0, 1)) == 0
  {
    assert DayFromYear(1970) == 0;
  }

  lemma DayIsInYear(c: Civil)
    requires ValidDate(c)
    ensures DayFromYear(c.year) <= DayOf(c) < DayFromYear(c.year + 1)
  {
    YearsAddUp(c.year);
    if c.month + 1 < 12 { MonthsGrow(c.month + 1, 12, Leap(c.year)); }
  }
}
