/** UTC calendar arithmetic as JavaScript dates do it (section 21.4.1 of ECMA-262), on day numbers. */
module Calendar {

  function DayFromYear(y: int): int {
    365 * (y - 1970) + (y - 1969) / 4 - (y - 1901) / 100 + (y - 1601) / 400
  }

  predicate IsLeap(y: int) {
    y % 4 == 0 && (y % 100 != 0 || y % 400 == 0)
  }

  lemma FourthYear(y: int)
    ensures (y - 1968) / 4 - (y - 1969) / 4 == if y % 4 == 0 then 1 else 0
  {
  }

  lemma HundredthYear(y: int)
    ensures (y - 1900) / 100 - (y - 1901) / 100 == if y % 100 == 0 then 1 else 0
  {
  }

  lemma FourHundredthYear(y: int)
    ensures (y - 1600) / 400 - (y - 1601) / 400 == if y % 400 == 0 then 1 else 0
  {
  }

  lemma CenturiesAreFourths(y: int)
    ensures y % 100 == 0 ==> y % 4 == 0
    ensures y % 400 == 0 ==> y % 100 == 0
  {
    if y % 100 == 0 {
      var c := y / 100;
      assert y == 4 * (25 * c);
    }
    if y % 400 == 0 {
      var c := y / 400;
      assert y == 100 * (4 * c);
    }
  }

  lemma YearLength(y: int)
    ensures DayFromYear(y + 1) - DayFromYear(y) == if IsLeap(y) then 366 else 365
  {
    FourthYear(y);
    HundredthYear(y);
    FourHundredthYear(y);
    CenturiesAreFourths(y);
  }

  /** The year that day `d` falls in, searched upwards from `y`. */
  function YearFrom(d: int, y: int): (r: int)
    requires DayFromYear(y) <= d
    ensures DayFromYear(r) <= d < DayFromYear(r + 1)
    decreases d - DayFromYear(y)
  {
    YearLength(y);
    if d < DayFromYear(y + 1) then y else YearFrom(d, y + 1)
  }

  function DaysInMonth(m: int, leap: bool): int {
    if m == 1 then (if leap then 29 else 28)
    else if m == 3 || m == 5 || m == 8 || m == 10 then 30
    else 31
  }

  /** The twelve month lengths, January first. */
  lemma MonthLengths(m: nat, leap: bool)
    requires m < 12
    ensures DaysInMonth(m, leap) == [31, if leap then 29 else 28, 31, 30, 31, 30, 31, 31, 30, 31, 30, 31][m]
  {
  }

  /** Days before month `m` (0 for January) of a year. */
  function MonthStart(m: nat, leap: bool): int {
    if m == 0 then 0 else MonthStart(m - 1, leap) + DaysInMonth(m - 1, leap)
  }

  lemma TwelveMonths(leap: bool)
    ensures MonthStart(12, leap) == if leap then 366 else 365
  {
    assert MonthStart(1, leap) == 31;
    assert MonthStart(2, leap) == if leap then 60 else 59;
    assert MonthStart(4, leap) == if leap then 121 else 120;
    assert MonthStart(6, leap) == if leap then 182 else 181;
    assert MonthStart(8, leap) == if leap then 244 else 243;
    assert MonthStart(10, leap) == if leap then 305 else 304;
  }

  function MonthFrom(dayInYear: int, leap: bool, m: int): (r: int)
    requires 0 <= m <= 11 && MonthStart(m, leap) <= dayInYear < MonthStart(12, leap)
    ensures 0 <= r <= 11 && MonthStart(r, leap) <= dayInYear < MonthStart(r + 1, leap)
    decreases 12 - m
  {
    if dayInYear < MonthStart(m + 1, leap) then m else MonthFrom(dayInYear, leap, m + 1)
  }

  lemma FirstMonths(leap: bool)
    ensures MonthStart(0, leap) == 0 && MonthStart(1, leap) == 31
    ensures MonthStart(2, leap) == if leap then 60 else 59
  {
  }

  datatype Date = Date(year: int, month: int, day: int)

  /** `MakeDay`: months beyond December carry into later years, days beyond the month into later months. */
  function MakeDay(year: int, month: nat, day: int): int {
    var y, m := year + month / 12, month % 12;
    DayFromYear(y) + MonthStart(m, IsLeap(y)) + day - 1
  }

  lemma WithinYear(year: int, month: nat, day: int)
    requires month <= 11
    ensures MakeDay(year, month, day) == DayFromYear(year) + MonthStart(month, IsLeap(year)) + day - 1
  {
    assert month / 12 == 0 && month % 12 == month;
  }

  /** The UTC date of a non-negative day number. */
  function DateOf(d: nat): (r: Date)
    ensures 0 <= r.month <= 11 && 1 <= r.day <= DaysInMonth(r.month, IsLeap(r.year))
    ensures MakeDay(r.year, r.month, r.day) == d
  {
    var y := YearFrom(d, 1970);
    YearLength(y);
    TwelveMonths(IsLeap(y));
    var dayInYear := d - DayFromYear(y);
    var m := MonthFrom(dayInYear, IsLeap(y), 0);
    WithinYear(y, m, dayInYear - MonthStart(m, IsLeap(y)) + 1);
    Date(y, m, dayInYear - MonthStart(m, IsLeap(y)) + 1)
  }

  /** The same day number of the next month lies one month length later, across a year end too. */
  lemma MonthCarry(year: int, month: nat, day: int)
    requires month <= 11
    ensures MakeDay(year, month + 1, day) == MakeDay(year, month, day) + DaysInMonth(month, IsLeap(year))
  {
    if month == 11 {
      YearLength(year);
      TwelveMonths(IsLeap(year));
      assert MakeDay(year, 12, day) == DayFromYear(year + 1) + day - 1;
    }
  }

  /** `setUTCDate(getUTCDate() + 1)` on a time in seconds. */
  function AddDay(t: nat): int {
    var d := DateOf(t / 86_400);
    MakeDay(d.year, d.month, d.day + 1) * 86_400 + t % 86_400
  }

  /** `setUTCMonth(getUTCMonth() + 1)` on a time in seconds. */
  function AddMonth(t: nat): int {
    var d := DateOf(t / 86_400);
    MakeDay(d.year, d.month + 1, d.day) * 86_400 + t % 86_400
  }

  lemma ShiftDays(t: nat, n: int, k: int)
    requires n == t / 86_400 + k
    ensures n * 86_400 + t % 86_400 == t + k * 86_400
  {
  }

  lemma NextDay(year: int, month: nat, day: int)
    ensures MakeDay(year, month, day + 1) == MakeDay(year, month, day) + 1
  {
  }

  lemma AddDayIsOneDay(t: nat)
    ensures AddDay(t) == t + 86_400
  {
    var d := DateOf(t / 86_400);
    NextDay(d.year, d.month, d.day);
    ShiftDays(t, MakeDay(d.year, d.month, d.day + 1), 1);
  }

  /** A monthly step is exactly as long as the month it starts in, whatever the day of the month. */
  lemma AddMonthIsMonthLength(t: nat)
    ensures var d := DateOf(t / 86_400);
      && AddMonth(t) == t + DaysInMonth(d.month, IsLeap(d.year)) * 86_400
      && 28 <= DaysInMonth(d.month, IsLeap(d.year)) <= 31
  {
    var d := DateOf(t / 86_400);
    MonthCarry(d.year, d.month, d.day);
    ShiftDays(t, MakeDay(d.year, d.month + 1, d.day), DaysInMonth(d.month, IsLeap(d.year)));
  }

  lemma DateIs(year: int, month: nat, day: int, first: int, leap: bool)
    requires month <= 2 && first == DayFromYear(year) && leap == IsLeap(year)
    ensures MakeDay(year, month, day)
         == first + day - 1 + (if month == 0 then 0 else if month == 1 then 31 else if leap then 60 else 59)
  {
    WithinYear(year, month, day);
    FirstMonths(leap);
  }

  /** The epoch, the leap day of 2000, and the end of February 2100, which has none. */
  lemma KnownDates()
    ensures MakeDay(1970, 0, 1) == 0
    ensures MakeDay(2000, 1, 29) == 11_016 && MakeDay(2000, 2, 1) == 11_017
    ensures MakeDay(2100, 2, 1) == MakeDay(2100, 1, 28) + 1
  {
    DateIs(1970, 0, 1, 0, false);
    DateIs(2000, 1, 29, 10_957, true);
    DateIs(2000, 2, 1, 10_957, true);
    DateIs(2100, 1, 28, 47_482, false);
    DateIs(2100, 2, 1, 47_482, false);
  }
}
