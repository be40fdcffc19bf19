/** Proleptic Gregorian civil dates and their day numbers counted from
    1970-01-01, the arithmetic behind JavaScript's `Date.UTC`,
    `getUTCFullYear`, `getUTCMonth` and `getUTCDate` at midnight UTC. */
module Calendar {

  /** A civil date: year, month 1..12 and day of the month. */
  datatype Civil = Civil(year: int, month: int, day: int)

  predicate IsLeapYear(y: int)
  {
    y % 4 == 0 && (y % 100 != 0 || y % 400 == 0)
  }

  function YearLength(y: int): int
  {
    if IsLeapYear(y) then 366 else 365
  }

  function DaysInMonth(y: int, m: int): (n: int)
    requires 1 <= m <= 12
    ensures 28 <= n <= 31
  {
    if m == 2 then (if IsLeapYear(y) then 29 else 28)
    else if m == 4 || m == 6 || m == 9 || m == 11 then 30
    else 31
  }

  predicate ValidCivil(c: Civil)
  {
    1 <= c.month <= 12 && 1 <= c.day <= DaysInMonth(c.year, c.month)
  }

  /** The number of days of year `y` that lie before the first of month `m`
      (`m == 13` gives the length of the year). */
  function DaysBeforeMonth(y: int, m: int): (n: int)
    requires 1 <= m <= 13
    ensures m == 13 ==> n == YearLength(y)
    ensures 0 <= n <= YearLength(y)
  {
    var leap := if m > 2 && IsLeapYear(y) then 1 else 0;
    leap + (
      if m == 1 then 0 else if m == 2 then 31 else if m == 3 then 59
      else if m == 4 then 90 else if m == 5 then 120 else if m == 6 then 151
      else if m == 7 then 181 else if m == 8 then 212 else if m == 9 then 243
      else if m == 10 then 273 else if m == 11 then 304 else if m == 12 then 334
      else 365)
  }

  /** The day number of January 1 of year `y`. */
  function DaysBeforeYear(y: int): int
    decreases if y < 1970 then 1970 - y else y - 1970
  {
    if y == 1970 then 0
    else if y > 1970 then DaysBeforeYear(y - 1) + YearLength(y - 1)
    else DaysBeforeYear(y + 1) - YearLength(y)
  }

  /** The day number of a valid civil date. */
  function DaysFromCivil(c: Civil): int
  {
    DaysBeforeYear(c.year) + DaysBeforeMonth(c.year, if 1 <= c.month <= 12 then c.month else 1) + c.day - 1
  }

  /** `Date.UTC(y, m - 1, d) / 86400000` for any integers: months out of 1..12
      carry into the year and days out of the month carry into neighbouring
      months, as the MakeDay operation of ECMAScript prescribes. */
  function MakeDay(y: int, m: int, d: int): (z: int)
    ensures 1 <= m <= 12 && ValidCivil(Civil(y, m, d)) ==> z == DaysFromCivil(Civil(y, m, d))
  {
    DaysFromCivil(Civil(y + (m - 1) / 12, (m - 1) % 12 + 1, 1)) + d - 1
  }

  lemma DaysBeforeNextMonth(y: int, m: int)
    requires 1 <= m <= 12
    ensures DaysBeforeMonth(y, m) + DaysInMonth(y, m) == DaysBeforeMonth(y, m + 1)
  {
  }

  /** The offset of a valid date within its year. */
  lemma OffsetInYear(c: Civil)
    requires ValidCivil(c)
    ensures 0 <= DaysBeforeMonth(c.year, c.month) + c.day - 1 < YearLength(c.year)
  {
    DaysBeforeNextMonth(c.year, c.month);
    assert DaysBeforeMonth(c.year, c.month + 1) <= DaysBeforeMonth(c.year, 13);
  }

  lemma DaysBeforeNextYear(y: int)
    ensures DaysBeforeYear(y + 1) == DaysBeforeYear(y) + YearLength(y)
  {
  }

  lemma {:induction false} DaysBeforeYearMonotone(x: int, y: int)
    requires x <= y
    ensures DaysBeforeYear(x) + 365 * (y - x) <= DaysBeforeYear(y) <= DaysBeforeYear(x) + 366 * (y - x)
    decreases y - x
  {
    if x < y {
      DaysBeforeYearMonotone(x, y - 1);
      DaysBeforeNextYear(y - 1);
    }
  }

  /** The month in which the `r`-th day (from 0) of year `y` falls. */
  function MonthOf(y: int, r: int, m: int): (k: int)
    requires 1 <= m <= 12 && 0 <= r < DaysBeforeMonth(y, m + 1)
    ensures 1 <= k <= m
    ensures DaysBeforeMonth(y, k) <= r < DaysBeforeMonth(y, k) + DaysInMonth(y, k)
  {
    DaysBeforeNextMonth(y, m);
    if m == 1 || DaysBeforeMonth(y, m) <= r then m else MonthOf(y, r, m - 1)
  }

  /** The civil date `r` days after January 1 of year `y` (`r` may be negative or
      exceed the year). */
  function CivilFromOffset(y: int, r: int): (c: Civil)
    ensures ValidCivil(c)
    ensures DaysFromCivil(c) == DaysBeforeYear(y) + r
    decreases if r < 0 then 400 - r else r
  {
    if r < 0 then
      DaysBeforeNextYear(y - 1);
      CivilFromOffset(y - 1, r + YearLength(y - 1))
    else if r >= YearLength(y) then
      DaysBeforeNextYear(y);
      CivilFromOffset(y + 1, r - YearLength(y))
    else
      var m := MonthOf(y, r, 12);
      Civil(y, m, r - DaysBeforeMonth(y, m) + 1)
  }

  /** The civil date of a day number: `getUTCFullYear`, `getUTCMonth() + 1`, `getUTCDate`. */
  function CivilFromDays(z: int): (c: Civil)
    ensures ValidCivil(c) && DaysFromCivil(c) == z
  {
    CivilFromOffset(1970, z)
  }

  /** Distinct valid dates have distinct day numbers. */
  lemma DaysFromCivilInjective(a: Civil, b: Civil)
    requires ValidCivil(a) && ValidCivil(b) && DaysFromCivil(a) == DaysFromCivil(b)
    ensures a == b
  {
    OffsetInYear(a);
    OffsetInYear(b);
    if a.year < b.year {
      DaysBeforeYearMonotone(a.year + 1, b.year);
      DaysBeforeNextYear(a.year);
      assert false;
    } else if b.year < a.year {
      DaysBeforeYearMonotone(b.year + 1, a.year);
      DaysBeforeNextYear(b.year);
      assert false;
    } else {
      SameYearInjective(a, b);
    }
  }

  lemma SameYearInjective(a: Civil, b: Civil)
    requires ValidCivil(a) && ValidCivil(b) && a.year == b.year
    requires DaysBeforeMonth(a.year, a.month) + a.day == DaysBeforeMonth(b.year, b.month) + b.day
    ensures a == b
  {
    if a.month < b.month {
      MonthsApart(a.year, a.month, b.month);
      assert false;
    } else if b.month < a.month {
      MonthsApart(a.year, b.month, a.month);
      assert false;
    }
  }

  lemma MonthsApart(y: int, m: int, k: int)
    requires 1 <= m < k <= 12
    ensures DaysBeforeMonth(y, m) + DaysInMonth(y, m) <= DaysBeforeMonth(y, k)
  {
    DaysBeforeNextMonth(y, m);
    assert DaysBeforeMonth(y, m + 1) <= DaysBeforeMonth(y, k);
  }

  /** Day numbers and valid civil dates are in one-to-one correspondence. */
  lemma CivilRoundTrip(c: Civil)
    requires ValidCivil(c)
    ensures CivilFromDays(DaysFromCivil(c)) == c
  {
    DaysFromCivilInjective(CivilFromDays(DaysFromCivil(c)), c);
  }

  /** The calendar day after a valid date. */
  function NextDay(c: Civil): (n: Civil)
    requires ValidCivil(c)
    ensures ValidCivil(n)
  {
    if c.day < DaysInMonth(c.year, c.month) then Civil(c.year, c.month, c.day + 1)
    else if c.month < 12 then Civil(c.year, c.month + 1, 1)
    else Civil(c.year + 1, 1, 1)
  }

  /** Advancing the day number by one moves to the next calendar day. */
  lemma NextDayNumber(z: int)
    ensures CivilFromDays(z + 1) == NextDay(CivilFromDays(z))
  {
    var c := CivilFromDays(z);
    var n := NextDay(c);
    if c.day == DaysInMonth(c.year, c.month) && c.month == 12 {
      DaysBeforeNextYear(c.year);
    }
    assert DaysFromCivil(n) == z + 1;
    DaysFromCivilInjective(CivilFromDays(z + 1), n);
  }

  /** Dates of the years 1000..9999 lie well within JavaScript's range of
      100,000,000 days either side of 1970-01-01. */
  lemma FourDigitYearInRange(c: Civil)
    requires ValidCivil(c) && 1000 <= c.year <= 9999
    ensures -1000000 <= DaysFromCivil(c) <= 3000000
  {
    if c.year < 1970 {
      DaysBeforeYearMonotone(c.year, 1970);
    } else {
      DaysBeforeYearMonotone(1970, c.year);
    }
  }
}
