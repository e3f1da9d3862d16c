/**
 * The proleptic Gregorian calendar of Python's `datetime`: validity of a date
 * (section 5.7 of RFC 3339 gives the same day-in-month and leap-year rules),
 * the day ordinal of `date.toordinal()`, and adding whole days, which is what
 * `datetime.now() + timedelta(days=30)` does to the date part.
 */
module Calendar {

  datatype Date = Date(year: int, month: int, day: int)

  predicate IsLeapYear(y: int) {
    y % 4 == 0 && (y % 100 != 0 || y % 400 == 0)
  }

  function DaysInMonth(y: int, m: int): (n: int)
    requires 1 <= m <= 12
    ensures 28 <= n <= 31
    ensures m == 2 ==> (n == 29 <==> IsLeapYear(y))
  {
    if m == 2 then (if IsLeapYear(y) then 29 else 28)
    else if m == 4 || m == 6 || m == 9 || m == 11 then 30
    else 31
  }

  function DaysInYear(y: int): int {
    if IsLeapYear(y) then 366 else 365
  }

  /** A calendar date from year 1 on, with no upper bound on the year. */
  predicate IsDate(d: Date) {
    d.year >= 1 && 1 <= d.month <= 12 && 1 <= d.day <= DaysInMonth(d.year, d.month)
  }

  /** A date Python's `datetime` can hold: `MINYEAR` is 1 and `MAXYEAR` is 9999. */
  predicate InPythonRange(d: Date) {
    IsDate(d) && d.year <= 9999
  }

  /** Days in the years 1 .. y-1. */
  function DaysBeforeYear(y: int): int
    requires y >= 1
  {
    var k := y - 1;
    365 * k + k / 4 - k / 100 + k / 400
  }

  /** Days in the months 1 .. m-1 of year y. */
  function DaysBeforeMonth(y: int, m: int): int
    requires 1 <= m <= 12
  {
    var common :=
      if m == 1 then 0 else if m == 2 then 31 else if m == 3 then 59
      else if m == 4 then 90 else if m == 5 then 120 else if m == 6 then 151
      else if m == 7 then 181 else if m == 8 then 212 else if m == 9 then 243
      else if m == 10 then 273 else if m == 11 then 304 else 334;
    common + (if m > 2 && IsLeapYear(y) then 1 else 0)
  }

  /** The day number with 0001-01-01 as day 1, as `date.toordinal()` counts. */
  function Ordinal(d: Date): int
    requires IsDate(d)
  {
    DaysBeforeYear(d.year) + DaysBeforeMonth(d.year, d.month) + d.day
  }

  /** The calendar day after `d`. */
  function NextDay(d: Date): Date
    requires IsDate(d)
  {
    if d.day < DaysInMonth(d.year, d.month) then Date(d.year, d.month, d.day + 1)
    else if d.month < 12 then Date(d.year, d.month + 1, 1)
    else Date(d.year + 1, 1, 1)
  }

  /** The date `n` calendar days after `d`. */
  function AddDays(d: Date, n: nat): Date
    requires IsDate(d)
    decreases n
  {
    if n == 0 then d
    else
      NextDayIsNextOrdinal(d);
      AddDays(NextDay(d), n - 1)
  }

  /** Counting multiples of `m`: one more is reached exactly when `k + 1` is one. */
  lemma QuotientStep(k: int, m: int)
    requires k >= 0 && (m == 4 || m == 100 || m == 400)
    ensures (k + 1) / m == k / m + (if (k + 1) % m == 0 then 1 else 0)
  {
    if m == 4 {
      assert (k + 1) / 4 == k / 4 + (if (k + 1) % 4 == 0 then 1 else 0);
    } else if m == 100 {
      assert (k + 1) / 100 == k / 100 + (if (k + 1) % 100 == 0 then 1 else 0);
    } else {
      assert (k + 1) / 400 == k / 400 + (if (k + 1) % 400 == 0 then 1 else 0);
    }
  }

  /** The leap rule as a count: multiples of 4, less multiples of 100, plus multiples of 400. */
  lemma LeapCount(y: int)
    ensures (if y % 4 == 0 then 1 else 0) - (if y % 100 == 0 then 1 else 0) + (if y % 400 == 0 then 1 else 0)
            == (if IsLeapYear(y) then 1 else 0)
  {
    if y % 400 == 0 {
      assert y == 100 * (4 * (y / 400));
    }
    if y % 100 == 0 {
      assert y == 4 * (25 * (y / 100));
    }
  }

  lemma DaysBeforeYearStep(y: int)
    requires y >= 1
    ensures DaysBeforeYear(y + 1) == DaysBeforeYear(y) + DaysInYear(y)
  {
    var k := y - 1;
    QuotientStep(k, 4);
    QuotientStep(k, 100);
    QuotientStep(k, 400);
    LeapCount(y);
    assert DaysBeforeYear(y + 1) == 365 * k + 365 + (k + 1) / 4 - (k + 1) / 100 + (k + 1) / 400;
  }

  lemma MonthEnd(y: int, m: int)
    requires 1 <= m <= 12
    ensures m < 12 ==> DaysBeforeMonth(y, m + 1) == DaysBeforeMonth(y, m) + DaysInMonth(y, m)
    ensures m == 12 ==> DaysBeforeMonth(y, m) + DaysInMonth(y, m) == DaysInYear(y)
  {
  }

  /** `NextDay` stays a date and advances the ordinal by exactly one. */
  lemma NextDayIsNextOrdinal(d: Date)
    requires IsDate(d)
    ensures IsDate(NextDay(d)) && Ordinal(NextDay(d)) == Ordinal(d) + 1
  {
    MonthEnd(d.year, d.month);
    if d.day == DaysInMonth(d.year, d.month) && d.month == 12 {
      DaysBeforeYearStep(d.year);
    }
  }

  /** Adding `n` days gives a date whose ordinal is `n` more. */
  lemma {:induction false} AddDaysOrdinal(d: Date, n: nat)
    requires IsDate(d)
    ensures IsDate(AddDays(d, n)) && Ordinal(AddDays(d, n)) == Ordinal(d) + n
    decreases n
  {
    if n > 0 {
      NextDayIsNextOrdinal(d);
      AddDaysOrdinal(NextDay(d), n - 1);
    }
  }

  lemma {:induction false} DaysBeforeYearMonotonic(y: int, z: int)
    requires 1 <= y <= z
    ensures DaysBeforeYear(y) <= DaysBeforeYear(z)
    decreases z - y
  {
    if y < z {
      DaysBeforeYearStep(y);
      DaysBeforeYearMonotonic(y + 1, z);
    }
  }

  /** Every day of year y has an ordinal below the first day of year y+1. */
  lemma OrdinalWithinYear(d: Date)
    requires IsDate(d)
    ensures DaysBeforeYear(d.year) < Ordinal(d) <= DaysBeforeYear(d.year + 1)
  {
    MonthEnd(d.year, d.month);
    MonthsBefore(d.year, d.month, 12);
    DaysBeforeYearStep(d.year);
  }

  lemma MonthsBefore(y: int, m: int, n: int)
    requires 1 <= m <= n <= 12
    ensures DaysBeforeMonth(y, m) <= DaysBeforeMonth(y, n)
    ensures m < n ==> DaysBeforeMonth(y, m) + DaysInMonth(y, m) <= DaysBeforeMonth(y, n)
  {
  }

  /** Distinct dates have distinct ordinals, so a date is determined by its ordinal. */
  lemma OrdinalInjective(a: Date, b: Date)
    requires IsDate(a) && IsDate(b) && Ordinal(a) == Ordinal(b)
    ensures a == b
  {
    if a.year < b.year {
      OrdinalWithinYear(a); OrdinalWithinYear(b);
      DaysBeforeYearMonotonic(a.year + 1, b.year);
      assert false;
    } else if b.year < a.year {
      OrdinalWithinYear(a); OrdinalWithinYear(b);
      DaysBeforeYearMonotonic(b.year + 1, a.year);
      assert false;
    } else if a.month < b.month {
      MonthsBefore(a.year, a.month, b.month);
      assert false;
    } else if b.month < a.month {
      MonthsBefore(a.year, b.month, a.month);
      assert false;
    }
  }

  /**
   * `AddDays(d, n)` is the one and only date whose ordinal is `n` past `d`'s:
   * exactly `n` calendar days later.
   */
  lemma AddDaysExactly(d: Date, n: nat, e: Date)
    requires IsDate(d) && IsDate(e)
    ensures e == AddDays(d, n) <==> Ordinal(e) == Ordinal(d) + n
  {
    AddDaysOrdinal(d, n);
    if Ordinal(e) == Ordinal(d) + n {
      OrdinalInjective(e, AddDays(d, n));
    }
  }
}
