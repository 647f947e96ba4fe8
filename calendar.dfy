/**
 * Whole-day arithmetic on the proleptic Gregorian calendar, as the chart
 * calculator uses it through `new Date(year, month - 1, day)`: the number of
 * days from 1900-01-01 to a (possibly overflowing) year, month and day.
 * Days are exact 24-hour units; there is no time zone in this model.
 */
module Calendar {

  /** The Gregorian rule: every fourth year, except centuries not divisible by 400. */
  predicate IsLeapYear(y: int) {
    y % 4 == 0 && (y % 100 != 0 || y % 400 == 0)
  }

  function DaysInYear(y: int): (n: int)
    ensures n == 365 || n == 366
  {
    if IsLeapYear(y) then 366 else 365
  }

  /** Length of month `m0` (0 = January … 11 = December) of year `y`. */
  function MonthLength(y: int, m0: int): (n: int)
    requires 0 <= m0 < 12
    ensures 28 <= n <= 31
  {
    if m0 == 1 then (if IsLeapYear(y) then 29 else 28)
    else if m0 == 3 || m0 == 5 || m0 == 8 || m0 == 10 then 30
    else 31
  }

  /** Days from 1 January of year `y` to the first day of month `m0`. */
  function DaysBeforeMonth(y: int, m0: int): (n: int)
    requires 0 <= m0 < 12
    ensures 0 <= n <= 335
  {
    [0, 31, 59, 90, 120, 151, 181, 212, 243, 273, 304, 334][m0]
      + (if m0 >= 2 && IsLeapYear(y) then 1 else 0)
  }

  /** Days from 1 January of year 0 to 1 January of year `y`, up to a constant. */
  function YearStart(y: int): int {
    365 * y + (y - 1) / 4 - (y - 1) / 100 + (y - 1) / 400
  }

  /** Days from 1900-01-01 to 1 January of year `y` (negative before 1900). */
  function DaysBeforeYear(y: int): int {
    YearStart(y) - YearStart(1900)
  }

  /**
   * The year argument of the JavaScript `Date` constructor: a year from 0 to
   * 99 is read as 1900 plus that year.
   */
  function ConstructorYear(y: int): (year: int)
    ensures !(0 <= year <= 99)
    ensures !(0 <= y <= 99) ==> year == y
    ensures year - y == 0 || year - y == 1900
  {
    if 0 <= y <= 99 then 1900 + y else y
  }

  /**
   * Days from 1900-01-01 to the date that `new Date(y, m - 1, d)` denotes.
   * An out-of-range month carries into the year and an out-of-range day into
   * the following (or preceding) months, as the constructor does.
   */
  function DayCount(y: int, m: int, d: int): int {
    var m0 := m - 1;
    var year := ConstructorYear(y) + m0 / 12;
    DaysBeforeYear(year) + DaysBeforeMonth(year, m0 % 12) + d - 1
  }

  /** A date that needs no rollover. */
  predicate IsRealDate(y: int, m: int, d: int) {
    1 <= m <= 12 && 1 <= d <= MonthLength(y, m - 1)
  }

  /** The closed form counts exactly one year length from each year to the next. */
  lemma DaysBeforeYearStep(y: int)
    ensures DaysBeforeYear(y + 1) == DaysBeforeYear(y) + DaysInYear(y)
  {
    QuotientStep(y, 4);
    QuotientStep(y, 100);
    QuotientStep(y, 400);
  }

  /** Going from `y - 1` to `y`, the floor quotient by `k` grows by one exactly at multiples of `k`. */
  lemma QuotientStep(y: int, k: int)
    requires k == 4 || k == 100 || k == 400
    ensures y / k - (y - 1) / k == if y % k == 0 then 1 else 0
  {
    var q, r := (y - 1) / k, (y - 1) % k;
    assert y - 1 == k * q + r && 0 <= r < k;
    if r == k - 1 {
      assert y == k * (q + 1);
    } else {
      assert y == k * q + (r + 1);
    }
  }

  /** The month table is the running sum of the month lengths, and it ends at the year length. */
  lemma DaysBeforeMonthStep(y: int, m0: int)
    requires 0 <= m0 < 12
    ensures m0 < 11 ==> DaysBeforeMonth(y, m0 + 1) == DaysBeforeMonth(y, m0) + MonthLength(y, m0)
    ensures m0 == 11 ==> DaysBeforeMonth(y, m0) + MonthLength(y, m0) == DaysInYear(y)
  {
  }

  /** The epoch itself is day 0. */
  lemma EpochIsDayZero()
    ensures DayCount(1900, 1, 1) == 0
  {
  }

  /** Every year from 1900 on starts on or after the epoch. */
  lemma {:induction false} DaysBeforeYearNonNegative(y: int)
    requires y >= 1900
    ensures DaysBeforeYear(y) >= 365 * (y - 1900)
    decreases y
  {
    if y > 1900 {
      DaysBeforeYearNonNegative(y - 1);
      DaysBeforeYearStep(y - 1);
    }
  }

  /** A date from 1900 on with month and day at least 1 never precedes the epoch. */
  lemma DayCountNonNegative(y: int, m: int, d: int)
    requires y >= 1900 && 1 <= m <= 12 && d >= 1
    ensures DayCount(y, m, d) >= 0
  {
    DaysBeforeYearNonNegative(y);
  }

  /** Adding days to the day argument moves the count by exactly that much. */
  lemma DayRollover(y: int, m: int, d: int, k: int)
    ensures DayCount(y, m, d + k) == DayCount(y, m, d) + k
  {
  }

  /** A thirteenth month is January of the next year. */
  lemma MonthRollover(y: int, d: int)
    requires y >= 100
    ensures DayCount(y, 13, d) == DayCount(y + 1, 1, d)
  {
  }

  /**
   * 31 February is read as 3 March, or 2 March in a leap year (years from
   * 100 on, where the constructor takes the year as given).
   */
  lemma February31(y: int)
    requires y >= 100
    ensures IsLeapYear(y) ==> DayCount(y, 2, 31) == DayCount(y, 3, 2)
    ensures !IsLeapYear(y) ==> DayCount(y, 2, 31) == DayCount(y, 3, 3)
  {
  }

  /** For a year from 100 on and a month in range, no rollover happens. */
  lemma DayCountInRange(y: int, m: int, d: int)
    requires y >= 100 && 1 <= m <= 12
    ensures DayCount(y, m, d) == DaysBeforeYear(y) + DaysBeforeMonth(y, m - 1) + d - 1
  {
    assert (m - 1) / 12 == 0 && (m - 1) % 12 == m - 1;
  }

  /** The last day of a real month is followed by the first day of the next. */
  lemma {:induction false} NextDayOfRealDate(y: int, m: int)
    requires y >= 100 && 1 <= m <= 12
    ensures m < 12 ==> DayCount(y, m, MonthLength(y, m - 1)) + 1 == DayCount(y, m + 1, 1)
    ensures m == 12 ==> DayCount(y, m, MonthLength(y, m - 1)) + 1 == DayCount(y + 1, 1, 1)
  {
    var len := MonthLength(y, m - 1);
    DaysBeforeMonthStep(y, m - 1);
    DayCountInRange(y, m, len);
    var last := DaysBeforeYear(y) + DaysBeforeMonth(y, m - 1) + len - 1;
    assert DayCount(y, m, len) == last;
    if m == 12 {
      DaysBeforeYearStep(y);
      DayCountInRange(y + 1, 1, 1);
      assert DayCount(y + 1, 1, 1) == DaysBeforeYear(y + 1);
    } else {
      DayCountInRange(y, m + 1, 1);
      assert DayCount(y, m + 1, 1) == DaysBeforeYear(y) + DaysBeforeMonth(y, m);
    }
  }

  /** Within one year, later real dates have larger counts. */
  lemma DayCountIncreasesWithinYear(y: int, m1: int, d1: int, m2: int, d2: int)
    requires y >= 100 && IsRealDate(y, m1, d1) && IsRealDate(y, m2, d2)
    requires m1 < m2 || (m1 == m2 && d1 < d2)
    ensures DayCount(y, m1, d1) < DayCount(y, m2, d2)
  {
    DayCountInRange(y, m1, d1);
    DayCountInRange(y, m2, d2);
    if m1 < m2 {
      DaysBeforeMonthIncreases(y, m1 - 1, m2 - 1);
    }
  }

  lemma {:induction false} DaysBeforeMonthIncreases(y: int, a: int, b: int)
    requires 0 <= a < b < 12
    ensures DaysBeforeMonth(y, a) + MonthLength(y, a) <= DaysBeforeMonth(y, b)
    decreases b - a
  {
    DaysBeforeMonthStep(y, a);
    if a + 1 < b {
      DaysBeforeMonthIncreases(y, a + 1, b);
      DaysBeforeMonthStep(y, a + 1);
    }
  }

  /** A real date of year `y` lies between the starts of year `y` and year `y + 1`. */
  lemma DayCountWithinYear(y: int, m: int, d: int)
    requires y >= 100 && IsRealDate(y, m, d)
    ensures DaysBeforeYear(y) <= DayCount(y, m, d) < DaysBeforeYear(y + 1)
  {
    DayCountInRange(y, m, d);
    DaysBeforeMonthStep(y, 11);
    if m < 12 {
      DaysBeforeMonthIncreases(y, m - 1, 11);
    }
    DaysBeforeYearStep(y);
  }

  lemma {:induction false} DaysBeforeYearIncreases(a: int, b: int)
    requires a < b
    ensures DaysBeforeYear(a + 1) <= DaysBeforeYear(b)
    decreases b - a
  {
    if a + 1 < b {
      DaysBeforeYearIncreases(a + 1, b);
      DaysBeforeYearStep(a + 1);
    }
  }

  /** Real dates in later years have larger counts. */
  lemma DayCountIncreasesAcrossYears(y1: int, m1: int, d1: int, y2: int, m2: int, d2: int)
    requires 100 <= y1 < y2 && IsRealDate(y1, m1, d1) && IsRealDate(y2, m2, d2)
    ensures DayCount(y1, m1, d1) < DayCount(y2, m2, d2)
  {
    DayCountWithinYear(y1, m1, d1);
    DayCountWithinYear(y2, m2, d2);
    DaysBeforeYearIncreases(y1, y2);
  }
}
