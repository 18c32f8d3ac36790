/** Calendar dates as the accounting forms hold them (`YYYY-MM-DD` from a date
    input) and their position on the time line: a date-only ISO string is read
    as midnight UTC, so comparing two dates compares their day numbers. */
module Calendar {

  datatype Date = Date(year: int, month: int, day: int)

  /** Milliseconds in a day, the unit of `Date.getTime()` differences. */
  const MsPerDay: int := 86400000

  predicate IsLeapYear(y: int)
  {
    y % 4 == 0 && (y % 100 != 0 || y % 400 == 0)
  }

  function DaysInMonth(y: int, m: int): (n: int)
    requires 1 <= m <= 12
    ensures 28 <= n <= 31
    ensures m == 2 ==> (n == 29 <==> IsLeapYear(y))
  {
    if m == 2 then (if IsLeapYear(y) then 29 else 28)
    else if m == 4 || m == 6 || m == 9 || m == 11 then 30
    else 31
  }

  /** A date a date input can produce. */
  predicate Valid(d: Date)
  {
    1 <= d.month <= 12 && 1 <= d.day <= DaysInMonth(d.year, d.month)
  }

  /** Days from 0000-03-01 to the first of March of year `y`: 365 a year plus
      one for each leap day in between. */
  function DaysBeforeYear(y: int): int
  {
    365 * y + y / 4 - y / 100 + y / 400
  }

  /** Whole days from 1970-01-01 to `d` in the proleptic Gregorian calendar
      (the civil-to-days conversion counting years from March). */
  function DayNumber(d: Date): int
  {
    var y := if d.month <= 2 then d.year - 1 else d.year;
    var shifted := if d.month > 2 then d.month - 3 else d.month + 9;
    var dayOfYear := (153 * shifted + 2) / 5 + d.day - 1;
    DaysBeforeYear(y) + dayOfYear - 719468
  }

  /** The calendar day after `d`. */
  function NextDay(d: Date): (r: Date)
    requires Valid(d)
    ensures Valid(r)
  {
    if d.day < DaysInMonth(d.year, d.month) then Date(d.year, d.month, d.day + 1)
    else if d.month < 12 then Date(d.year, d.month + 1, 1)
    else Date(d.year + 1, 1, 1)
  }

  /** The March-based year that ends in the February of `y` has 366 days
      exactly when `y` is a leap year. */
  lemma YearLength(y: int)
    ensures DaysBeforeYear(y) - DaysBeforeYear(y - 1) == if IsLeapYear(y) then 366 else 365
  {
    FloorStep4(y);
    FloorStep100(y);
    FloorStep400(y);
    CenturiesAreMultiplesOfFour(y);
    FourCenturiesAreCenturies(y);
    var leapDays := y / 4 - y / 100 + y / 400 - ((y - 1) / 4 - (y - 1) / 100 + (y - 1) / 400);
    assert leapDays == if IsLeapYear(y) then 1 else 0;
  }

  lemma CenturiesAreMultiplesOfFour(y: int)
    ensures y % 100 == 0 ==> y % 4 == 0
  {
    var k := y / 100;
    if y % 100 == 0 {
      assert y == 4 * (25 * k) + 0;
    }
  }

  lemma FourCenturiesAreCenturies(y: int)
    ensures y % 400 == 0 ==> y % 100 == 0
  {
    var k := y / 400;
    if y % 400 == 0 {
      assert y == 100 * (4 * k) + 0;
    }
  }

  /** From the last day of February to the first of March: one day, in leap
      years and in common years alike. */
  lemma FebruaryEnd(y: int)
    ensures DayNumber(Date(y, 3, 1)) == DayNumber(Date(y, 2, DaysInMonth(y, 2))) + 1
  {
    YearLength(y);
  }

  /** Going from year `y - 1` to `y`, the count of multiples of 4 grows by one
      exactly when `y` is one; likewise for 100 and 400 below. */
  lemma FloorStep4(y: int)
    ensures y / 4 - (y - 1) / 4 == if y % 4 == 0 then 1 else 0
  {
    var q, r := (y - 1) / 4, (y - 1) % 4;
    assert y == 4 * q + r + 1;
    if r == 3 {
      assert y == 4 * (q + 1) + 0;
    }
  }

  lemma FloorStep100(y: int)
    ensures y / 100 - (y - 1) / 100 == if y % 100 == 0 then 1 else 0
  {
    var q, r := (y - 1) / 100, (y - 1) % 100;
    assert y == 100 * q + r + 1;
    if r == 99 {
      assert y == 100 * (q + 1) + 0;
    }
  }

  lemma FloorStep400(y: int)
    ensures y / 400 - (y - 1) / 400 == if y % 400 == 0 then 1 else 0
  {
    var q, r := (y - 1) / 400, (y - 1) % 400;
    assert y == 400 * q + r + 1;
    if r == 399 {
      assert y == 400 * (q + 1) + 0;
    }
  }

  /** Within one month, day numbers differ by the difference of the days. */
  lemma SameMonthDays(y: int, m: int, d1: int, d2: int)
    ensures DayNumber(Date(y, m, d2)) - DayNumber(Date(y, m, d1)) == d2 - d1
  {
  }

  /** From the last day of any month but February to the first of the next
      month, year ends included: one day. */
  lemma MonthEnd(y: int, m: int)
    requires 1 <= m <= 12 && m != 2
    ensures var next := if m < 12 then Date(y, m + 1, 1) else Date(y + 1, 1, 1);
      DayNumber(next) == DayNumber(Date(y, m, DaysInMonth(y, m))) + 1
  {
  }

  /** Day numbers count days: the epoch is day 0 and each next day is one more,
      across month ends, leap days and year ends. */
  lemma DayNumberCountsDays(d: Date)
    requires Valid(d)
    ensures DayNumber(Date(1970, 1, 1)) == 0
    ensures DayNumber(NextDay(d)) == DayNumber(d) + 1
  {
    if d.day == DaysInMonth(d.year, d.month) {
      if d.month == 2 {
        FebruaryEnd(d.year);
      } else {
        MonthEnd(d.year, d.month);
      }
    }
  }
}
