/**
 * The proleptic Gregorian calendar as Python's `calendar` and `datetime.date`
 * compute it: `_get_days_in_month` (via `calendar.monthrange`) and
 * `_is_weekday` (via `date.weekday()`, Monday = 0 … Sunday = 6).
 */
module Calendar {

  /** `calendar.isleap` */
  predicate IsLeap(y: int)
  {
    y % 4 == 0 && (y % 100 != 0 || y % 400 == 0)
  }

  /** `calendar.mdays`: days per month in a common year, index 0 unused. */
  const MonthDays: seq<int> := [0, 31, 28, 31, 30, 31, 30, 31, 31, 30, 31, 30, 31]

  /** `_get_days_in_month`: `calendar.monthrange(y, m)[1]`. */
  function DaysInMonth(y: int, m: int): (n: int)
    requires 1 <= m <= 12
    ensures 28 <= n <= 31
    ensures m == 2 ==> (n == 29 <==> IsLeap(y)) && (n == 28 <==> !IsLeap(y))
    ensures m != 2 ==> (n == 30 <==> m in {4, 6, 9, 11}) && (n == 31 <==> m !in {2, 4, 6, 9, 11})
  {
    MonthDays[m] + (if m == 2 && IsLeap(y) then 1 else 0)
  }

  function DaysInYear(y: int): int
  {
    if IsLeap(y) then 366 else 365
  }

  /** `datetime._days_before_month`: days in the year before the first of month `m`. */
  function DaysBeforeMonth(y: int, m: int): int
    requires 1 <= m <= 12
  {
    [-1, 0, 31, 59, 90, 120, 151, 181, 212, 243, 273, 304, 334][m] + (if m > 2 && IsLeap(y) then 1 else 0)
  }

  /** `datetime._days_before_year`: days before 1 January of year `y`, counted from 1 January of year 1. */
  function DaysBeforeYear(y: int): int
  {
    var y1 := y - 1;
    y1 * 365 + y1 / 4 - y1 / 100 + y1 / 400
  }

  predicate ValidDate(y: int, m: int, d: int)
  {
    1 <= y <= 9999 && 1 <= m <= 12 && 1 <= d <= DaysInMonth(y, m)
  }

  /** `date(y, m, d).toordinal()`: 1 January of year 1 is day 1. */
  function Ordinal(y: int, m: int, d: int): int
    requires 1 <= m <= 12
  {
    DaysBeforeYear(y) + DaysBeforeMonth(y, m) + d
  }

  /** `date(y, m, d).weekday()`: Monday is 0 and Sunday is 6. */
  function Weekday(y: int, m: int, d: int): (w: int)
    requires 1 <= m <= 12
    ensures 0 <= w < 7
  {
    (Ordinal(y, m, d) + 6) % 7
  }

  /** `_is_weekday`: Monday to Friday. */
  predicate IsWeekday(y: int, m: int, d: int)
    requires 1 <= m <= 12
  {
    Weekday(y, m, d) < 5
  }

  /** The two month tables agree: each month starts where the previous one ends, and December ends the year. */
  lemma MonthTablesAgree(y: int, m: int)
    requires 1 <= m <= 12
    ensures m < 12 ==> DaysBeforeMonth(y, m + 1) == DaysBeforeMonth(y, m) + DaysInMonth(y, m)
    ensures m == 12 ==> DaysBeforeMonth(y, m) + DaysInMonth(y, m) == DaysInYear(y)
  {
  }

  /** A year holds as many days as the year-start counts differ by. */
  lemma YearLength(y: int)
    requires y >= 1
    ensures DaysBeforeYear(y + 1) == DaysBeforeYear(y) + DaysInYear(y)
  {
    LeapCount(y);
  }

  /** The leap-day count `y / 4 - y / 100 + y / 400` goes up by one exactly in a leap year. */
  lemma LeapCount(y: int)
    ensures y / 4 - y / 100 + y / 400 == (y - 1) / 4 - (y - 1) / 100 + (y - 1) / 400 + (if IsLeap(y) then 1 else 0)
  {
    FloorStep(y, 4);
    FloorStep(y, 100);
    FloorStep(y, 400);
    DivisorChain(y);
  }

  /** A multiple of 400 is a multiple of 100, and a multiple of 100 a multiple of 4. */
  lemma DivisorChain(y: int)
    ensures y % 400 == 0 ==> y % 100 == 0
    ensures y % 100 == 0 ==> y % 4 == 0
  {
    if y % 400 == 0 {
      Hundreds(y, 4 * (y / 400));
    }
    if y % 100 == 0 {
      Fours(y, 25 * (y / 100));
    }
  }

  lemma Hundreds(y: int, j: int)
    requires y == 100 * j
    ensures y % 100 == 0
  {
  }

  lemma Fours(y: int, j: int)
    requires y == 4 * j
    ensures y % 4 == 0
  {
  }

  /** Division by 4, 100 or 400 goes up by one exactly at the multiples. */
  lemma FloorStep(y: int, q: int)
    requires q == 4 || q == 100 || q == 400
    ensures y / q == (y - 1) / q + (if y % q == 0 then 1 else 0)
  {
    if q == 4 {
      assert y / 4 == (y - 1) / 4 + (if y % 4 == 0 then 1 else 0);
    } else if q == 100 {
      assert y / 100 == (y - 1) / 100 + (if y % 100 == 0 then 1 else 0);
    } else {
      assert y / 400 == (y - 1) / 400 + (if y % 400 == 0 then 1 else 0);
    }
  }

  /** Consecutive calendar days, including across the end of a month or a year, have consecutive weekdays. */
  lemma NextDayWeekday(y: int, m: int, d: int)
    requires ValidDate(y, m, d)
    ensures d < DaysInMonth(y, m) ==> Weekday(y, m, d + 1) == (Weekday(y, m, d) + 1) % 7
    ensures d == DaysInMonth(y, m) && m < 12 ==> Weekday(y, m + 1, 1) == (Weekday(y, m, d) + 1) % 7
    ensures d == DaysInMonth(y, m) && m == 12 ==> Weekday(y + 1, 1, 1) == (Weekday(y, m, d) + 1) % 7
  {
    var o := Ordinal(y, m, d);
    WeekdayStep(o);
    if d < DaysInMonth(y, m) {
      assert Ordinal(y, m, d + 1) == o + 1;
    } else if m < 12 {
      MonthTablesAgree(y, m);
      assert Ordinal(y, m + 1, 1) == o + 1;
    } else {
      MonthTablesAgree(y, m);
      YearLength(y);
      assert Ordinal(y + 1, 1, 1) == o + 1;
    }
  }

  lemma WeekdayStep(o: int)
    ensures (o + 1 + 6) % 7 == ((o + 6) % 7 + 1) % 7
  {
  }

  /** Calendar anchors: 1 January of year 1 was a Monday and 1 October 2025 a Wednesday. */
  lemma WeekdayAnchors()
    ensures Weekday(1, 1, 1) == 0
    ensures Weekday(2025, 10, 1) == 2
    ensures !IsWeekday(2025, 10, 4) && !IsWeekday(2025, 10, 5) && IsWeekday(2025, 10, 6)
  {
    assert DaysBeforeYear(1) == 0;
    assert DaysBeforeYear(2025) == 739251;
    assert !IsLeap(2025);
    assert DaysBeforeMonth(2025, 10) == 273;
  }
}
