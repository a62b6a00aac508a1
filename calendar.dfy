/**
 * The calendar arithmetic the SQL statements rely on: DATE and TIMESTAMP
 * values, date comparison, the `TO_CHAR(d, 'YYYYMMDD')::INTEGER` date key,
 * `EXTRACT(QUARTER ...)` and `EXTRACT(DOW ...)` on the proleptic Gregorian
 * calendar PostgreSQL uses (day 0 is Sunday).
 */
module Calendar {

  datatype Date = Date(year: int, month: int, day: int)

  predicate IsLeapYear(y: int) {
    y % 4 == 0 && (y % 100 != 0 || y % 400 == 0)
  }

  function DaysInMonth(y: int, m: int): (n: int)
    requires 1 <= m <= 12
    ensures 28 <= n <= 31
  {
    if m == 2 then (if IsLeapYear(y) then 29 else 28)
    else if m == 4 || m == 6 || m == 9 || m == 11 then 30
    else 31
  }

  predicate ValidDate(d: Date) {
    1 <= d.year && 1 <= d.month <= 12 && 1 <= d.day <= DaysInMonth(d.year, d.month)
  }

  /** A real calendar date of the Common Era: every DATE the engine can hold in this pipeline. */
  type CalendarDate = d: Date | ValidDate(d) witness Date(1970, 1, 1)

  /** A TIMESTAMP WITHOUT TIME ZONE: its calendar date (`ts::DATE`) and the seconds since midnight. */
  datatype Timestamp = Timestamp(date: CalendarDate, secondOfDay: nat)

  /** `a < b` on DATE values. */
  predicate Before(a: Date, b: Date) {
    a.year < b.year
    || (a.year == b.year && (a.month < b.month || (a.month == b.month && a.day < b.day)))
  }

  /** `TO_CHAR(d, 'YYYYMMDD')::INTEGER`. */
  function DateKey(d: CalendarDate): int {
    d.year * 10000 + d.month * 100 + d.day
  }

  /** Reads a YYYYMMDD integer back as year, month and day. */
  function DecodeDateKey(k: int): Date {
    Date(k / 10000, k / 100 % 100, k % 100)
  }

  lemma DivisionBy100(hi: int, lo: int)
    requires 0 <= lo < 100
    ensures (hi * 100 + lo) / 100 == hi && (hi * 100 + lo) % 100 == lo
  {
  }

  lemma DivisionBy10000(hi: int, lo: int)
    requires 0 <= lo < 10000
    ensures (hi * 10000 + lo) / 10000 == hi
  {
  }

  /** The date key is an encoding: decoding it gives the date back. */
  lemma DateKeyRoundTrip(d: CalendarDate)
    ensures DecodeDateKey(DateKey(d)) == d
  {
    var md := d.month * 100 + d.day;
    assert 0 <= md < 10000;
    DivisionBy10000(d.year, md);
    assert DateKey(d) == d.year * 10000 + md;
    DivisionBy100(d.year * 100 + d.month, d.day);
    assert DateKey(d) == (d.year * 100 + d.month) * 100 + d.day;
    assert DateKey(d) / 100 == d.year * 100 + d.month;
    DivisionBy100(d.year, d.month);
  }

  /** Two dates with the same key are the same date, so `date_key` can serve as the primary key of `dim_date`. */
  lemma DateKeyInjective(a: CalendarDate, b: CalendarDate)
    requires DateKey(a) == DateKey(b)
    ensures a == b
  {
    DateKeyRoundTrip(a);
    DateKeyRoundTrip(b);
  }

  /** Date keys sort exactly like the dates they encode. */
  lemma DateKeyOrder(a: CalendarDate, b: CalendarDate)
    ensures Before(a, b) <==> DateKey(a) < DateKey(b)
  {
    var ma, mb := a.month * 100 + a.day, b.month * 100 + b.day;
    assert DateKey(a) == a.year * 10000 + ma && DateKey(b) == b.year * 10000 + mb;
    if a.year < b.year {
      assert a.year * 10000 + 10000 <= b.year * 10000;
    } else if a.year > b.year {
      assert b.year * 10000 + 10000 <= a.year * 10000;
    }
  }

  /** `EXTRACT(QUARTER FROM d)`. */
  function Quarter(d: CalendarDate): (q: int)
    ensures 1 <= q <= 4
    ensures 3 * q - 2 <= d.month <= 3 * q
  {
    (d.month - 1) / 3 + 1
  }

  /**
   * The part of Sakamoto's weekday formula that depends on the year and the
   * month only (January and February count as months of the previous year).
   */
  function MonthOffset(year: int, month: int): int
    requires 1 <= month <= 12
  {
    var offsets := [0, 3, 2, 5, 0, 3, 5, 1, 4, 6, 2, 4];
    var y := if month < 3 then year - 1 else year;
    YearOffset(y) + offsets[month - 1]
  }

  /** The days a year shifts the weekday by: one per year, plus one per leap year. */
  function YearOffset(y: int): int {
    y + y / 4 - y / 100 + y / 400
  }

  /** `EXTRACT(DOW FROM d)`: 0 for Sunday up to 6 for Saturday. */
  function DayOfWeek(d: CalendarDate): (w: int)
    ensures 0 <= w < 7
  {
    (MonthOffset(d.year, d.month) + d.day) % 7
  }

  /** Within a month, the next day is the next weekday. */
  lemma DayOfWeekNextDay(d: CalendarDate)
    requires d.day < DaysInMonth(d.year, d.month)
    ensures ValidDate(Date(d.year, d.month, d.day + 1))
    ensures DayOfWeek(Date(d.year, d.month, d.day + 1)) == (DayOfWeek(d) + 1) % 7
  {
    var next: CalendarDate := Date(d.year, d.month, d.day + 1);
    var a := MonthOffset(d.year, d.month) + d.day;
    assert DayOfWeek(next) == (a + 1) % 7;
    assert DayOfWeek(d) == a % 7;
    SuccessorModSeven(a);
  }

  lemma SuccessorModSeven(a: int)
    ensures (a + 1) % 7 == (a % 7 + 1) % 7
  {
    var q, r := a / 7, a % 7;
    assert a == 7 * q + r;
    if r < 6 {
      assert a + 1 == 7 * q + (r + 1);
    } else {
      assert a + 1 == 7 * (q + 1);
    }
  }

  /** The day after `d`: the next day of the month, else the first of the next month or year. */
  function NextDay(d: CalendarDate): (e: CalendarDate)
    ensures Before(d, e)
    ensures e.day == 1 <==> d.day == DaysInMonth(d.year, d.month)
  {
    if d.day < DaysInMonth(d.year, d.month) then Date(d.year, d.month, d.day + 1)
    else if d.month < 12 then Date(d.year, d.month + 1, 1)
    else Date(d.year + 1, 1, 1)
  }

  /** `y + y/4 - y/100 + y/400` grows by one more in a leap year: the extra day of February. */
  lemma LeapTerms(y: int)
    requires 1 <= y
    ensures YearOffset(y) - YearOffset(y - 1) == if IsLeapYear(y) then 2 else 1
  {
    StepDivision(y, 4);
    StepDivision(y, 100);
    StepDivision(y, 400);
  }

  /** Stepping `y` down by one lowers `y / k` by one exactly when `k` divides `y`. */
  lemma StepDivision(y: int, k: int)
    requires k == 4 || k == 100 || k == 400
    ensures y / k - (y - 1) / k == if y % k == 0 then 1 else 0
  {
    if k == 4 {
      assert y / 4 - (y - 1) / 4 == if y % 4 == 0 then 1 else 0;
    } else if k == 100 {
      assert y / 100 - (y - 1) / 100 == if y % 100 == 0 then 1 else 0;
    } else {
      assert y / 400 - (y - 1) / 400 == if y % 400 == 0 then 1 else 0;
    }
  }

  /**
   * From the last day of a month to the first of the next, the weekday offset
   * moves by the length of the month, up to whole weeks.
   */
  lemma MonthOffsetStep(d: CalendarDate)
    requires d.day == DaysInMonth(d.year, d.month)
    ensures var e := NextDay(d);
      var delta := MonthOffset(e.year, e.month) - MonthOffset(d.year, d.month) - d.day;
      delta == -28 || delta == -35
  {
    if d.month == 2 {
      LeapTerms(d.year);
      assert MonthOffset(d.year, 3) == YearOffset(d.year) + 2;
      assert MonthOffset(d.year, 2) == YearOffset(d.year - 1) + 3;
    } else if d.month == 12 {
      assert MonthOffset(d.year + 1, 1) == YearOffset(d.year);
      assert MonthOffset(d.year, 12) == YearOffset(d.year) + 4;
    } else {
      MonthStep(d.year, d.month);
    }
  }

  /** Within one year, February aside, the offsets of neighbouring months differ by the length of the first, up to whole weeks. */
  lemma MonthStep(y: int, m: int)
    requires 1 <= m <= 11 && m != 2
    ensures var delta := MonthOffset(y, m + 1) - MonthOffset(y, m) - DaysInMonth(y, m);
      delta == -28 || delta == -35
  {
    var yy := if m < 3 then y - 1 else y;
    assert MonthOffset(y, m) == YearOffset(yy) + [0, 3, 2, 5, 0, 3, 5, 1, 4, 6, 2, 4][m - 1];
    assert MonthOffset(y, m + 1) == YearOffset(yy) + [0, 3, 2, 5, 0, 3, 5, 1, 4, 6, 2, 4][m];
  }

  /** The day after any date has the next day of the week, across month and year ends too. */
  lemma DayOfWeekSuccessor(d: CalendarDate)
    ensures DayOfWeek(NextDay(d)) == (DayOfWeek(d) + 1) % 7
  {
    if d.day < DaysInMonth(d.year, d.month) {
      DayOfWeekNextDay(d);
    } else {
      var e := NextDay(d);
      var a := MonthOffset(d.year, d.month) + d.day;
      var b := MonthOffset(e.year, e.month) + 1;
      MonthOffsetStep(d);
      assert b - (a + 1) == -28 || b - (a + 1) == -35;
      assert DayOfWeek(e) == b % 7 && DayOfWeek(d) == a % 7;
      SameResidue(b, a + 1);
      SuccessorModSeven(a);
    }
  }

  lemma SameResidue(b: int, a: int)
    requires (b - a) % 7 == 0
    ensures b % 7 == a % 7
  {
    var q := (b - a) / 7;
    assert b == a + 7 * q;
  }

  /** Weekdays of known dates: Monday 1 January 2024, Saturday 6 January 2024, Saturday 1 January 2000, Thursday 1 January 1970. */
  lemma DayOfWeekAnchors()
    ensures DayOfWeek(Date(2024, 1, 1)) == 1
    ensures DayOfWeek(Date(2024, 1, 6)) == 6 && IsWeekend(Date(2024, 1, 6))
    ensures DayOfWeek(Date(2000, 1, 1)) == 6
    ensures DayOfWeek(Date(1970, 1, 1)) == 4
  {
  }

  /** `EXTRACT(DOW FROM d) IN (0, 6)`. */
  predicate IsWeekend(d: CalendarDate) {
    DayOfWeek(d) == 0 || DayOfWeek(d) == 6
  }
}
