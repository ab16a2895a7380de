/**
 * Proleptic Gregorian calendar arithmetic standing in for java.util.GregorianCalendar
 * as the planner uses it: calendars set to midnight of a day, compared with
 * `after`, `before` and `equals`, advanced with `add(DAY_OF_YEAR, n)` and asked for
 * their DAY_OF_WEEK.
 *
 * Every instant comparison the planner makes is between midnights, so it is a
 * comparison of day numbers: `DayNumber` counts days from 0001-01-01.
 */
module Calendar {

  /** The YEAR, MONTH and DATE fields of a calendar. MONTH is 0-based as in java.util.Calendar: 0 is January, 11 December. */
  datatype Date = Date(year: int, month: int, day: int)

  const JANUARY: int := 0
  const FEBRUARY: int := 1
  const DECEMBER: int := 11

  /** java.util.Calendar's DAY_OF_WEEK values run from SUNDAY = 1 to SATURDAY = 7. */
  const SUNDAY: int := 1
  const MONDAY: int := 2
  const SATURDAY: int := 7

  predicate IsLeapYear(y: int) {
    y % 4 == 0 && (y % 100 != 0 || y % 400 == 0)
  }

  function YearLength(y: int): int {
    if IsLeapYear(y) then 366 else 365
  }

  function DaysInMonth(y: int, m: int): (n: int)
    requires JANUARY <= m <= DECEMBER
    ensures 28 <= n <= 31
    ensures n == 29 <==> m == FEBRUARY && IsLeapYear(y)
  {
    if m == FEBRUARY then (if IsLeapYear(y) then 29 else 28)
    else if m == 3 || m == 5 || m == 8 || m == 10 then 30
    else 31
  }

  /** A triple that names a real day: the only kind of value a non-lenient calendar holds. */
  predicate IsValidDate(d: Date) {
    JANUARY <= d.month <= DECEMBER && 1 <= d.day <= DaysInMonth(d.year, d.month)
  }

  type CalDate = d: Date | IsValidDate(d) witness Date(1970, JANUARY, 1)

  /** Days from 0001-01-01 to January 1st of year `y` (negative before year 1). */
  function DaysBeforeYear(y: int): int {
    var p := y - 1;
    365 * p + p / 4 - p / 100 + p / 400
  }

  /** Days in the months of year `y` that come before month `m`. */
  function DaysBeforeMonth(y: int, m: int): (n: int)
    requires JANUARY <= m <= DECEMBER + 1
    ensures 28 * m <= n <= 31 * m
  {
    if m == JANUARY then 0 else DaysBeforeMonth(y, m - 1) + DaysInMonth(y, m - 1)
  }

  /** The day's distance from 0001-01-01: the millisecond instant of its midnight, in days. */
  function DayNumber(d: CalDate): int {
    DaysBeforeYear(d.year) + DaysBeforeMonth(d.year, d.month) + d.day - 1
  }

  /** Calendar.before on two midnights: comparing the instants orders the dates field by field. */
  predicate Before(a: CalDate, b: CalDate)
    ensures Before(a, b) <==> LexLess(a, b)
  {
    DayNumberOrder(a, b);
    DayNumber(a) < DayNumber(b)
  }

  /** Calendar.after on two midnights: comparing the instants orders the dates field by field. */
  predicate After(a: CalDate, b: CalDate)
    ensures After(a, b) <==> LexLess(b, a)
  {
    DayNumberOrder(b, a);
    DayNumber(a) > DayNumber(b)
  }

  /** Number of days from `a` forward to `b` (negative when `b` is earlier). */
  function DaysBetween(a: CalDate, b: CalDate): int {
    DayNumber(b) - DayNumber(a)
  }

  /** Field-wise chronological order: year first, then month, then day of month. */
  predicate LexLess(a: Date, b: Date) {
    a.year < b.year
    || (a.year == b.year && a.month < b.month)
    || (a.year == b.year && a.month == b.month && a.day < b.day)
  }

  /** One step of the leap-year count: `x / k` grows by one exactly when `x` reaches a multiple of `k`. */
  lemma DivStep(x: int, k: int)
    requires k == 4 || k == 100 || k == 400
    ensures (x + 1) / k == x / k + (if (x + 1) % k == 0 then 1 else 0)
  {
  }

  lemma {:induction false} DaysBeforeYearStep(y: int)
    ensures DaysBeforeYear(y + 1) == DaysBeforeYear(y) + YearLength(y)
  {
    DivStep(y - 1, 4);
    DivStep(y - 1, 100);
    DivStep(y - 1, 400);
  }

  lemma WholeYear(y: int)
    ensures DaysBeforeMonth(y, DECEMBER + 1) == YearLength(y)
  {
    var leap := if IsLeapYear(y) then 1 else 0;
    assert DaysBeforeMonth(y, 1) == 31;
    assert DaysBeforeMonth(y, 2) == 59 + leap;
    assert DaysBeforeMonth(y, 3) == 90 + leap;
    assert DaysBeforeMonth(y, 4) == 120 + leap;
    assert DaysBeforeMonth(y, 5) == 151 + leap;
    assert DaysBeforeMonth(y, 6) == 181 + leap;
    assert DaysBeforeMonth(y, 7) == 212 + leap;
    assert DaysBeforeMonth(y, 8) == 243 + leap;
    assert DaysBeforeMonth(y, 9) == 273 + leap;
    assert DaysBeforeMonth(y, 10) == 304 + leap;
    assert DaysBeforeMonth(y, 11) == 334 + leap;
  }

  lemma {:induction false} DaysBeforeMonthMonotone(y: int, m1: int, m2: int)
    requires JANUARY <= m1 < m2 <= DECEMBER + 1
    ensures DaysBeforeMonth(y, m1) + DaysInMonth(y, m1) <= DaysBeforeMonth(y, m2)
    decreases m2 - m1
  {
    if m1 + 1 < m2 {
      DaysBeforeMonthMonotone(y, m1 + 1, m2);
    }
  }

  lemma {:induction false} DaysBeforeYearMonotone(y1: int, y2: int)
    requires y1 < y2
    ensures DaysBeforeYear(y1) + YearLength(y1) <= DaysBeforeYear(y2)
    decreases y2 - y1
  {
    DaysBeforeYearStep(y1);
    if y1 + 1 < y2 {
      DaysBeforeYearMonotone(y1 + 1, y2);
    }
  }

  /** A day's number lies inside its own year and its own month. */
  lemma DayNumberBounds(d: CalDate)
    ensures DaysBeforeYear(d.year) <= DayNumber(d) < DaysBeforeYear(d.year) + YearLength(d.year)
  {
    WholeYear(d.year);
    if d.month < DECEMBER {
      DaysBeforeMonthMonotone(d.year, d.month, DECEMBER + 1);
    }
  }

  lemma {:induction false} LexLessImpliesBefore(a: CalDate, b: CalDate)
    requires LexLess(a, b)
    ensures DayNumber(a) < DayNumber(b)
  {
    if a.year < b.year {
      DayNumberBounds(a);
      DayNumberBounds(b);
      DaysBeforeYearMonotone(a.year, b.year);
    } else if a.month < b.month {
      DaysBeforeMonthMonotone(a.year, a.month, b.month);
    }
  }

  /** Comparing midnights by instant agrees with comparing the date fields in order. */
  lemma {:induction false} DayNumberOrder(a: CalDate, b: CalDate)
    ensures DayNumber(a) < DayNumber(b) <==> LexLess(a, b)
  {
    if LexLess(a, b) {
      LexLessImpliesBefore(a, b);
    } else if LexLess(b, a) {
      LexLessImpliesBefore(b, a);
    }
  }

  /** Two calendars at the same instant show the same date: equality of dates is equality of instants. */
  lemma {:induction false} DayNumberInjective(a: CalDate, b: CalDate)
    ensures DayNumber(a) == DayNumber(b) <==> a == b
  {
    if LexLess(a, b) {
      LexLessImpliesBefore(a, b);
    } else if LexLess(b, a) {
      LexLessImpliesBefore(b, a);
    }
  }

  /** The calendar after `cal.add(DAY_OF_YEAR, 1)`. */
  function NextDay(d: CalDate): (r: CalDate)
    ensures DayNumber(r) == DayNumber(d) + 1
    ensures LexLess(d, r)
  {
    if d.day < DaysInMonth(d.year, d.month) then
      Date(d.year, d.month, d.day + 1)
    else if d.month < DECEMBER then
      Date(d.year, d.month + 1, 1)
    else
      DaysBeforeYearStep(d.year);
      WholeYear(d.year);
      Date(d.year + 1, JANUARY, 1)
  }

  /** The calendar after `cal.add(DAY_OF_YEAR, n)` for a non-negative `n`. */
  function AddDays(d: CalDate, n: nat): (r: CalDate)
    ensures DayNumber(r) == DayNumber(d) + n
    decreases n
  {
    if n == 0 then d else AddDays(NextDay(d), n - 1)
  }

  /** DAY_OF_WEEK of a date: 0001-01-01 of the proleptic Gregorian calendar is a Monday. */
  function DayOfWeek(d: CalDate): (w: int)
    ensures SUNDAY <= w <= SATURDAY
    ensures w == SUNDAY <==> DayNumber(d) % 7 == 6
  {
    WeekdayOf(DayNumber(d))
  }

  /** The weekday of day number `n`, counting Monday as day 0. */
  function WeekdayOf(n: int): (w: int)
    ensures SUNDAY <= w <= SATURDAY
    ensures w == SUNDAY <==> n % 7 == 6
  {
    (n + 1) % 7 + 1
  }

  /** Weekdays follow each other in order, Saturday wrapping round to Sunday. */
  lemma NextDayOfWeek(d: CalDate)
    ensures DayOfWeek(NextDay(d)) == if DayOfWeek(d) == SATURDAY then SUNDAY else DayOfWeek(d) + 1
  {
    var n := DayNumber(d);
    assert DayNumber(NextDay(d)) == n + 1;
    WeekdaySuccessor(n);
  }

  lemma WeekdaySuccessor(n: int)
    ensures WeekdayOf(n + 1) == if WeekdayOf(n) == SATURDAY then SUNDAY else WeekdayOf(n) + 1
  {
  }

  /** Anchors the weekday count: 0001-01-01 is a Monday and 2021-01-03 a Sunday. */
  lemma WeekdayAnchors()
    ensures DayOfWeek(Date(1, JANUARY, 1)) == MONDAY
    ensures DayOfWeek(Date(2021, JANUARY, 3)) == SUNDAY
  {
    DayNumberAnchors();
  }

  lemma DayNumberAnchors()
    ensures DayNumber(Date(1, JANUARY, 1)) == 0
    ensures DayNumber(Date(2021, JANUARY, 3)) == 737792
  {
  }
}
