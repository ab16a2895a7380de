/**
 * The HolidayPlanner class: a validating constructor for a start/end pair of
 * dates and two counting queries over the days between them.
 */
module Planner {
  import opened Outcomes
  import opened Calendar

  /** The longest accepted distance, in days, from the first to the last day of a period. */
  const MAX_TIME_SPAN: nat := 50

  /** The three exceptions the constructor throws, in the order it checks for them. */
  datatype PlannerError =
    | NotChronologicalOrder   // "Holiday period not in chronological order"
    | InvalidHolidayPeriod    // "Invalid holiday period"
    | TooLongHolidayPeriod    // "Too long holiday period"

  /** First check of the constructor: the end lies strictly after the start, which is a later date in field order. */
  predicate IsChronologicalOrder(startDate: CalDate, endDate: CalDate)
    ensures IsChronologicalOrder(startDate, endDate) <==> LexLess(startDate, endDate)
  {
    After(endDate, startDate)
  }

  /**
   * Second check of the constructor, the "holiday season" rule on the YEAR and
   * 0-based MONTH fields, with its branches in the order written.
   */
  predicate IsOnHolidayPeriod(startDate: CalDate, endDate: CalDate)
    ensures IsOnHolidayPeriod(startDate, endDate) ==> startDate.year <= endDate.year
    ensures startDate.year < endDate.year ==> IsOnHolidayPeriod(startDate, endDate)
    ensures startDate.year == endDate.year && startDate.month < MAY ==>
      (IsOnHolidayPeriod(startDate, endDate) <==> endDate.month < MAY)
    ensures startDate.year == endDate.year && MAY <= startDate.month ==>
      (IsOnHolidayPeriod(startDate, endDate) <==> startDate.month <= endDate.month)
  {
    var sYear, eYear := startDate.year, endDate.year;
    var sMonth, eMonth := startDate.month, endDate.month;
    if sYear > eYear then false
    else if sYear == eYear then
      if sMonth < 4 then eMonth < 4 else eMonth >= sMonth
    else true
  }

  /** Third check of the constructor: the end is not after the start moved on by MAX_TIME_SPAN days. */
  predicate IsUnderMaxLength(startDate: CalDate, endDate: CalDate)
    ensures IsUnderMaxLength(startDate, endDate) <==> DaysBetween(startDate, endDate) <= MAX_TIME_SPAN
  {
    var test := AddDays(startDate, MAX_TIME_SPAN);
    !Before(test, endDate)
  }

  /** The 0-based month number of May, the first month the season rule keeps apart from January-April. */
  const MAY: int := 4

  /** A same-year period that begins in January-April (months 0-3) and ends in May-December (months 4-11). */
  predicate CrossesIntoMay(startDate: Date, endDate: Date) {
    startDate.year == endDate.year && startDate.month < MAY && endDate.month >= MAY
  }

  /**
   * Once the dates are known to be in order, the season rule rejects exactly the
   * same-year periods that run from January-April into May-December.
   */
  lemma {:induction false} SeasonRuleOnOrderedPeriods(startDate: CalDate, endDate: CalDate)
    requires IsChronologicalOrder(startDate, endDate)
    ensures IsOnHolidayPeriod(startDate, endDate) <==> !CrossesIntoMay(startDate, endDate)
  {
  }

  /**
   * The constructor's checks in its order; None when all pass. The first failing
   * check decides the error, so an out-of-order pair always reports the order
   * error and a pair failing both later checks reports the season error.
   */
  function Validate(startDate: CalDate, endDate: CalDate): (r: Option<PlannerError>)
    ensures r == Some(NotChronologicalOrder) <==> !LexLess(startDate, endDate)
    ensures r == Some(InvalidHolidayPeriod) <==>
      LexLess(startDate, endDate) && CrossesIntoMay(startDate, endDate)
    ensures r == Some(TooLongHolidayPeriod) <==>
      LexLess(startDate, endDate) && !CrossesIntoMay(startDate, endDate)
      && DaysBetween(startDate, endDate) > MAX_TIME_SPAN
    ensures r == None ==> 1 <= DaysBetween(startDate, endDate) <= MAX_TIME_SPAN
  {
    if !IsChronologicalOrder(startDate, endDate) then
      Some(NotChronologicalOrder)
    else
      SeasonRuleOnOrderedPeriods(startDate, endDate);
      if !IsOnHolidayPeriod(startDate, endDate) then
        Some(InvalidHolidayPeriod)
      else if !IsUnderMaxLength(startDate, endDate) then
        Some(TooLongHolidayPeriod)
      else
        None
  }

  /** Every day from `startDate` to `endDate`, both included, in calendar order. */
  function DateRange(startDate: CalDate, endDate: CalDate): (r: seq<CalDate>)
    ensures |r| == if Before(endDate, startDate) then 0 else DaysBetween(startDate, endDate) + 1
    decreases DayNumber(endDate) - DayNumber(startDate)
  {
    if DayNumber(startDate) > DayNumber(endDate) then []
    else if DayNumber(startDate) == DayNumber(endDate) then [startDate]
    else [startDate] + DateRange(NextDay(startDate), endDate)
  }

  /** The i-th day of a range is its first day moved on by i days. */
  lemma {:induction false} DateRangeAt(startDate: CalDate, endDate: CalDate, i: nat)
    requires i < |DateRange(startDate, endDate)|
    ensures DateRange(startDate, endDate)[i] == AddDays(startDate, i)
    decreases DayNumber(endDate) - DayNumber(startDate)
  {
    if i > 0 {
      DateRangeAt(NextDay(startDate), endDate, i - 1);
    }
  }

  /** A range holds exactly the dates from its first to its last day. */
  lemma DateRangeMembers(startDate: CalDate, endDate: CalDate, d: CalDate)
    ensures d in DateRange(startDate, endDate) <==>
      !Before(d, startDate) && !Before(endDate, d)
  {
    var r := DateRange(startDate, endDate);
    if d in r {
      var i :| 0 <= i < |r| && r[i] == d;
      DateRangeAt(startDate, endDate, i);
    }
    if !Before(d, startDate) && !Before(endDate, d) {
      var i := DaysBetween(startDate, d);
      DateRangeAt(startDate, endDate, i);
      DayNumberInjective(r[i], d);
    }
  }

  /** A range lists each of its days once, in strictly increasing order. */
  lemma DateRangeIncreasing(startDate: CalDate, endDate: CalDate, i: nat, j: nat)
    requires i < j < |DateRange(startDate, endDate)|
    ensures Before(DateRange(startDate, endDate)[i], DateRange(startDate, endDate)[j])
  {
    DateRangeAt(startDate, endDate, i);
    DateRangeAt(startDate, endDate, j);
  }

  /** A day that can be spent from the holiday allowance: neither a Sunday nor a listed national holiday. */
  predicate IsConsumable(d: CalDate, holidays: seq<CalDate>)
    ensures IsConsumable(d, holidays) <==>
      WeekdayOf(DayNumber(d)) != SUNDAY && DayNumber(d) !in HolidayNumbers(holidays)
  {
    HolidayNumbersMember(d, holidays);
    DayOfWeek(d) != SUNDAY && d !in holidays
  }

  /** How many of the days in `ds` are consumable. */
  function CountConsumable(ds: seq<CalDate>, holidays: seq<CalDate>): (n: nat)
    ensures n <= |ds|
  {
    if ds == [] then 0
    else
      var here := if IsConsumable(ds[0], holidays) then 1 else 0;
      here + CountConsumable(ds[1..], holidays)
  }

  /** The number of consumable days from `startDate` to `endDate`, both included. */
  function ConsumableDays(startDate: CalDate, endDate: CalDate, holidays: seq<CalDate>): (n: nat)
    ensures Before(endDate, startDate) ==> n == 0
    ensures !Before(endDate, startDate) ==> n <= DaysBetween(startDate, endDate) + 1
  {
    CountConsumable(DateRange(startDate, endDate), holidays)
  }

  /** Counting a range is counting its first day and then the rest of it. */
  lemma ConsumableDaysStep(startDate: CalDate, endDate: CalDate, holidays: seq<CalDate>)
    requires Before(startDate, endDate)
    ensures ConsumableDays(startDate, endDate, holidays)
      == (if IsConsumable(startDate, holidays) then 1 else 0) + ConsumableDays(NextDay(startDate), endDate, holidays)
  {
    var r := DateRange(startDate, endDate);
    assert r[1..] == DateRange(NextDay(startDate), endDate);
  }

  /** The set of the consumable days of `ds`. */
  function ConsumableSet(ds: seq<CalDate>, holidays: seq<CalDate>): set<CalDate> {
    set d | d in ds && IsConsumable(d, holidays)
  }

  /** On a list without repetitions, the count is the size of the set of consumable days it holds. */
  lemma {:induction false} CountConsumableIsSetSize(ds: seq<CalDate>, holidays: seq<CalDate>)
    requires forall i, j :: 0 <= i < j < |ds| ==> ds[i] != ds[j]
    ensures CountConsumable(ds, holidays) == |ConsumableSet(ds, holidays)|
  {
    if ds != [] {
      var rest := ds[1..];
      assert forall i, j :: 0 <= i < j < |rest| ==> rest[i] != rest[j] by {
        forall i, j | 0 <= i < j < |rest| ensures rest[i] != rest[j] {
          assert rest[i] == ds[i + 1] && rest[j] == ds[j + 1];
        }
      }
      CountConsumableIsSetSize(rest, holidays);
      assert ds[0] !in rest by {
        forall k | 0 <= k < |rest| ensures rest[k] != ds[0] {
          assert rest[k] == ds[k + 1];
        }
      }
      ConsumableSetCons(ds, holidays);
    }
  }

  /** The consumable set of a list is that of its tail, with its head added when that is consumable. */
  lemma ConsumableSetCons(ds: seq<CalDate>, holidays: seq<CalDate>)
    requires ds != []
    ensures ConsumableSet(ds, holidays)
      == ConsumableSet(ds[1..], holidays) + (if IsConsumable(ds[0], holidays) then {ds[0]} else {})
  {
    assert ds == [ds[0]] + ds[1..];
  }

  /**
   * The consumable days of a period are the size of the set of dates d with
   * startDate <= d <= endDate that are neither a Sunday nor a listed holiday.
   */
  lemma ConsumableDaysCountsDates(startDate: CalDate, endDate: CalDate, holidays: seq<CalDate>)
    ensures ConsumableDays(startDate, endDate, holidays) == |ConsumableSet(DateRange(startDate, endDate), holidays)|
    ensures forall d: CalDate :: d in ConsumableSet(DateRange(startDate, endDate), holidays) <==>
      !Before(d, startDate) && !Before(endDate, d) && DayOfWeek(d) != SUNDAY && d !in holidays
  {
    var r := DateRange(startDate, endDate);
    forall i, j | 0 <= i < j < |r| ensures r[i] != r[j] {
      DateRangeIncreasing(startDate, endDate, i, j);
    }
    CountConsumableIsSetSize(r, holidays);
    forall d: CalDate ensures d in r <==> !Before(d, startDate) && !Before(endDate, d) {
      DateRangeMembers(startDate, endDate, d);
    }
  }

  /** Two holiday lists that agree on the days of `ds` give the same count, whatever their order, repetitions or other entries. */
  lemma {:induction false} CountConsumableOnlyNeedsMembership(ds: seq<CalDate>, h1: seq<CalDate>, h2: seq<CalDate>)
    requires forall k :: 0 <= k < |ds| ==> (ds[k] in h1 <==> ds[k] in h2)
    ensures CountConsumable(ds, h1) == CountConsumable(ds, h2)
  {
    if ds != [] {
      CountConsumableOnlyNeedsMembership(ds[1..], h1, h2);
    }
  }

  /**
   * Only the listed holidays that fall inside the period matter to the count:
   * reordering, repeating or adding holidays outside it changes nothing.
   */
  lemma ConsumableDaysOnlyNeedHolidaysInPeriod(startDate: CalDate, endDate: CalDate, h1: seq<CalDate>, h2: seq<CalDate>)
    requires forall d: CalDate :: !Before(d, startDate) && !Before(endDate, d) ==> (d in h1 <==> d in h2)
    ensures ConsumableDays(startDate, endDate, h1) == ConsumableDays(startDate, endDate, h2)
  {
    var r := DateRange(startDate, endDate);
    forall k | 0 <= k < |r| ensures r[k] in h1 <==> r[k] in h2 {
      DateRangeMembers(startDate, endDate, r[k]);
    }
    CountConsumableOnlyNeedsMembership(r, h1, h2);
  }

  /** The day numbers of the listed holidays. */
  function HolidayNumbers(holidays: seq<CalDate>): set<int> {
    set d | d in holidays :: DayNumber(d)
  }

  /** A date is listed exactly when some listed holiday falls on the same instant. */
  lemma HolidayNumbersMember(d: CalDate, holidays: seq<CalDate>)
    ensures d in holidays <==> DayNumber(d) in HolidayNumbers(holidays)
  {
    if DayNumber(d) in HolidayNumbers(holidays) {
      var h :| h in holidays && DayNumber(h) == DayNumber(d);
      DayNumberInjective(h, d);
    }
  }

  /**
   * The same count stated on day numbers alone: the numbers from `first` to
   * `last` whose weekday is not Sunday and that no holiday carries.
   */
  function CountOnDayNumbers(first: int, last: int, holidayNumbers: set<int>): nat
    decreases last - first
  {
    if first > last then 0
    else
      var here := if WeekdayOf(first) != SUNDAY && first !in holidayNumbers then 1 else 0;
      here + CountOnDayNumbers(first + 1, last, holidayNumbers)
  }

  /** Walking the calendar and counting day numbers agree on every period and every holiday list. */
  lemma {:induction false} ConsumableDaysOnDayNumbers(startDate: CalDate, endDate: CalDate, holidays: seq<CalDate>)
    ensures ConsumableDays(startDate, endDate, holidays)
      == CountOnDayNumbers(DayNumber(startDate), DayNumber(endDate), HolidayNumbers(holidays))
    decreases DayNumber(endDate) - DayNumber(startDate)
  {
    if DayNumber(startDate) < DayNumber(endDate) {
      ConsumableDaysStep(startDate, endDate, holidays);
      ConsumableDaysOnDayNumbers(NextDay(startDate), endDate, holidays);
    }
  }

  class HolidayPlanner {
    const startDate: CalDate
    const endDate: CalDate
    const nationalHolidays: seq<CalDate>

    /** What the validating constructor establishes: the stored period passes all three checks. */
    ghost predicate Valid() {
      Validate(startDate, endDate) == None
    }

    /** Stores the dates and the holiday list once every check has passed. */
    constructor (startDate: CalDate, endDate: CalDate, nationalHolidays: seq<CalDate>)
      requires Validate(startDate, endDate) == None
      ensures Valid()
      ensures this.startDate == startDate && this.endDate == endDate
      ensures this.nationalHolidays == nationalHolidays
    {
      this.nationalHolidays := nationalHolidays;
      this.startDate := startDate;
      this.endDate := endDate;
    }

    /**
     * The throwing constructor: runs the three checks in order and either
     * reports the first failure or yields a planner holding the given values.
     */
    static method Create(startDate: CalDate, endDate: CalDate, nationalHolidays: seq<CalDate>)
      returns (r: Result<HolidayPlanner, PlannerError>)
      ensures r.Failure? <==> Validate(startDate, endDate).Some?
      ensures r.Failure? ==> Validate(startDate, endDate) == Some(r.error)
      ensures r.Success? ==> fresh(r.value) && r.value.Valid()
      ensures r.Success? ==> r.value.startDate == startDate && r.value.endDate == endDate
      ensures r.Success? ==> r.value.nationalHolidays == nationalHolidays
    {
      if !IsChronologicalOrder(startDate, endDate) {
        return Failure(NotChronologicalOrder);
      }
      if !IsOnHolidayPeriod(startDate, endDate) {
        return Failure(InvalidHolidayPeriod);
      }
      if !IsUnderMaxLength(startDate, endDate) {
        return Failure(TooLongHolidayPeriod);
      }
      var planner := new HolidayPlanner(startDate, endDate, nationalHolidays);
      return Success(planner);
    }

    /** Linear search of the holiday list for a day equal to `date`. */
    method IsNationalHolidayDay(date: CalDate) returns (found: bool)
      ensures found <==> date in nationalHolidays
    {
      for i := 0 to |nationalHolidays|
        invariant date !in nationalHolidays[..i]
      {
        if nationalHolidays[i] == date {
          return true;
        }
      }
      return false;
    }

    /**
     * Walks a cursor from the first day to the day before the last, counting the
     * consumable days, then counts the last day separately.
     */
    method GetHolidayPeriodConsumableDays() returns (holidayCount: int)
      requires Valid()
      ensures holidayCount == ConsumableDays(startDate, endDate, nationalHolidays)
      ensures 0 <= holidayCount <= DaysBetween(startDate, endDate) + 1
    {
      holidayCount := 0;
      var cal := startDate;
      while true
        invariant !Before(cal, startDate) && Before(cal, endDate)
        invariant holidayCount + ConsumableDays(cal, endDate, nationalHolidays)
          == ConsumableDays(startDate, endDate, nationalHolidays)
        decreases DaysBetween(cal, endDate)
      {
        ConsumableDaysStep(cal, endDate, nationalHolidays);
        var isHoliday := IsNationalHolidayDay(cal);
        if DayOfWeek(cal) != SUNDAY && !isHoliday {
          holidayCount := holidayCount + 1;
        }
        cal := NextDay(cal);
        if cal == endDate {
          break;
        }
        DayNumberInjective(cal, endDate);
      }
      // the loop stops on the last day without counting it
      var isHoliday := IsNationalHolidayDay(cal);
      if DayOfWeek(endDate) != SUNDAY && !isHoliday {
        holidayCount := holidayCount + 1;
      }
    }

    /** Walks a cursor from the first day to the last, counting both ends. */
    method GetPeriodLength() returns (daysCount: int)
      requires Valid()
      ensures daysCount == |DateRange(startDate, endDate)|
      ensures 2 <= daysCount <= MAX_TIME_SPAN + 1
    {
      daysCount := 0;
      var cal := startDate;
      while true
        invariant !Before(cal, startDate) && Before(cal, endDate)
        invariant daysCount == DaysBetween(startDate, cal)
        decreases DaysBetween(cal, endDate)
      {
        daysCount := daysCount + 1;
        cal := NextDay(cal);
        if cal == endDate {
          break;
        }
        DayNumberInjective(cal, endDate);
      }
      // the loop stops on the last day without counting it
      return daysCount + 1;
    }
  }
}
