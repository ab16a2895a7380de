/**
 * Worked examples: the periods, holiday lists and date texts of the
 * planner's test scenarios, run through the model.
 */
module Scenarios {
  import opened Outcomes
  import opened Calendar
  import opened Planner
  import opened DateText

  /** The Russian national holidays of 2021 that fall in January. */
  const RussianJanuaryHolidays: seq<CalDate> := [
    Date(2021, 0, 1), Date(2021, 0, 2), Date(2021, 0, 3), Date(2021, 0, 4), Date(2021, 0, 5),
    Date(2021, 0, 6), Date(2021, 0, 7), Date(2021, 0, 8), Date(2021, 0, 9), Date(2021, 0, 10)
  ]

  /** The rest of the Russian national holidays of 2021, all after January. */
  const RussianLaterHolidays: seq<CalDate> := [
    Date(2021, 1, 21), Date(2021, 1, 22), Date(2021, 1, 23), Date(2021, 2, 6), Date(2021, 2, 7),
    Date(2021, 2, 8), Date(2021, 4, 1), Date(2021, 4, 2), Date(2021, 4, 3), Date(2021, 4, 8),
    Date(2021, 4, 9), Date(2021, 4, 10), Date(2021, 5, 12), Date(2021, 5, 13), Date(2021, 5, 14),
    Date(2021, 10, 4), Date(2021, 10, 5), Date(2021, 10, 6), Date(2021, 10, 7), Date(2021, 11, 31)
  ]

  /** The Russian national holidays of 2021, in the order the list gives them. */
  const RussianHolidays2021: seq<CalDate> := RussianJanuaryHolidays + RussianLaterHolidays

  /** Holidays from Christmas 2020 to Epiphany 2021. */
  const ChristmasHolidays: seq<CalDate> := [
    Date(2020, 11, 24), Date(2020, 11, 25), Date(2021, 0, 1), Date(2021, 0, 6)
  ]

  /** Counting on day numbers over two adjacent stretches adds up. */
  lemma {:induction false} CountOnDayNumbersSplit(first: int, middle: int, last: int, holidayNumbers: set<int>)
    requires first <= middle <= last
    ensures CountOnDayNumbers(first, last, holidayNumbers)
      == CountOnDayNumbers(first, middle, holidayNumbers) + CountOnDayNumbers(middle + 1, last, holidayNumbers)
    decreases middle - first
  {
    if first < middle {
      CountOnDayNumbersSplit(first + 1, middle, last, holidayNumbers);
    }
  }

  lemma RussianJanuaryHolidayNumbers()
    ensures HolidayNumbers(RussianJanuaryHolidays) == {737790, 737791, 737792, 737793, 737794, 737795, 737796, 737797, 737798, 737799}
  {
    assert DayNumber(Date(2021, 0, 1)) == 737790;
    assert DayNumber(Date(2021, 0, 2)) == 737791;
    assert DayNumber(Date(2021, 0, 3)) == 737792;
    assert DayNumber(Date(2021, 0, 4)) == 737793;
    assert DayNumber(Date(2021, 0, 5)) == 737794;
    assert DayNumber(Date(2021, 0, 6)) == 737795;
    assert DayNumber(Date(2021, 0, 7)) == 737796;
    assert DayNumber(Date(2021, 0, 8)) == 737797;
    assert DayNumber(Date(2021, 0, 9)) == 737798;
    assert DayNumber(Date(2021, 0, 10)) == 737799;
  }

  lemma ChristmasHolidayNumbers()
    ensures HolidayNumbers(ChristmasHolidays) == {737782, 737783, 737790, 737795}
  {
    assert DayNumber(Date(2020, 11, 24)) == 737782;
    assert DayNumber(Date(2020, 11, 25)) == 737783;
    assert DayNumber(Date(2021, 0, 1)) == 737790;
    assert DayNumber(Date(2021, 0, 6)) == 737795;
  }

  lemma NoHolidayNumbers()
    ensures HolidayNumbers([]) == {}
  {
  }

  /**
   * January 2021 with the Russian list: 31 days, of which 5 are Sundays and 8
   * are weekday holidays, leave 18 consumable days. The holidays after January
   * play no part.
   */
  lemma RussianJanuary()
    ensures Validate(Date(2021, 0, 1), Date(2021, 0, 31)) == None
    ensures ConsumableDays(Date(2021, 0, 1), Date(2021, 0, 31), RussianHolidays2021) == 18
  {
    var e: CalDate := Date(2021, 0, 31);
    assert DayNumber(Date(2021, 0, 1)) == 737790;
    assert DayNumber(Date(2021, 0, 31)) == 737820;
    assert forall x :: x in RussianLaterHolidays ==> Before(e, x);
    ConsumableDaysOnlyNeedHolidaysInPeriod(Date(2021, 0, 1), e, RussianHolidays2021, RussianJanuaryHolidays);
    RussianJanuaryWithJanuaryHolidays();
  }

  /** January 2021 counted against the January part of the Russian list. */
  lemma RussianJanuaryWithJanuaryHolidays()
    ensures ConsumableDays(Date(2021, 0, 1), Date(2021, 0, 31), RussianJanuaryHolidays) == 18
  {
    assert DayNumber(Date(2021, 0, 1)) == 737790;
    assert DayNumber(Date(2021, 0, 31)) == 737820;
    ConsumableDaysOnDayNumbers(Date(2021, 0, 1), Date(2021, 0, 31), RussianJanuaryHolidays);
    RussianJanuaryHolidayNumbers();
    RussianJanuaryWithJanuaryHolidaysOnDayNumbers();
  }

  lemma RussianJanuaryWithJanuaryHolidaysOnDayNumbers()
    ensures CountOnDayNumbers(737790, 737820, {737790, 737791, 737792, 737793, 737794, 737795, 737796, 737797, 737798, 737799}) == 18
  {
    var hs := {737790, 737791, 737792, 737793, 737794, 737795, 737796, 737797, 737798, 737799};
    CountOnDayNumbersSplit(737790, 737799, 737820, hs);
    CountOnDayNumbersSplit(737800, 737809, 737820, hs);
    CountOnDayNumbersSplit(737810, 737819, 737820, hs);
    RussianJanuaryWithJanuaryHolidaysPart1();
    RussianJanuaryWithJanuaryHolidaysPart2();
    RussianJanuaryWithJanuaryHolidaysPart3();
    RussianJanuaryWithJanuaryHolidaysPart4();
  }

  lemma RussianJanuaryWithJanuaryHolidaysPart1()
    ensures CountOnDayNumbers(737790, 737799, {737790, 737791, 737792, 737793, 737794, 737795, 737796, 737797, 737798, 737799}) == 0
  {
  }

  lemma RussianJanuaryWithJanuaryHolidaysPart2()
    ensures CountOnDayNumbers(737800, 737809, {737790, 737791, 737792, 737793, 737794, 737795, 737796, 737797, 737798, 737799}) == 9
  {
  }

  lemma RussianJanuaryWithJanuaryHolidaysPart3()
    ensures CountOnDayNumbers(737810, 737819, {737790, 737791, 737792, 737793, 737794, 737795, 737796, 737797, 737798, 737799}) == 9
  {
  }

  lemma RussianJanuaryWithJanuaryHolidaysPart4()
    ensures CountOnDayNumbers(737820, 737820, {737790, 737791, 737792, 737793, 737794, 737795, 737796, 737797, 737798, 737799}) == 0
  {
  }

  /** 1.12.2020 to 3.1.2021: 34 days, 5 Sundays and 3 weekday holidays leave 26 consumable days. */
  lemma ChristmasPeriod()
    ensures ConsumableDays(Date(2020, 11, 1), Date(2021, 0, 3), ChristmasHolidays) == 26
  {
    assert DayNumber(Date(2020, 11, 1)) == 737759;
    assert DayNumber(Date(2021, 0, 3)) == 737792;
    ConsumableDaysOnDayNumbers(Date(2020, 11, 1), Date(2021, 0, 3), ChristmasHolidays);
    ChristmasHolidayNumbers();
    ChristmasPeriodOnDayNumbers();
  }

  lemma ChristmasPeriodOnDayNumbers()
    ensures CountOnDayNumbers(737759, 737792, {737782, 737783, 737790, 737795}) == 26
  {
    var hs := {737782, 737783, 737790, 737795};
    CountOnDayNumbersSplit(737759, 737768, 737792, hs);
    CountOnDayNumbersSplit(737769, 737778, 737792, hs);
    CountOnDayNumbersSplit(737779, 737788, 737792, hs);
    ChristmasPeriodPart1();
    ChristmasPeriodPart2();
    ChristmasPeriodPart3();
    ChristmasPeriodPart4();
  }

  lemma ChristmasPeriodPart1()
    ensures CountOnDayNumbers(737759, 737768, {737782, 737783, 737790, 737795}) == 9
  {
  }

  lemma ChristmasPeriodPart2()
    ensures CountOnDayNumbers(737769, 737778, {737782, 737783, 737790, 737795}) == 8
  {
  }

  lemma ChristmasPeriodPart3()
    ensures CountOnDayNumbers(737779, 737788, {737782, 737783, 737790, 737795}) == 7
  {
  }

  lemma ChristmasPeriodPart4()
    ensures CountOnDayNumbers(737789, 737792, {737782, 737783, 737790, 737795}) == 2
  {
  }

  /** June 2020 without holidays: 30 days less 4 Sundays leave 26. */
  lemma JuneWithoutHolidays()
    ensures ConsumableDays(Date(2020, 5, 1), Date(2020, 5, 30), []) == 26
  {
    assert DayNumber(Date(2020, 5, 1)) == 737576;
    assert DayNumber(Date(2020, 5, 30)) == 737605;
    ConsumableDaysOnDayNumbers(Date(2020, 5, 1), Date(2020, 5, 30), []);
    NoHolidayNumbers();
    JuneWithoutHolidaysOnDayNumbers();
  }

  lemma JuneWithoutHolidaysOnDayNumbers()
    ensures CountOnDayNumbers(737576, 737605, {}) == 26
  {
    var hs := {};
    CountOnDayNumbersSplit(737576, 737585, 737605, hs);
    CountOnDayNumbersSplit(737586, 737595, 737605, hs);
    JuneWithoutHolidaysPart1();
    JuneWithoutHolidaysPart2();
    JuneWithoutHolidaysPart3();
  }

  lemma JuneWithoutHolidaysPart1()
    ensures CountOnDayNumbers(737576, 737585, {}) == 9
  {
  }

  lemma JuneWithoutHolidaysPart2()
    ensures CountOnDayNumbers(737586, 737595, {}) == 9
  {
  }

  lemma JuneWithoutHolidaysPart3()
    ensures CountOnDayNumbers(737596, 737605, {}) == 8
  {
  }

  /** 4.1.2021 to 22.2.2021: 50 days, 7 Sundays and Epiphany leave 42 consumable days. */
  lemma LongestWinterPeriod()
    ensures ConsumableDays(Date(2021, 0, 4), Date(2021, 1, 22), ChristmasHolidays) == 42
  {
    assert DayNumber(Date(2021, 0, 4)) == 737793;
    assert DayNumber(Date(2021, 1, 22)) == 737842;
    ConsumableDaysOnDayNumbers(Date(2021, 0, 4), Date(2021, 1, 22), ChristmasHolidays);
    ChristmasHolidayNumbers();
    LongestWinterPeriodOnDayNumbers();
  }

  lemma LongestWinterPeriodOnDayNumbers()
    ensures CountOnDayNumbers(737793, 737842, {737782, 737783, 737790, 737795}) == 42
  {
    var hs := {737782, 737783, 737790, 737795};
    CountOnDayNumbersSplit(737793, 737802, 737842, hs);
    CountOnDayNumbersSplit(737803, 737812, 737842, hs);
    CountOnDayNumbersSplit(737813, 737822, 737842, hs);
    CountOnDayNumbersSplit(737823, 737832, 737842, hs);
    LongestWinterPeriodPart1();
    LongestWinterPeriodPart2();
    LongestWinterPeriodPart3();
    LongestWinterPeriodPart4();
    LongestWinterPeriodPart5();
  }

  lemma LongestWinterPeriodPart1()
    ensures CountOnDayNumbers(737793, 737802, {737782, 737783, 737790, 737795}) == 8
  {
  }

  lemma LongestWinterPeriodPart2()
    ensures CountOnDayNumbers(737803, 737812, {737782, 737783, 737790, 737795}) == 9
  {
  }

  lemma LongestWinterPeriodPart3()
    ensures CountOnDayNumbers(737813, 737822, {737782, 737783, 737790, 737795}) == 8
  {
  }

  lemma LongestWinterPeriodPart4()
    ensures CountOnDayNumbers(737823, 737832, {737782, 737783, 737790, 737795}) == 9
  {
  }

  lemma LongestWinterPeriodPart5()
    ensures CountOnDayNumbers(737833, 737842, {737782, 737783, 737790, 737795}) == 8
  {
  }

  /** A period running over the new year is accepted. */
  lemma ChristmasPeriodAccepted()
    ensures Validate(Date(2020, 11, 1), Date(2021, 0, 3)) == None
  {
    assert DayNumber(Date(2020, 11, 1)) == 737759;
    assert DayNumber(Date(2021, 0, 3)) == 737792;
  }

  /** The end may be the start moved on by exactly 50 days: 4.1.2021 to 23.2.2021 is accepted. */
  lemma FiftyDaysAfterStartAccepted()
    ensures Validate(Date(2021, 0, 4), Date(2021, 1, 23)) == None
  {
    assert DayNumber(Date(2021, 0, 4)) == 737793;
    assert DayNumber(Date(2021, 1, 23)) == 737843;
  }

  /** 4.1.2021 to 24.2.2021 ends 51 days after its start and is too long. */
  lemma FiftyOneDaysAfterStartTooLong()
    ensures Validate(Date(2021, 0, 4), Date(2021, 1, 24)) == Some(TooLongHolidayPeriod)
  {
    assert DayNumber(Date(2021, 0, 4)) == 737793;
    assert DayNumber(Date(2021, 1, 24)) == 737844;
  }

  /** 15.3.2020 to 1.5.2020 runs from March into May of one year. */
  lemma MarchIntoMayRejected()
    ensures Validate(Date(2020, 2, 15), Date(2020, 4, 1)) == Some(InvalidHolidayPeriod)
  {
    assert DayNumber(Date(2020, 2, 15)) == 737498;
    assert DayNumber(Date(2020, 4, 1)) == 737545;
  }

  /** 15.3.2021 to 15.4.2021 stays within January-April and is accepted. */
  lemma MarchIntoAprilAccepted()
    ensures Validate(Date(2021, 2, 15), Date(2021, 3, 15)) == None
  {
    assert DayNumber(Date(2021, 2, 15)) == 737863;
    assert DayNumber(Date(2021, 3, 15)) == 737894;
  }

  /** 15.4.2021 to 15.5.2021 runs from April into May of one year. */
  lemma AprilIntoMayRejected()
    ensures Validate(Date(2021, 3, 15), Date(2021, 4, 15)) == Some(InvalidHolidayPeriod)
  {
    assert DayNumber(Date(2021, 3, 15)) == 737894;
    assert DayNumber(Date(2021, 4, 15)) == 737924;
  }

  /** 1.1.2021 to 1.6.2021 breaks both the season rule and the length limit; the season error is reported. */
  lemma SeasonReportedBeforeLength()
    ensures Validate(Date(2021, 0, 1), Date(2021, 5, 1)) == Some(InvalidHolidayPeriod)
  {
    assert DayNumber(Date(2021, 0, 1)) == 737790;
    assert DayNumber(Date(2021, 5, 1)) == 737941;
  }

  /** 15.6.2020 to 1.6.2020 is not in chronological order. */
  lemma ReversedDatesRejected()
    ensures Validate(Date(2020, 5, 15), Date(2020, 5, 1)) == Some(NotChronologicalOrder)
  {
    assert DayNumber(Date(2020, 5, 15)) == 737590;
    assert DayNumber(Date(2020, 5, 1)) == 737576;
  }

  /** A period must end strictly after it starts. */
  lemma SameDayRejected()
    ensures Validate(Date(2020, 5, 15), Date(2020, 5, 15)) == Some(NotChronologicalOrder)
  {
    assert DayNumber(Date(2020, 5, 15)) == 737590;
  }

  /** The date text of the planner's tests reads as day, 0-based month and year. */
  lemma TestDateText()
    ensures ParseDateText("15.6.2020") == Success(Date(2020, 5, 15))
  {
    assert DateTextOf(Date(2020, 5, 15)) == "15.6.2020";
    ParseDateTextRoundTrip(Date(2020, 5, 15));
  }

  /** Slashes are not separators: the whole text is one part, and the format is wrong. */
  lemma SlashedDateTextRejected()
    ensures ParseDateText("1/6/2020") == Failure(WrongDateFormat)
  {
  }

  /** Texts that split into the same parts read as the same date. */
  lemma SamePartsSameDate(s: string, t: string)
    requires SplitOnDots(s) == SplitOnDots(t)
    ensures ParseDateText(s) == ParseDateText(t)
  {
  }

  /** A trailing dot leaves an empty last part, which split drops: "1.6.2020." still has three parts. */
  lemma TrailingDotIgnored()
    ensures ParseDateText("1.6.2020.") == Success(Date(2020, 5, 1))
  {
    TrailingDotParts();
    FirstOfJune2020Text();
    SamePartsSameDate("1.6.2020.", "1.6.2020");
  }

  lemma TrailingDotParts()
    ensures SplitOnDots("1.6.2020.") == ["1", "6", "2020"]
  {
    assert Join(["1", "6", "2020", ""]) == "1.6.2020.";
    SplitOnDotsOfJoin(["1", "6", "2020", ""]);
    assert DropTrailingEmpty(["1", "6", "2020", ""]) == ["1", "6", "2020"];
  }

  lemma FirstOfJune2020Text()
    ensures ParseDateText("1.6.2020") == Success(Date(2020, 5, 1))
    ensures SplitOnDots("1.6.2020") == ["1", "6", "2020"]
  {
    assert DateTextOf(Date(2020, 5, 1)) == "1.6.2020";
    ParseDateTextRoundTrip(Date(2020, 5, 1));
    DateTextParts(Date(2020, 5, 1));
  }

  /** Two dots in a row give three parts with an empty month, which Integer.parseInt refuses. */
  lemma EmptyMonthRejected()
    ensures ParseDateText("1..2020") == Failure(NumberFormat(""))
  {
    assert Join(["1", "", "2020"]) == "1..2020";
    SplitOnDotsOfJoin(["1", "", "2020"]);
    assert Decimal(1) == "1";
    ParseIntDecimal(1);
  }
}
