# HolidayPlanner in Dafny

This is a verified model of the `HolidayPlanner` class of the holidayplanner
project. A planner holds a holiday period: a start date and an end date, plus a
list of national holidays. Its constructor rejects a period that is:

- out of chronological order;
- outside the "holiday season";
- longer than 50 days.

Two queries walk the period a day at a time:

- the length of the period;
- the number of "consumable" days in it, meaning days that are neither a Sunday nor a listed national holiday.

The `main` entry point reads its two dates from `d.M.yyyy` text. Holiday files
use the same dotted format.

The project has five modules:

- `Outcomes` (outcomes.dfy): `Option` and `Result`.
- `Calendar` (calendar.dfy): the part of `java.util.GregorianCalendar` the class relies on. Dates are `(year, month, day)` with Java's 0-based month. The module covers:
  - day numbers from 0001-01-01;
  - `before`/`after`;
  - adding days (`add(DAY_OF_YEAR, n)`);
  - `DAY_OF_WEEK`, with Java's numbering SUNDAY = 1 … SATURDAY = 7.
- `Planner` (planner.dfy):
  - the three validation rules and the order in which the constructor applies them;
  - the class `HolidayPlanner`, whose constructor is the factory `Create` that returns a `Result`;
  - its loop methods, each proved equal to a counting function over the dates of the period;
  - properties of those counts.
- `DateText` (datetext.dfy): `String.split("\\.")` with its trailing-empty-part rule, `Integer.parseInt`, the date-argument parse of `main` and the holiday-entry parse.
- `Scenarios` (scenarios.dfy): the periods and holiday lists of the project's test class, worked through the model.

Where the test class disagrees with `HolidayPlanner.java`, or where the code's behaviour is easy to misread, the model follows the code:

- **Validation order.** The code checks the chronological order first, then the season, then the length (`HolidayPlanner.java:52-60`). A period that fails both the season and the length check reports "Invalid holiday period" (`Scenarios.SeasonReportedBeforeLength`).
- **Season boundary.** `Calendar.MONTH` is 0-based, so `sMonth < 4` (`HolidayPlanner.java:116-118`) means January–April, and the boundary lies between April and May. 15.3–15.4 is accepted and 15.4–15.5 is rejected.
- **Length limit.** The check accepts an end up to the start plus 50 days. A valid period can therefore have 51 days, counting both ends. The test class expects 4.1.2021–23.2.2021 to be rejected (`TestHolidayPlanner.java:33-38`). The code accepts it (`Scenarios.FiftyDaysAfterStartAccepted`), and the model follows the code.
- **June 2020 count.** The test class expects 25 consumable days in June 2020. That count depends on a Finnish holiday file that is not part of this model. With no holidays, June 2020 has 4 Sundays and 26 consumable days (`Scenarios.JuneWithoutHolidays`).
- **Test class API.** The test class builds planners from two strings and calls `setNationalHolidays`. `HolidayPlanner.java` has neither.
- **Error message.** The test class expects the message "Invalid date format". The code throws "Wrong date format" (`HolidayPlanner.java:226`).
- **Holiday list.** The holidays are a list, not a set. `Planner.ConsumableDaysOnlyNeedHolidaysInPeriod` shows that order, repetition and out-of-period entries do not change the count.

## Model

| member | source | states |
|---|---|---|
| Calendar.DaysInMonth | src/main/java/fi/holidayplanner/HolidayPlanner.java:76 | a month has 28 to 31 days, and 29 exactly in February of a Gregorian leap year |
| Calendar.Before | src/main/java/fi/holidayplanner/HolidayPlanner.java:155 | `before` on two midnight calendars (comparing instants) holds exactly when the first date's (year, month, day) fields compare lexicographically smaller |
| Calendar.After | src/main/java/fi/holidayplanner/HolidayPlanner.java:98-100 | `after` on two midnight calendars holds exactly when the first date's fields compare lexicographically larger |
| Calendar.DayNumberOrder | src/main/java/fi/holidayplanner/HolidayPlanner.java:99 | comparing the instants of two midnights agrees with comparing their date fields year, then month, then day |
| Calendar.DayNumberInjective | src/main/java/fi/holidayplanner/HolidayPlanner.java:77 | two dates are the same instant exactly when they are the same date, which is what `cal.equals(endDate)` tests for midnight calendars |
| Calendar.NextDay | src/main/java/fi/holidayplanner/HolidayPlanner.java:76 | `add(DAY_OF_YEAR, 1)` gives a valid date one day later that is lexicographically after the old one, across month and year ends |
| Calendar.AddDays | src/main/java/fi/holidayplanner/HolidayPlanner.java:153-154 | adding n days yields the valid date whose day number is n more |
| Calendar.DayOfWeek | src/main/java/fi/holidayplanner/HolidayPlanner.java:73 | `DAY_OF_WEEK` is in 1..7 and is SUNDAY exactly on every seventh day number |
| Calendar.NextDayOfWeek | src/main/java/fi/holidayplanner/HolidayPlanner.java:73-76 | moving the cursor one day moves the weekday on by one, Saturday wrapping to Sunday |
| Calendar.WeekdayAnchors | src/main/java/fi/holidayplanner/HolidayPlanner.java:73 | the weekday numbering is anchored on the real calendar: 1.1.0001 is a Monday and 3.1.2021 a Sunday |
| Planner.IsChronologicalOrder | src/main/java/fi/holidayplanner/HolidayPlanner.java:98-100 | the first check holds exactly when the end is a later date than the start |
| Planner.IsOnHolidayPeriod | src/main/java/fi/holidayplanner/HolidayPlanner.java:108-127 | the season rule as written: a start year after the end year fails, a later end year passes, a same-year period starting in January–April passes exactly when it also ends in January–April, and a same-year period starting in May–December passes exactly when the end month is not earlier |
| Planner.IsUnderMaxLength | src/main/java/fi/holidayplanner/HolidayPlanner.java:152-156 | the third check holds exactly when the end is at most MAX_TIME_SPAN = 50 days after the start |
| Planner.SeasonRuleOnOrderedPeriods | src/main/java/fi/holidayplanner/HolidayPlanner.java:108-127 | for dates already in order, the season rule rejects exactly the same-year periods from January–April into May–December; its year-order and month-order branches never fire |
| Planner.Validate | src/main/java/fi/holidayplanner/HolidayPlanner.java:52-60 | the constructor's checks in order: the order error exactly when the end is not later; the season error exactly for ordered periods crossing into May; the length error exactly for the remaining periods over 50 days; a period that passes has 1 to 50 days between its ends |
| Planner.HolidayPlanner.Create | src/main/java/fi/holidayplanner/HolidayPlanner.java:46-66 | construction fails exactly when a check fails, with the first failing check's error; on success it yields a new planner holding the given dates and holiday list |
| Planner.HolidayPlanner.constructor | src/main/java/fi/holidayplanner/HolidayPlanner.java:52-64 | is only reached once all three checks pass, so a new planner is valid; stores the holiday list, the start date and the end date |
| Planner.HolidayPlanner.IsNationalHolidayDay | src/main/java/fi/holidayplanner/HolidayPlanner.java:165-172 | the linear search answers true exactly when the date equals some entry of the holiday list |
| Planner.HolidayPlanner.GetHolidayPeriodConsumableDays | src/main/java/fi/holidayplanner/HolidayPlanner.java:69-83 | the do-while walk plus the separate last-day check returns the number of consumable days from start to end inclusive, which lies between 0 and the period length |
| Planner.HolidayPlanner.GetPeriodLength | src/main/java/fi/holidayplanner/HolidayPlanner.java:86-95 | the walk returns the number of dates from start to end inclusive, between 2 and 51 for a constructed planner |
| Planner.DateRange | src/main/java/fi/holidayplanner/HolidayPlanner.java:86-95 | the dates of a period number one more than the days between its ends, or none when the end comes first |
| Planner.DateRangeAt | src/main/java/fi/holidayplanner/HolidayPlanner.java:71-77 | the i-th date visited by the cursor is the start moved on by i days |
| Planner.DateRangeMembers | src/main/java/fi/holidayplanner/HolidayPlanner.java:71-81 | a date is visited exactly when it lies between the start and the end, both included |
| Planner.DateRangeIncreasing | src/main/java/fi/holidayplanner/HolidayPlanner.java:71-77 | the walk visits dates in strictly increasing order, so no date is visited twice |
| Planner.IsConsumable | src/main/java/fi/holidayplanner/HolidayPlanner.java:73 | a day counts exactly when its weekday is not Sunday and no listed holiday falls on the same instant, which is the comparison `holiday.equals(date)` at line 167 makes |
| Planner.HolidayNumbersMember | src/main/java/fi/holidayplanner/HolidayPlanner.java:165-172 | a date is in the holiday list exactly when some listed holiday has the same instant |
| Planner.CountConsumable | src/main/java/fi/holidayplanner/HolidayPlanner.java:73-75 | counting consumable days never exceeds the number of days counted |
| Planner.ConsumableDays | src/main/java/fi/holidayplanner/HolidayPlanner.java:69-83 | a period whose end comes first has no consumable days; otherwise there are at most as many as the days from start to end inclusive |
| Planner.ConsumableDaysStep | src/main/java/fi/holidayplanner/HolidayPlanner.java:72-77 | the count of a period is the first day's contribution plus the count from the next day, the step of the loop |
| Planner.CountConsumableIsSetSize | src/main/java/fi/holidayplanner/HolidayPlanner.java:72-81 | on a list without repetitions, the count equals the number of distinct consumable dates in it |
| Planner.ConsumableSetCons | src/main/java/fi/holidayplanner/HolidayPlanner.java:73-75 | the consumable dates of a list are those of its tail plus its head when that is consumable |
| Planner.ConsumableDaysCountsDates | src/main/java/fi/holidayplanner/HolidayPlanner.java:69-83 | the result is the number of dates d with start <= d <= end that are neither a Sunday nor equal to a listed holiday |
| Planner.CountConsumableOnlyNeedsMembership | src/main/java/fi/holidayplanner/HolidayPlanner.java:165-172 | two holiday lists that agree on which of the counted days they contain give the same count |
| Planner.ConsumableDaysOnlyNeedHolidaysInPeriod | src/main/java/fi/holidayplanner/HolidayPlanner.java:165-172 | list order, repeated holidays and holidays outside the period do not change the count |
| Planner.ConsumableDaysOnDayNumbers | src/main/java/fi/holidayplanner/HolidayPlanner.java:69-83 | walking the calendar gives the same count as an independent count over day numbers, for every period and holiday list |
| DateText.SplitAll | src/main/java/fi/holidayplanner/HolidayPlanner.java:22 | splitting at every dot gives at least one dot-free part, and the parts joined by dots are the text again |
| DateText.DropTrailingEmpty | src/main/java/fi/holidayplanner/HolidayPlanner.java:225 | only empty parts are dropped, only from the end, and the kept list does not end in an empty part |
| DateText.SplitOnDots | src/main/java/fi/holidayplanner/HolidayPlanner.java:225 | `split("\\.")` returns a dot-free text whole; otherwise it returns the pieces between dots without the empty ones at the end |
| DateText.SplitOnDotsOfJoin | src/main/java/fi/holidayplanner/HolidayPlanner.java:225 | dot-free parts joined with dots split back into the same parts, less trailing empty ones |
| DateText.ParseInt | src/main/java/fi/holidayplanner/HolidayPlanner.java:229 | `Integer.parseInt` accepts a text exactly when it is an optional sign followed by one or more digits whose signed value fits a 32-bit int; the value is negative only after a minus sign |
| DateText.ParseIntDecimal | src/main/java/fi/holidayplanner/HolidayPlanner.java:229 | every non-negative int written in decimal, with or without a plus sign, parses back to itself |
| DateText.ParseIntNegative | src/main/java/fi/holidayplanner/HolidayPlanner.java:229 | a minus sign before the decimal digits of n parses to -n, down to the smallest int |
| DateText.ParseIntLeadingZero | src/main/java/fi/holidayplanner/HolidayPlanner.java:229 | a leading zero before an unsigned number does not change what it parses to |
| DateText.WrapInt | src/main/java/fi/holidayplanner/HolidayPlanner.java:234 | `M-1` is computed in 32-bit arithmetic: the result is in int range, congruent to the exact value, and equal to it when that fits |
| DateText.ParseDateText | src/main/java/fi/holidayplanner/HolidayPlanner.java:225-234 | "Wrong date format" exactly when the text does not split into three parts; otherwise the first part that does not parse, in day, month, year order, is reported, and three parts that all parse always succeed; success gives day from part 0, month from part 1 minus one, year from part 2 |
| DateText.ParseArguments | src/main/java/fi/holidayplanner/HolidayPlanner.java:225-235 | both texts are checked for three parts before either is parsed; the pair parses exactly when both dates do, and the start's error is reported before the end's |
| DateText.ParseDateTextRoundTrip | src/main/java/fi/holidayplanner/HolidayPlanner.java:225-234 | every date with a year from 0 to the largest int, written as `d.M.y`, reads back as itself |
| DateText.ParseHolidayEntry | src/main/java/fi/holidayplanner/HolidayPlanner.java:38-39 | a holiday entry with fewer than three parts fails, parts past the third are ignored, and the parts are parsed as year, month, day, with the first failure reported; when all three parse the entry succeeds |
| DateText.HolidayEntryAgreesWithDateText | src/main/java/fi/holidayplanner/HolidayPlanner.java:36-39 | a text that reads as a date argument reads as the same date when it is a holiday entry |
| Scenarios.RussianJanuary | src/test/java/TestHolidayPlanner.java:68-73 | 1.1.2021–31.1.2021 is a valid period and has 18 consumable days with the inline Russian holiday list |
| Scenarios.ChristmasPeriod | src/test/java/TestHolidayPlanner.java:12-15 | 1.12.2020–3.1.2021 has 26 consumable days with Christmas Eve, Christmas Day, New Year's Day and Epiphany listed |
| Scenarios.ChristmasPeriodAccepted | src/test/java/TestHolidayPlanner.java:12-15 | 1.12.2020–3.1.2021, which runs over the new year, is accepted |
| Scenarios.JuneWithoutHolidays | src/test/java/TestHolidayPlanner.java:18-21 | June 2020 has 26 consumable days when no holidays are listed |
| Scenarios.LongestWinterPeriod | src/test/java/TestHolidayPlanner.java:24-28 | 4.1.2021–22.2.2021 has 42 consumable days when Epiphany is the only listed holiday in it |
| Scenarios.FiftyDaysAfterStartAccepted | src/test/java/TestHolidayPlanner.java:33-38 | 4.1.2021–23.2.2021, whose end is exactly 50 days after its start, is accepted by the code |
| Scenarios.FiftyOneDaysAfterStartTooLong | src/main/java/fi/holidayplanner/HolidayPlanner.java:152-156 | 4.1.2021–24.2.2021 is rejected as too long |
| Scenarios.MarchIntoMayRejected | src/test/java/TestHolidayPlanner.java:42-47 | 15.3.2020–1.5.2020 is rejected by the season rule |
| Scenarios.MarchIntoAprilAccepted | src/main/java/fi/holidayplanner/HolidayPlanner.java:116-118 | 15.3.2021–15.4.2021 stays within January–April and is accepted |
| Scenarios.AprilIntoMayRejected | src/main/java/fi/holidayplanner/HolidayPlanner.java:116-118 | 15.4.2021–15.5.2021 crosses from April into May and is rejected |
| Scenarios.SeasonReportedBeforeLength | src/main/java/fi/holidayplanner/HolidayPlanner.java:55-60 | 1.1.2021–1.6.2021 fails both later checks and reports the season error |
| Scenarios.ReversedDatesRejected | src/test/java/TestHolidayPlanner.java:51-56 | 15.6.2020–1.6.2020 is rejected as not in chronological order |
| Scenarios.SameDayRejected | src/main/java/fi/holidayplanner/HolidayPlanner.java:98-100 | a period starting and ending on the same day is not in chronological order |
| Scenarios.TestDateText | src/main/java/fi/holidayplanner/HolidayPlanner.java:225-234 | "15.6.2020" reads as 15 June 2020, stored with month 5 |
| Scenarios.SlashedDateTextRejected | src/test/java/TestHolidayPlanner.java:61-65 | "1/6/2020" has no dots, splits into one part and is a wrong date format |
| Scenarios.SamePartsSameDate | src/main/java/fi/holidayplanner/HolidayPlanner.java:225-234 | the date read from a text depends only on the parts it splits into |
| Scenarios.TrailingDotIgnored | src/main/java/fi/holidayplanner/HolidayPlanner.java:225 | "1.6.2020." still has three parts and reads as 1 June 2020 |
| Scenarios.EmptyMonthRejected | src/main/java/fi/holidayplanner/HolidayPlanner.java:229 | "1..2020" has three parts, but the empty month fails to parse |

## Left out

- `loadLocaleHolidays` (reading `/national.holidays.<language>` from the class path, joining its lines with ";" and splitting them again): resource I/O. The planner takes its holiday list as a parameter. One entry of the file is modelled by `DateText.ParseHolidayEntry`. The failures of that read are not modelled: a missing resource makes `getResourceAsStream` return null, so `new InputStreamReader(null)` throws a `NullPointerException`; an unready reader throws `IllegalArgumentException`; reading can throw `IOException`.
- The `Locale` field, `getLocale`, the `SimpleDateFormat` getters (`getPeriodStartAsString`, `getPeriodEndAsString`, `getNationalHolidaysAsString`) and the plain getters: formatting through library code, and no logic of the class's own.
- `main`'s console output and exception printing. Its parse of the two date arguments is modelled. The `Calendar` objects it builds from them are not: lenient rollover of out-of-range fields (day 32, month 13) is not modelled, so `ParseDateText` returns raw fields.
- The public no-argument `isChronologicalOrder`, `isOnHolidayPeriod` and `isUnderMaxLength`. They repeat the private checks on the stored fields, and each rule is modelled once.
- `java.util.Calendar` internals: milliseconds, time of day, time zones, eras and years before 1, and the 1582 Julian/Gregorian cutover. Dates are proleptic Gregorian, at midnight. `Calendar.equals` also compares calendar settings; here it is date equality. The do-while loops end only because the end date has no time of day, and the model takes that as given.
- Aliasing: the constructor stores the caller's start and end `Calendar` objects by reference, and `getStartDate`, `getEndDate` and `getNationalHolidays` hand out the planner's own objects. A caller can therefore move a date or change the list after validation, for example with `hp.getEndDate().add(Calendar.YEAR, -1)`. Then the checks no longer hold, and the do-while loops may never end. Here the dates and the list are immutable values, so `Valid()` holds for the whole life of a planner. In Java it holds only while no caller mutates those objects.
- `DateText.ParseInt`: accepts ASCII digits only, while `Integer.parseInt` also accepts other Unicode decimal digits.
- `Planner.HolidayPlanner.GetHolidayPeriodConsumableDays` and `Planner.HolidayPlanner.GetPeriodLength`: return unbounded integers. The Java counters are 32-bit, but a valid period has at most 51 days, so they cannot overflow.
