/**
 * Turning the command-line text `d.M.yyyy` into calendar fields, and the same
 * split for a line of a holiday file. Splitting follows String.split with the
 * pattern "\\." and no limit; numbers follow Integer.parseInt in radix 10.
 */
module DateText {
  import opened Outcomes
  import opened Calendar

  const INT_MIN: int := -0x8000_0000
  const INT_MAX: int := 0x7FFF_FFFF

  /** The ways reading a date from text can fail. */
  datatype TextError =
    | WrongDateFormat              // "Wrong date format": not exactly three parts
    | NumberFormat(input: string)  // Integer.parseInt refused this part
    | MissingField                 // a holiday entry with fewer than three parts: the index 2 is out of bounds

  /** The parts joined back together with a dot between neighbours. */
  function Join(parts: seq<string>): string
    requires |parts| >= 1
  {
    if |parts| == 1 then parts[0] else parts[0] + "." + Join(parts[1..])
  }

  /** The text between dots, empty pieces included: "1..2." gives ["1", "", "2", ""]. */
  function SplitAll(s: string): (parts: seq<string>)
    ensures |parts| >= 1
    ensures forall k :: 0 <= k < |parts| ==> '.' !in parts[k]
    ensures Join(parts) == s
  {
    if s == [] then [""]
    else
      var rest := SplitAll(s[1..]);
      if s[0] == '.' then
        assert ([""] + rest)[1..] == rest;
        [""] + rest
      else
        var parts := [[s[0]] + rest[0]] + rest[1..];
        assert |rest| > 1 ==> parts[1..] == rest[1..];
        assert s == [s[0]] + s[1..];
        parts
  }

  /** Drops the empty strings at the end of `parts`, as split does when no limit is given. */
  function DropTrailingEmpty(parts: seq<string>): (r: seq<string>)
    ensures r <= parts
    ensures forall k :: |r| <= k < |parts| ==> parts[k] == ""
    ensures r == [] || r[|r| - 1] != ""
  {
    if parts == [] then []
    else if parts[|parts| - 1] == "" then DropTrailingEmpty(parts[..|parts| - 1])
    else parts
  }

  /** String.split("\\."): a text without a dot comes back whole, otherwise its pieces without the trailing empty ones. */
  function SplitOnDots(s: string): (parts: seq<string>)
    ensures '.' !in s ==> parts == [s]
    ensures '.' in s ==> parts <= SplitAll(s) && (parts == [] || parts[|parts| - 1] != "")
    ensures '.' in s ==> forall k :: |parts| <= k < |SplitAll(s)| ==> SplitAll(s)[k] == ""
  {
    if '.' !in s then [s] else DropTrailingEmpty(SplitAll(s))
  }

  /**
   * Dot-free texts joined by dots split back into themselves, less any empty
   * ones at the end: "1.6.2020." gives three parts and "1..2020" three with an
   * empty middle.
   */
  lemma SplitOnDotsOfJoin(parts: seq<string>)
    requires |parts| >= 2
    requires forall k :: 0 <= k < |parts| ==> '.' !in parts[k]
    ensures SplitOnDots(Join(parts)) == DropTrailingEmpty(parts)
  {
    assert Join(parts)[|parts[0]|] == '.';
    SplitAllJoin(parts);
  }

  /** Splitting a join of dot-free texts gives the texts back. */
  lemma {:induction false} SplitAllJoin(parts: seq<string>)
    requires |parts| >= 1
    requires forall k :: 0 <= k < |parts| ==> '.' !in parts[k]
    ensures SplitAll(Join(parts)) == parts
  {
    if |parts| > 1 {
      SplitAllJoin(parts[1..]);
      SplitAllPrefix(parts[0], Join(parts[1..]));
    } else {
      SplitAllNoDot(parts[0]);
    }
  }

  lemma {:induction false} SplitAllNoDot(a: string)
    requires '.' !in a
    ensures SplitAll(a) == [a]
  {
    if a != [] {
      SplitAllNoDot(a[1..]);
      assert a == [a[0]] + a[1..];
    }
  }

  /** A dot-free text put before a dot becomes the first part, and the rest splits as before. */
  lemma {:induction false} SplitAllPrefix(a: string, t: string)
    requires '.' !in a
    ensures SplitAll(a + "." + t) == [a] + SplitAll(t)
  {
    if a == [] {
      assert a + "." + t == ['.'] + t;
      assert (a + "." + t)[1..] == t;
    } else {
      assert (a + "." + t)[1..] == a[1..] + "." + t;
      SplitAllPrefix(a[1..], t);
      assert a == [a[0]] + a[1..];
    }
  }

  predicate IsDigit(c: char) {
    '0' <= c <= '9'
  }

  predicate AllDigits(s: string) {
    forall k :: 0 <= k < |s| ==> IsDigit(s[k])
  }

  /** The value of a string of decimal digits, most significant first. */
  function DigitsValue(ds: string): nat
    requires AllDigits(ds)
  {
    if ds == [] then 0
    else DigitsValue(ds[..|ds| - 1]) * 10 + (ds[|ds| - 1] as int - '0' as int)
  }

  /**
   * Integer.parseInt(s) in radix 10: an optional '-' or '+', then one or more
   * digits, and a value that fits a 32-bit int; anything else is refused.
   */
  function ParseInt(s: string): (r: Option<int>)
    ensures r.Some? ==> INT_MIN <= r.value <= INT_MAX
    ensures r.Some? ==> |s| >= 1 && (IsDigit(s[0]) || ((s[0] == '-' || s[0] == '+') && |s| >= 2))
    ensures r.Some? <==> (|s| >= 1 &&
      var digits := if s[0] == '-' || s[0] == '+' then s[1..] else s;
      |digits| >= 1 && AllDigits(digits)
      && INT_MIN <= (if s[0] == '-' then -(DigitsValue(digits) as int) else DigitsValue(digits)) <= INT_MAX)
    ensures r.Some? && s[0] != '-' ==> r.value >= 0
    ensures r.Some? && s[0] == '-' ==> r.value <= 0
  {
    if |s| == 0 then None
    else
      var negative := s[0] == '-';
      var digits := if s[0] == '-' || s[0] == '+' then s[1..] else s;
      if |digits| == 0 || !AllDigits(digits) then None
      else
        var v: int := if negative then -(DigitsValue(digits) as int) else DigitsValue(digits);
        if INT_MIN <= v <= INT_MAX then Some(v) else None
  }

  /** A non-negative number written in decimal with no leading zeros, as Integer.toString and the pattern letters `d`, `M` write it. */
  function Decimal(n: nat): (s: string)
    ensures |s| >= 1 && AllDigits(s)
  {
    var last := [(('0' as int) + n % 10) as char];
    if n < 10 then last else Decimal(n / 10) + last
  }

  lemma {:induction false} DecimalValue(n: nat)
    ensures DigitsValue(Decimal(n)) == n
  {
    var s := Decimal(n);
    if n >= 10 {
      DecimalValue(n / 10);
      assert s[..|s| - 1] == Decimal(n / 10);
    }
  }

  /** Integer.parseInt reads back every non-negative int that Integer.toString writes. */
  lemma ParseIntDecimal(n: nat)
    requires n <= INT_MAX
    ensures ParseInt(Decimal(n)) == Some(n)
    ensures ParseInt("+" + Decimal(n)) == Some(n)
  {
    DecimalValue(n);
    assert ("+" + Decimal(n))[1..] == Decimal(n);
  }

  /** A minus sign before the digits negates the value, down to the smallest int. */
  lemma ParseIntNegative(n: nat)
    requires n <= -INT_MIN
    ensures ParseInt("-" + Decimal(n)) == Some(-(n as int))
  {
    DecimalValue(n);
    assert ("-" + Decimal(n))[1..] == Decimal(n);
  }

  /** Leading zeros do not change the value of a string of digits. */
  lemma {:induction false} DigitsValueLeadingZero(ds: string)
    requires AllDigits(ds)
    ensures AllDigits("0" + ds) && DigitsValue("0" + ds) == DigitsValue(ds)
  {
    if ds != [] {
      DigitsValueLeadingZero(ds[..|ds| - 1]);
      assert ("0" + ds)[..|"0" + ds| - 1] == "0" + ds[..|ds| - 1];
    }
  }

  /** Integer.parseInt ignores a leading zero before an unsigned number. */
  lemma ParseIntLeadingZero(ds: string)
    requires |ds| >= 1 && AllDigits(ds)
    ensures ParseInt("0" + ds) == ParseInt(ds)
  {
    DigitsValueLeadingZero(ds);
  }

  /** Java's 32-bit int arithmetic: the value in int range congruent to `v` modulo 2^32. */
  function WrapInt(v: int): (r: int)
    ensures INT_MIN <= r <= INT_MAX
    ensures (r - v) % 0x1_0000_0000 == 0
    ensures INT_MIN <= v <= INT_MAX ==> r == v
  {
    (v - INT_MIN) % 0x1_0000_0000 + INT_MIN
  }

  /**
   * One date argument of `main`: exactly three parts, day, month and year, each
   * parsed in that order; the month field is the parsed month minus one.
   */
  function ParseDateText(s: string): (r: Result<Date, TextError>)
    ensures r == Failure(WrongDateFormat) <==> |SplitOnDots(s)| != 3
    ensures var p := SplitOnDots(s);
      |p| == 3 && ParseInt(p[0]).Some? && ParseInt(p[1]).Some? && ParseInt(p[2]).Some? ==> r.Success?
    ensures var p := SplitOnDots(s);
      |p| == 3 && ParseInt(p[0]).None? ==> r == Failure(NumberFormat(p[0]))
    ensures var p := SplitOnDots(s);
      |p| == 3 && ParseInt(p[0]).Some? && ParseInt(p[1]).None? ==> r == Failure(NumberFormat(p[1]))
    ensures var p := SplitOnDots(s);
      |p| == 3 && ParseInt(p[0]).Some? && ParseInt(p[1]).Some? && ParseInt(p[2]).None? ==> r == Failure(NumberFormat(p[2]))
    ensures r.Success? ==>
      (|SplitOnDots(s)| == 3
       && ParseInt(SplitOnDots(s)[0]) == Some(r.value.day)
       && ParseInt(SplitOnDots(s)[1]).Some? && r.value.month == WrapInt(ParseInt(SplitOnDots(s)[1]).value - 1)
       && ParseInt(SplitOnDots(s)[2]) == Some(r.value.year))
  {
    var parts := SplitOnDots(s);
    if |parts| != 3 then Failure(WrongDateFormat)
    else match (ParseInt(parts[0]), ParseInt(parts[1]), ParseInt(parts[2]))
      case (None, _, _) => Failure(NumberFormat(parts[0]))
      case (Some(_), None, _) => Failure(NumberFormat(parts[1]))
      case (Some(_), Some(_), None) => Failure(NumberFormat(parts[2]))
      case (Some(d), Some(m), Some(y)) => Success(Date(y, WrapInt(m - 1), d))
  }

  /**
   * The two date arguments of `main`: both must have three parts before either
   * is parsed; then the start is parsed before the end.
   */
  function ParseArguments(startText: string, endText: string): (r: Result<(Date, Date), TextError>)
    ensures r == Failure(WrongDateFormat) <==> |SplitOnDots(startText)| != 3 || |SplitOnDots(endText)| != 3
    ensures r.Success? <==> ParseDateText(startText).Success? && ParseDateText(endText).Success?
    ensures r.Failure? && r.error != WrongDateFormat && ParseDateText(startText).Failure? ==>
      r.error == ParseDateText(startText).error
    ensures r.Failure? && ParseDateText(startText).Success? ==> r.error == ParseDateText(endText).error
    ensures r.Success? ==> r.value == (ParseDateText(startText).value, ParseDateText(endText).value)
  {
    if |SplitOnDots(startText)| != 3 || |SplitOnDots(endText)| != 3 then Failure(WrongDateFormat)
    else match ParseDateText(startText)
      case Failure(e) => Failure(e)
      case Success(startDate) =>
        match ParseDateText(endText)
        case Failure(e) => Failure(e)
        case Success(endDate) => Success((startDate, endDate))
  }

  /** A date written as `d.M.y`: day, 1-based month and year in plain decimal, dot-separated. */
  function DateTextOf(d: CalDate): string
    requires d.year >= 0
  {
    Decimal(d.day) + "." + Decimal(d.month + 1) + "." + Decimal(d.year)
  }

  /** Every date from year 0 to the largest int year reads back from its `d.M.yyyy` text. */
  lemma ParseDateTextRoundTrip(d: CalDate)
    requires 0 <= d.year <= INT_MAX
    ensures ParseDateText(DateTextOf(d)) == Success(d)
  {
    var parts := SplitOnDots(DateTextOf(d));
    DateTextParts(d);
    ParseIntDecimal(d.day);
    ParseIntDecimal(d.month + 1);
    ParseIntDecimal(d.year);
    assert ParseInt(parts[1]) == Some(d.month + 1);
    assert WrapInt(d.month + 1 - 1) == d.month;
  }

  lemma DateTextParts(d: CalDate)
    requires d.year >= 0
    ensures SplitOnDots(DateTextOf(d)) == [Decimal(d.day), Decimal(d.month + 1), Decimal(d.year)]
  {
    var a, b, c := Decimal(d.day), Decimal(d.month + 1), Decimal(d.year);
    DigitsHaveNoDot(a);
    DigitsHaveNoDot(b);
    DigitsHaveNoDot(c);
    assert Join([a, b, c]) == DateTextOf(d) by {
      assert Join([b, c]) == b + "." + c;
      assert [a, b, c][1..] == [b, c];
    }
    SplitOnDotsOfJoin([a, b, c]);
  }

  lemma DigitsHaveNoDot(s: string)
    requires AllDigits(s)
    ensures '.' !in s
  {
  }

  /**
   * One entry of a holiday file: the year, month and day arguments of the
   * calendar are read from parts 2, 1 and 0 in that order; parts after the
   * third are ignored and a missing third part fails at once.
   */
  function ParseHolidayEntry(s: string): (r: Result<Date, TextError>)
    ensures |SplitOnDots(s)| < 3 <==> r == Failure(MissingField)
    ensures var p := SplitOnDots(s);
      |p| >= 3 && ParseInt(p[0]).Some? && ParseInt(p[1]).Some? && ParseInt(p[2]).Some? ==> r.Success?
    ensures var p := SplitOnDots(s);
      |p| >= 3 && ParseInt(p[2]).None? ==> r == Failure(NumberFormat(p[2]))
    ensures var p := SplitOnDots(s);
      |p| >= 3 && ParseInt(p[2]).Some? && ParseInt(p[1]).None? ==> r == Failure(NumberFormat(p[1]))
    ensures var p := SplitOnDots(s);
      |p| >= 3 && ParseInt(p[2]).Some? && ParseInt(p[1]).Some? && ParseInt(p[0]).None? ==> r == Failure(NumberFormat(p[0]))
    ensures var p := SplitOnDots(s);
      r.Success? ==>
        |p| >= 3
        && ParseInt(p[0]) == Some(r.value.day)
        && ParseInt(p[1]).Some? && r.value.month == WrapInt(ParseInt(p[1]).value - 1)
        && ParseInt(p[2]) == Some(r.value.year)
  {
    var str := SplitOnDots(s);
    if |str| < 3 then Failure(MissingField)
    else match ParseInt(str[2])
      case None => Failure(NumberFormat(str[2]))
      case Some(y) =>
        match ParseInt(str[1])
        case None => Failure(NumberFormat(str[1]))
        case Some(m) =>
          match ParseInt(str[0])
          case None => Failure(NumberFormat(str[0]))
          case Some(d) => Success(Date(y, WrapInt(m - 1), d))
  }

  /** A holiday entry that also reads as a date argument gives the same date either way. */
  lemma HolidayEntryAgreesWithDateText(s: string)
    requires ParseDateText(s).Success?
    ensures ParseHolidayEntry(s) == ParseDateText(s)
  {
  }
}
