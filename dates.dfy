/** Calendar dates as the record model parses them (ISO 8601 `YYYY-MM-DD`,
    proleptic Gregorian calendar, years 1 to 9999 as Python's `date`), their
    day numbers counted from 1970-01-01, and the Monday-based week
    arithmetic the weekly aggregation truncates to. */
module Dates {
  import opened Common

  datatype Date = Date(year: int, month: int, day: int)

  predicate IsLeapYear(y: int) {
    y % 4 == 0 && (y % 100 != 0 || y % 400 == 0)
  }

  function DaysInMonth(y: int, m: int): (n: int)
    requires 1 <= m <= 12
    ensures 28 <= n <= 31
    ensures m == 2 ==> (n == 29 <==> IsLeapYear(y))
  {
    if m == 2 then (if IsLeapYear(y) then 29 else 28)
    else if m == 4 || m == 6 || m == 9 || m == 11 then 30
    else 31
  }

  /** A date Python's `date` type can hold. */
  predicate ValidDate(d: Date) {
    1 <= d.year <= 9999 && 1 <= d.month <= 12 && 1 <= d.day <= DaysInMonth(d.year, d.month)
  }

  // ---------------------------------------------------------------------
  // ISO 8601 text form

  predicate IsDigit(c: char) { '0' <= c <= '9' }

  function DigitValue(c: char): int
    requires IsDigit(c)
  {
    c as int - '0' as int
  }

  function DigitChar(v: int): (c: char)
    requires 0 <= v <= 9
    ensures IsDigit(c) && DigitValue(c) == v
  {
    (v + '0' as int) as char
  }

  /** The date written `YYYY-MM-DD` in `s`, or `None` when `s` is not in
      that form or names no calendar date (month 13, 30 February, year 0). */
  function ParseIsoDate(s: string): (r: Option<Date>)
    ensures r.Some? ==> ValidDate(r.value)
  {
    if |s| == 10 && s[4] == '-' && s[7] == '-'
       && IsDigit(s[0]) && IsDigit(s[1]) && IsDigit(s[2]) && IsDigit(s[3])
       && IsDigit(s[5]) && IsDigit(s[6]) && IsDigit(s[8]) && IsDigit(s[9])
    then
      var y := 1000 * DigitValue(s[0]) + 100 * DigitValue(s[1]) + 10 * DigitValue(s[2]) + DigitValue(s[3]);
      var m := 10 * DigitValue(s[5]) + DigitValue(s[6]);
      var d := 10 * DigitValue(s[8]) + DigitValue(s[9]);
      if ValidDate(Date(y, m, d)) then Some(Date(y, m, d)) else None
    else
      None
  }

  function FormatIsoDate(d: Date): (s: string)
    requires ValidDate(d)
    ensures |s| == 10
  {
    [DigitChar(d.year / 1000), DigitChar(d.year / 100 % 10), DigitChar(d.year / 10 % 10), DigitChar(d.year % 10),
     '-', DigitChar(d.month / 10), DigitChar(d.month % 10),
     '-', DigitChar(d.day / 10), DigitChar(d.day % 10)]
  }

  lemma FourDigits(v: int)
    requires 0 <= v <= 9999
    ensures 1000 * (v / 1000) + 100 * (v / 100 % 10) + 10 * (v / 10 % 10) + v % 10 == v
  {
    var r := v % 1000;
    var r2 := r % 100;
    assert v == 1000 * (v / 1000) + r;
    assert r == 100 * (r / 100) + r2;
    assert r2 == 10 * (r2 / 10) + r2 % 10;
    SplitFourDigits(v / 1000, r / 100, r2 / 10, r2 % 10);
  }

  /** Every date Python can hold parses back from its ISO form. */
  lemma ParseFormat(d: Date)
    requires ValidDate(d)
    ensures ParseIsoDate(FormatIsoDate(d)) == Some(d)
  {
    var s := FormatIsoDate(d);
    FourDigits(d.year);
    assert 1000 * DigitValue(s[0]) + 100 * DigitValue(s[1]) + 10 * DigitValue(s[2]) + DigitValue(s[3]) == d.year;
    assert 10 * DigitValue(s[5]) + DigitValue(s[6]) == d.month;
    assert 10 * DigitValue(s[8]) + DigitValue(s[9]) == d.day;
  }

  lemma SplitFourDigits(a: int, b: int, c: int, e: int)
    requires 0 <= a <= 9 && 0 <= b <= 9 && 0 <= c <= 9 && 0 <= e <= 9
    ensures var v := 1000 * a + 100 * b + 10 * c + e;
      v / 1000 == a && v / 100 % 10 == b && v / 10 % 10 == c && v % 10 == e
  {
    var v := 1000 * a + 100 * b + 10 * c + e;
    assert v / 10 == 100 * a + 10 * b + c;
    assert v / 100 == 10 * a + b;
  }

  lemma SplitTwoDigits(a: int, b: int)
    requires 0 <= a <= 9 && 0 <= b <= 9
    ensures (10 * a + b) / 10 == a && (10 * a + b) % 10 == b
  {
  }

  /** Every string that parses is the ISO form of the date it parses to:
      the accepted form is canonical (no signs, no padding variants). */
  lemma FormatParse(s: string)
    requires ParseIsoDate(s).Some?
    ensures FormatIsoDate(ParseIsoDate(s).value) == s
  {
    var d := ParseIsoDate(s).value;
    SplitFourDigits(DigitValue(s[0]), DigitValue(s[1]), DigitValue(s[2]), DigitValue(s[3]));
    SplitTwoDigits(DigitValue(s[5]), DigitValue(s[6]));
    SplitTwoDigits(DigitValue(s[8]), DigitValue(s[9]));
    var t := FormatIsoDate(d);
    assert forall i | 0 <= i < 10 :: t[i] == s[i];
  }

  // ---------------------------------------------------------------------
  // Day numbers and weeks

  /** Days from 1 March of year 0 to 1 March of year `y`, counted by
      400-year eras of 146097 days. */
  function MarchDays(y: int): int {
    var era := y / 400;
    var yoe := y - era * 400;
    era * 146097 + yoe * 365 + yoe / 4 - yoe / 100
  }

  /** Days from 1 March to the first of the month `mp` months later. */
  function MonthOffset(mp: int): int {
    (153 * mp + 2) / 5
  }

  /** Days from 1970-01-01 to `d` (negative before it), by the civil-from-
      days decomposition into years that start on 1 March. */
  function DayNumber(d: Date): int {
    var y := if d.month <= 2 then d.year - 1 else d.year;
    var mp := if d.month > 2 then d.month - 3 else d.month + 9;
    MarchDays(y) + MonthOffset(mp) + d.day - 1 - 719468
  }

  /** The calendar day after `d`. */
  function NextDay(d: Date): (n: Date)
    requires ValidDate(d)
  {
    if d.day < DaysInMonth(d.year, d.month) then Date(d.year, d.month, d.day + 1)
    else if d.month < 12 then Date(d.year, d.month + 1, 1)
    else Date(d.year + 1, 1, 1)
  }

  /** Days from the 1 March that starts a year-of-era `yoe` to the next one. */
  lemma YearOfEraStep(yoe: int)
    requires 0 <= yoe < 399
    ensures (yoe + 1) * 365 + (yoe + 1) / 4 - (yoe + 1) / 100 - (yoe * 365 + yoe / 4 - yoe / 100)
         == if IsLeapYear(yoe + 1) then 366 else 365
  {
    var q4, r4 := yoe / 4, yoe % 4;
    var q100, r100 := yoe / 100, yoe % 100;
    assert yoe == 4 * q4 + r4 && 0 <= r4 < 4;
    assert yoe == 100 * q100 + r100 && 0 <= r100 < 100;
    assert (yoe + 1) / 4 == if r4 == 3 then q4 + 1 else q4;
    assert (yoe + 1) / 100 == if r100 == 99 then q100 + 1 else q100;
    assert (yoe + 1) % 4 == 0 <==> r4 == 3;
    assert (yoe + 1) % 100 == 0 <==> r100 == 99;
  }

  /** Leap years repeat with the 400-year era. */
  lemma LeapInEra(y: int)
    ensures IsLeapYear(y) <==> IsLeapYear(y - y / 400 * 400)
  {
    var era := y / 400;
    var yoe := y - era * 400;
    assert 0 <= yoe < 400;
    assert y % 4 == yoe % 4 by {
      var q := yoe / 4;
      assert yoe == 4 * q + yoe % 4;
      assert y == 4 * (100 * era + q) + yoe % 4;
    }
    assert y % 100 == yoe % 100 by {
      var q := yoe / 100;
      assert yoe == 100 * q + yoe % 100;
      assert y == 100 * (4 * era + q) + yoe % 100;
    }
    assert y % 400 == yoe % 400 by {
      assert y == 400 * era + yoe;
    }
  }

  /** The year from 1 March of `y` to 1 March of `y + 1` has 366 days
      exactly when February of `y + 1` has 29. */
  lemma MarchDaysStep(y: int)
    ensures MarchDays(y + 1) - MarchDays(y) == if IsLeapYear(y + 1) then 366 else 365
  {
    var era := y / 400;
    var yoe := y - era * 400;
    LeapInEra(y + 1);
    if yoe < 399 {
      assert (y + 1) / 400 == era;
      YearOfEraStep(yoe);
    } else {
      assert (y + 1) / 400 == era + 1;
      assert y + 1 - (era + 1) * 400 == 0;
    }
  }

  /** Going from the last day of February to 1 March adds one day. */
  lemma MarchFirstStep(d: Date)
    requires ValidDate(d) && d.month == 2 && d.day == DaysInMonth(d.year, 2)
    ensures DayNumber(Date(d.year, 3, 1)) == DayNumber(d) + 1
  {
    MarchDaysStep(d.year - 1);
    assert MonthOffset(11) == 337;
  }

  /** From the last day of a month other than February and December to the
      first of the next month adds one day. */
  lemma MonthEndStep(d: Date)
    requires ValidDate(d) && d.month != 2 && d.month < 12 && d.day == DaysInMonth(d.year, d.month)
    ensures DayNumber(Date(d.year, d.month + 1, 1)) == DayNumber(d) + 1
  {
    var mp := if d.month > 2 then d.month - 3 else d.month + 9;
    assert MonthOffset(mp + 1) - MonthOffset(mp) == DaysInMonth(d.year, d.month) by {
      if mp == 0 {} else if mp == 1 {} else if mp == 2 {} else if mp == 3 {} else if mp == 4 {}
      else if mp == 5 {} else if mp == 6 {} else if mp == 7 {} else if mp == 8 {} else { assert mp == 10; }
    }
  }

  /** From 31 December to 1 January adds one day. */
  lemma YearEndStep(d: Date)
    requires ValidDate(d) && d.month == 12 && d.day == 31
    ensures DayNumber(Date(d.year + 1, 1, 1)) == DayNumber(d) + 1
  {
    assert MonthOffset(10) - MonthOffset(9) == 31;
  }

  /** `DayNumber` counts days: the next calendar day has the next number.
      With `DayNumber(Date(1970, 1, 1)) == 0` this fixes it on every date. */
  lemma DayNumberNextDay(d: Date)
    requires ValidDate(d) && d.year < 9999
    ensures ValidDate(NextDay(d)) && DayNumber(NextDay(d)) == DayNumber(d) + 1
  {
    if d.day < DaysInMonth(d.year, d.month) {
    } else if d.month == 2 {
      MarchFirstStep(d);
    } else if d.month < 12 {
      MonthEndStep(d);
    } else {
      YearEndStep(d);
    }
  }

  lemma EpochIsDayZero()
    ensures DayNumber(Date(1970, 1, 1)) == 0
  {
  }

  /** Days since the Monday on or before day `n` (Monday 0 ... Sunday 6);
      day 0, 1970-01-01, was a Thursday. Dafny's `%` never returns a
      negative value, so this holds before 1970 too. */
  function Weekday(n: int): (w: int)
    ensures 0 <= w < 7
  {
    (n + 3) % 7
  }

  predicate IsMonday(n: int) { Weekday(n) == 0 }

  /** The Monday on or before day `n`: `DATE_TRUNC('week', ...)`. */
  function MondayOnOrBefore(n: int): int {
    n - Weekday(n)
  }

  /** The week key is a Monday and the day lies in the seven days it starts. */
  lemma MondayOnOrBeforeBounds(n: int)
    ensures IsMonday(MondayOnOrBefore(n))
    ensures MondayOnOrBefore(n) <= n <= MondayOnOrBefore(n) + 6
  {
    var w := Weekday(n);
    assert n + 3 == 7 * ((n + 3) / 7) + w;
    assert MondayOnOrBefore(n) + 3 == 7 * ((n + 3) / 7);
  }

  /** It is the only such Monday: any Monday at most six days before `n` is it. */
  lemma MondayOnOrBeforeUnique(m: int, n: int)
    requires IsMonday(m) && m <= n <= m + 6
    ensures m == MondayOnOrBefore(n)
  {
    var k := (m + 3) / 7;
    assert m + 3 == 7 * k;
    assert n + 3 == 7 * k + (n - m);
    assert (n + 3) % 7 == n - m;
  }

  /** The week of the two dates the weekly aggregation documents. */
  lemma DocumentedWeeks()
    ensures DayNumber(Date(2025, 9, 29)) == 20360 && IsMonday(20360)
    ensures DayNumber(Date(2025, 10, 6)) == 20367 && IsMonday(20367)
  {
  }
}
