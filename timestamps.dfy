/** The timestamps of a KDM's validity window and the one format the wrapper
    renders them in: datetime.strftime("%Y-%m-%d %H:%M"). */
module Timestamps {

  import opened Prelude
  import opened Text

  /** A naive datetime: the fields the format reads and the two it drops. */
  datatype DateTime = DateTime(
    year: int, month: int, day: int,
    hour: int, minute: int, second: int, microsecond: int)

  predicate IsLeapYear(y: int) {
    y % 4 == 0 && (y % 100 != 0 || y % 400 == 0)
  }

  function DaysInMonth(y: int, m: int): (n: int)
    requires 1 <= m <= 12
    ensures 28 <= n <= 31
  {
    if m == 2 then (if IsLeapYear(y) then 29 else 28)
    else if m == 4 || m == 6 || m == 9 || m == 11 then 30
    else 31
  }

  /** The values a datetime can hold, with the year limited to four digits. */
  predicate Valid(t: DateTime) {
    && 1000 <= t.year <= 9999
    && 1 <= t.month <= 12
    && 1 <= t.day <= DaysInMonth(t.year, t.month)
    && 0 <= t.hour < 24
    && 0 <= t.minute < 60
    && 0 <= t.second < 60
    && 0 <= t.microsecond < 1000000
  }

  /** Positions 4, 7, 10 and 13 hold '-', '-', ' ' and ':'; every other one
      of the sixteen holds a decimal digit. */
  predicate WellShaped(s: string) {
    && |s| == 16
    && s[4] == '-' && s[7] == '-' && s[10] == ' ' && s[13] == ':'
    && forall k :: 0 <= k < 16 && k != 4 && k != 7 && k != 10 && k != 13 ==> IsDigit(s[k])
  }

  lemma DigitsValueOfTwo(s: string)
    requires |s| == 2 && AllDigits(s)
    ensures DigitsValue(s) == DigitValue(s[0]) * 10 + DigitValue(s[1])
  {
    assert s[..|s| - 1] == [s[0]];
    assert DigitsValue([s[0]]) == DigitsValue([s[0]][..0]) * 10 + DigitValue(s[0]);
    assert [s[0]][..0] == [];
  }

  lemma DigitsValueOfFour(s: string)
    requires |s| == 4 && AllDigits(s)
    ensures DigitsValue(s) == DigitsValue(s[..2]) * 100 + DigitsValue(s[2..])
  {
    assert s[..3][..2] == s[..2];
    assert DigitsValue(s) == DigitsValue(s[..3]) * 10 + DigitValue(s[3]);
    assert DigitsValue(s[..3]) == DigitsValue(s[..2]) * 10 + DigitValue(s[2]);
    DigitsValueOfTwo(s[2..]);
  }

  /** %m, %d, %H, %M: two digits, zero-padded. */
  function Pad2(n: nat): (s: string)
    requires n < 100
    ensures |s| == 2 && AllDigits(s) && DigitsValue(s) == n
  {
    var s := [DigitChar(n / 10), DigitChar(n % 10)];
    DigitsValueOfTwo(s);
    s
  }

  /** %Y for a four-digit year. */
  function Pad4(n: nat): (s: string)
    requires n < 10000
    ensures |s| == 4 && AllDigits(s) && DigitsValue(s) == n
  {
    var s := Pad2(n / 100) + Pad2(n % 100);
    assert s[..2] == Pad2(n / 100) && s[2..] == Pad2(n % 100);
    DigitsValueOfFour(s);
    s
  }

  /** t.strftime("%Y-%m-%d %H:%M") */
  function Format(t: DateTime): (s: string)
    requires Valid(t)
    ensures WellShaped(s)
  {
    Pad4(t.year) + "-" + Pad2(t.month) + "-" + Pad2(t.day) + " "
      + Pad2(t.hour) + ":" + Pad2(t.minute)
  }

  /** The datetime the format can tell apart: seconds and microseconds
      dropped. */
  function TruncateToMinute(t: DateTime): DateTime {
    t.(second := 0, microsecond := 0)
  }

  /** Reads a "YYYY-MM-DD HH:MM" string back into the datetime it names;
      malformed strings and impossible dates give None. */
  function Parse(s: string): (r: Option<DateTime>)
    ensures r.Some? ==> Valid(r.value) && r.value == TruncateToMinute(r.value)
  {
    if !WellShaped(s) then None
    else
      assert AllDigits(s[0..4]) && AllDigits(s[5..7]) && AllDigits(s[8..10])
        && AllDigits(s[11..13]) && AllDigits(s[14..16]);
      var t := DateTime(
        DigitsValue(s[0..4]), DigitsValue(s[5..7]), DigitsValue(s[8..10]),
        DigitsValue(s[11..13]), DigitsValue(s[14..16]), 0, 0);
      if Valid(t) then Some(t) else None
  }

  /** Formatting and reading back loses exactly the seconds and
      microseconds. */
  lemma FormatRoundTrip(t: DateTime)
    requires Valid(t)
    ensures Parse(Format(t)) == Some(TruncateToMinute(t))
  {
    var s := Format(t);
    assert s[0..4] == Pad4(t.year);
    assert s[5..7] == Pad2(t.month);
    assert s[8..10] == Pad2(t.day);
    assert s[11..13] == Pad2(t.hour);
    assert s[14..16] == Pad2(t.minute);
  }

  lemma Pad2OfDigits(s: string)
    requires |s| == 2 && AllDigits(s)
    ensures DigitsValue(s) < 100 && Pad2(DigitsValue(s)) == s
  {
    DigitsValueOfTwo(s);
  }

  lemma Pad4OfDigits(s: string)
    requires |s| == 4 && AllDigits(s)
    ensures DigitsValue(s) < 10000 && Pad4(DigitsValue(s)) == s
  {
    DigitsValueOfFour(s);
    Pad2OfDigits(s[..2]);
    Pad2OfDigits(s[2..]);
    var hi, lo := DigitsValue(s[..2]), DigitsValue(s[2..]);
    HundredsSplit(hi, lo);
    assert Pad4(hi * 100 + lo) == Pad2(hi) + Pad2(lo);
    assert s[..2] + s[2..] == s;
  }

  lemma HundredsSplit(hi: nat, lo: nat)
    requires lo < 100
    ensures (hi * 100 + lo) / 100 == hi && (hi * 100 + lo) % 100 == lo
  {
  }

  /** Every string Parse accepts is the formatting of what it returns, so
      the format is a one-to-one correspondence between datetimes truncated
      to the minute and the strings Parse accepts. */
  lemma ParseFormat(s: string)
    ensures Parse(s).Some? ==> Format(Parse(s).value) == s
  {
    if Parse(s).Some? {
      var t := Parse(s).value;
      Pad4OfDigits(s[0..4]);
      Pad2OfDigits(s[5..7]);
      Pad2OfDigits(s[8..10]);
      Pad2OfDigits(s[11..13]);
      Pad2OfDigits(s[14..16]);
      assert s == s[0..4] + "-" + s[5..7] + "-" + s[8..10] + " " + s[11..13] + ":" + s[14..16];
    }
  }

  /** Two datetimes format alike exactly when they agree to the minute. */
  lemma FormatInjective(t: DateTime, u: DateTime)
    requires Valid(t) && Valid(u)
    ensures Format(t) == Format(u) <==> TruncateToMinute(t) == TruncateToMinute(u)
  {
    FormatRoundTrip(t);
    FormatRoundTrip(u);
  }
}
