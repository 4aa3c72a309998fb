/** Go's `time.Format` for the two layouts the job uses, "2006-01-02" and
    "2006-01-02T15:04:05.000Z", over date and clock components given as
    inputs, and a reader for the text it prints. */
module Timestamps {
  import opened Outcomes

  datatype Date = Date(year: int, month: int, day: int)

  /** A calendar date whose year prints as four digits. */
  predicate ValidDate(d: Date) {
    0 <= d.year <= 9999 && 1 <= d.month <= 12 && 1 <= d.day <= 31
  }

  /** A time of day with nanosecond precision, as `time.Date` takes it. */
  datatype Clock = Clock(hour: int, minute: int, second: int, nanosecond: int)

  predicate ValidClock(c: Clock) {
    0 <= c.hour <= 23 && 0 <= c.minute <= 59 && 0 <= c.second <= 59
    && 0 <= c.nanosecond <= 999_999_999
  }

  function Pow10(w: nat): nat {
    if w == 0 then 1 else 10 * Pow10(w - 1)
  }

  predicate IsDigit(c: char) {
    '0' <= c <= '9'
  }

  predicate AllDigits(s: string) {
    forall i :: 0 <= i < |s| ==> IsDigit(s[i])
  }

  function DigitChar(d: nat): (c: char)
    requires d <= 9
    ensures IsDigit(c)
  {
    (48 + d) as char
  }

  /** The digit a character stands for (meaningful for '0'..'9' only). */
  function DigitValue(c: char): int {
    c as int - 48
  }

  /** `n` in decimal, zero-padded on the left to exactly `w` digits. */
  function Digits(n: nat, w: nat): (s: string)
    requires n < Pow10(w)
    ensures |s| == w
  {
    if w == 0 then "" else Digits(n / 10, w - 1) + [DigitChar(n % 10)]
  }

  lemma TwoDigits(n: nat)
    requires n < 100
    ensures Digits(n, 2) == [DigitChar(n / 10), DigitChar(n % 10)]
  {
    var hi := n / 10;
    assert hi < 10 && hi / 10 == 0 && hi % 10 == hi;
    assert Digits(hi, 1) == Digits(0, 0) + [DigitChar(hi)];
  }

  lemma ThreeDigits(n: nat)
    requires n < 1000
    ensures Digits(n, 3) == [DigitChar(n / 100), DigitChar(n / 10 % 10), DigitChar(n % 10)]
  {
    TwoDigits(n / 10);
  }

  /** The number a string of decimal digits denotes. */
  function Value(s: string): int {
    if s == [] then 0 else Value(s[..|s| - 1]) * 10 + DigitValue(s[|s| - 1])
  }

  lemma {:induction false} ValueOfDigits(n: nat, w: nat)
    requires n < Pow10(w)
    ensures Value(Digits(n, w)) == n
  {
    if w > 0 {
      ValueOfDigits(n / 10, w - 1);
      var s := Digits(n, w);
      assert s[..|s| - 1] == Digits(n / 10, w - 1);
    }
  }

  lemma {:induction false} DigitsAreDigits(n: nat, w: nat)
    requires n < Pow10(w)
    ensures AllDigits(Digits(n, w))
  {
    if w > 0 {
      DigitsAreDigits(n / 10, w - 1);
    }
  }

  /** `Format("2006-01-02")`. */
  function FormatDate(d: Date): (s: string)
    requires ValidDate(d)
    ensures |s| == 10
  {
    Digits(d.year, 4) + "-" + Digits(d.month, 2) + "-" + Digits(d.day, 2)
  }

  /** `Format("2006-01-02T15:04:05.000Z")`: the date, then the clock with
      three digits of fractional second. Go prints the fraction truncated,
      not rounded. */
  function FormatTimestamp(d: Date, c: Clock): (s: string)
    requires ValidDate(d) && ValidClock(c)
    ensures |s| == 24 && s[..10] == FormatDate(d)
  {
    FormatDate(d) + "T" + FormatClock(c)
  }

  function FormatClock(c: Clock): (s: string)
    requires ValidClock(c)
    ensures |s| == 13
  {
    Digits(c.hour, 2) + ":" + Digits(c.minute, 2) + ":" + Digits(c.second, 2)
      + "." + Digits(c.nanosecond / 1_000_000, 3) + "Z"
  }

  /** The clock with its nanoseconds cut down to whole milliseconds. */
  function TruncateToMillis(c: Clock): Clock {
    c.(nanosecond := c.nanosecond / 1_000_000 * 1_000_000)
  }

  function ParseDate(s: string): Option<Date> {
    if |s| == 10 && s[4] == '-' && s[7] == '-'
       && AllDigits(s[..4]) && AllDigits(s[5..7]) && AllDigits(s[8..])
    then Some(Date(Value(s[..4]), Value(s[5..7]), Value(s[8..])))
    else None
  }

  function ParseClock(s: string): Option<Clock> {
    if |s| == 13 && s[2] == ':' && s[5] == ':' && s[8] == '.' && s[12] == 'Z'
       && AllDigits(s[..2]) && AllDigits(s[3..5]) && AllDigits(s[6..8]) && AllDigits(s[9..12])
    then Some(Clock(Value(s[..2]), Value(s[3..5]), Value(s[6..8]), Value(s[9..12]) * 1_000_000))
    else None
  }

  /** Reads a "2006-01-02T15:04:05.000Z" timestamp back into its components. */
  function ParseTimestamp(s: string): Option<(Date, Clock)> {
    if |s| == 24 && s[10] == 'T' then
      match (ParseDate(s[..10]), ParseClock(s[11..]))
      case (Some(d), Some(c)) => Some((d, c))
      case _ => None
    else None
  }

  lemma ParseFormatDate(d: Date)
    requires ValidDate(d)
    ensures ParseDate(FormatDate(d)) == Some(d)
  {
    var y, m, dd := Digits(d.year, 4), Digits(d.month, 2), Digits(d.day, 2);
    var s := FormatDate(d);
    assert s[..4] == y && s[5..7] == m && s[8..] == dd;
    ValueOfDigits(d.year, 4);
    ValueOfDigits(d.month, 2);
    ValueOfDigits(d.day, 2);
    DigitsAreDigits(d.year, 4);
    DigitsAreDigits(d.month, 2);
    DigitsAreDigits(d.day, 2);
  }

  lemma ParseFormatClock(c: Clock)
    requires ValidClock(c)
    ensures ParseClock(FormatClock(c)) == Some(TruncateToMillis(c))
  {
    var millis := c.nanosecond / 1_000_000;
    var h, m, sec, ms := Digits(c.hour, 2), Digits(c.minute, 2), Digits(c.second, 2), Digits(millis, 3);
    var s := FormatClock(c);
    assert s == h + ":" + m + ":" + sec + "." + ms + "Z";
    assert s[..2] == h;
    assert s[3..5] == m;
    assert s[6..8] == sec;
    assert s[9..12] == ms;
    ValueOfDigits(c.hour, 2);
    ValueOfDigits(c.minute, 2);
    ValueOfDigits(c.second, 2);
    ValueOfDigits(millis, 3);
    DigitsAreDigits(c.hour, 2);
    DigitsAreDigits(c.minute, 2);
    DigitsAreDigits(c.second, 2);
    DigitsAreDigits(millis, 3);
    assert ParseClock(s) == Some(Clock(c.hour, c.minute, c.second, millis * 1_000_000));
  }

  /** Reading a formatted timestamp back gives the date and the clock it was
      printed from, with the nanoseconds truncated to whole milliseconds. */
  lemma ParseFormatTimestamp(d: Date, c: Clock)
    requires ValidDate(d) && ValidClock(c)
    ensures ParseTimestamp(FormatTimestamp(d, c)) == Some((d, TruncateToMillis(c)))
  {
    var s := FormatTimestamp(d, c);
    assert s[11..] == FormatClock(c);
    ParseFormatDate(d);
    ParseFormatClock(c);
  }

  lemma DateAlphabet(d: Date)
    requires ValidDate(d)
    ensures forall i :: 0 <= i < |FormatDate(d)| ==> IsDigit(FormatDate(d)[i]) || FormatDate(d)[i] == '-'
  {
    DigitsAreDigits(d.year, 4);
    DigitsAreDigits(d.month, 2);
    DigitsAreDigits(d.day, 2);
  }

  lemma ClockAlphabet(c: Clock)
    requires ValidClock(c)
    ensures forall i :: 0 <= i < |FormatClock(c)| ==> IsDigit(FormatClock(c)[i]) || FormatClock(c)[i] in ":.Z"
  {
    DigitsAreDigits(c.hour, 2);
    DigitsAreDigits(c.minute, 2);
    DigitsAreDigits(c.second, 2);
    DigitsAreDigits(c.nanosecond / 1_000_000, 3);
  }

  /** A formatted timestamp holds nothing but digits and the layout's
      separators, so no quote or comma of a surrounding query text. */
  lemma TimestampAlphabet(d: Date, c: Clock)
    requires ValidDate(d) && ValidClock(c)
    ensures forall i :: 0 <= i < |FormatTimestamp(d, c)| ==>
      IsDigit(FormatTimestamp(d, c)[i]) || FormatTimestamp(d, c)[i] in "-T:.Z"
    ensures '\'' !in FormatTimestamp(d, c) && ',' !in FormatTimestamp(d, c)
  {
    var date, clock, s := FormatDate(d), FormatClock(c), FormatTimestamp(d, c);
    DateAlphabet(d);
    ClockAlphabet(c);
    forall i | 0 <= i < |s| ensures IsDigit(s[i]) || s[i] in "-T:.Z" {
      if i < 10 {
        assert s[i] == date[i];
      } else if i > 10 {
        assert s[i] == clock[i - 11];
      }
    }
  }
}
