/**
 * The "M:SS" rendering of a playback position given in milliseconds, as the
 * activity prints it into its two time labels: whole minutes in decimal
 * without padding, a colon, then the whole seconds within the minute,
 * zero-padded to two digits.
 */
module TimeFormat {

  /** The two fields shown by the label. */
  datatype Clock = Clock(minutes: nat, seconds: nat)

  datatype Option<T> = None | Some(value: T)

  // ---------------------------------------------------------------------
  // Decimal digits
  // ---------------------------------------------------------------------

  predicate IsDigit(c: char) {
    '0' <= c <= '9'
  }

  predicate AllDigits(s: string) {
    forall i :: 0 <= i < |s| ==> IsDigit(s[i])
  }

  function DigitValue(c: char): (d: nat)
    requires IsDigit(c)
    ensures d < 10
  {
    c as int - '0' as int
  }

  function DigitChar(d: nat): (c: char)
    requires d < 10
    ensures IsDigit(c) && DigitValue(c) == d
  {
    ('0' as int + d) as char
  }

  /** The number a string of decimal digits denotes, read most significant first. */
  function ParseDecimal(s: string): nat
    requires AllDigits(s)
  {
    if s == [] then 0 else ParseDecimal(s[..|s| - 1]) * 10 + DigitValue(s[|s| - 1])
  }

  /**
   * What `%d` prints for a non-negative number: at least one digit, no
   * leading zero unless the number is zero, and it reads back as the number.
   */
  function Decimal(n: nat): (r: string)
    ensures AllDigits(r) && ParseDecimal(r) == n
    ensures |r| == 1 <==> n < 10
    ensures 1 <= |r| && (|r| > 1 ==> r[0] != '0')
  {
    if n < 10 then [DigitChar(n)] else Decimal(n / 10) + [DigitChar(n % 10)]
  }

  /** What `%02d` prints for a non-negative number: padded with zeros to two digits. */
  function PadTwo(n: nat): (r: string)
    ensures AllDigits(r) && ParseDecimal(r) == n
    ensures |r| >= 2 && (n < 100 ==> |r| == 2)
    ensures n >= 10 ==> r == Decimal(n)
  {
    if n < 10 then "0" + Decimal(n) else Decimal(n)
  }

  // ---------------------------------------------------------------------
  // Milliseconds to minutes and seconds
  // ---------------------------------------------------------------------

  /** Whole minutes in a millisecond count (`TimeUnit.MILLISECONDS.toMinutes`), rounded down. */
  function ToMinutes(ms: nat): (m: nat)
    ensures m * 60000 <= ms < (m + 1) * 60000
  {
    ms / 60000
  }

  /** Whole seconds in a millisecond count (`TimeUnit.MILLISECONDS.toSeconds`), rounded down. */
  function ToSeconds(ms: nat): (sec: nat)
    ensures sec * 1000 <= ms < (sec + 1) * 1000
  {
    ms / 1000
  }

  /** Counting whole minutes directly or via whole seconds gives the same number. */
  lemma MinutesOfSeconds(ms: nat)
    ensures ToMinutes(ms) == ToSeconds(ms) / 60
  {
    var s, f := ms / 1000, ms % 1000;
    var m, sec := s / 60, s % 60;
    assert ms == 60000 * m + 1000 * sec + f;
  }

  /** The fields the label shows for a millisecond count. */
  function Fields(ms: nat): (c: Clock)
    ensures c.seconds < 60
    ensures c.minutes * 60 + c.seconds == ToSeconds(ms)
  {
    MinutesOfSeconds(ms);
    Clock(ToMinutes(ms), ToSeconds(ms) % 60)
  }

  /** The activity's `formatTime`: minutes, a colon, and the two-digit seconds. */
  function FormatTime(ms: nat): string {
    Decimal(ToMinutes(ms)) + ":" + PadTwo(ToSeconds(ms) % 60)
  }

  /**
   * Every label splits at its third-last character, a colon, into a
   * canonical decimal count of whole minutes and exactly two digits giving
   * the whole seconds within the minute.
   */
  lemma FormatTimeShape(ms: nat)
    ensures var r := FormatTime(ms);
      && |r| >= 4 && r[|r| - 3] == ':'
      && AllDigits(r[..|r| - 3]) && ParseDecimal(r[..|r| - 3]) == ToMinutes(ms)
      && (|r| > 4 ==> r[0] != '0')
      && AllDigits(r[|r| - 2..]) && ParseDecimal(r[|r| - 2..]) == ToSeconds(ms) % 60
  {
    var minutes := Decimal(ToMinutes(ms));
    var seconds := PadTwo(ToSeconds(ms) % 60);
    var r := FormatTime(ms);
    assert r == minutes + ":" + seconds;
    assert r[..|r| - 3] == minutes;
    assert r[|r| - 2..] == seconds;
  }

  /**
   * Reads an "M:SS" label back: a canonical decimal minute count, a colon and
   * two digits; anything else is not a label.
   */
  function ParseTime(s: string): (c: Option<Clock>)
    ensures c.Some? ==> c.value.seconds < 100
  {
    if |s| >= 4 && s[|s| - 3] == ':'
       && AllDigits(s[..|s| - 3]) && (|s| == 4 || s[0] != '0')
       && AllDigits(s[|s| - 2..])
    then
      var tail := s[|s| - 2..];
      assert ParseDecimal(tail) == ParseDecimal(tail[..1]) * 10 + DigitValue(tail[1]);
      assert ParseDecimal(tail[..1]) == DigitValue(tail[0]) by {
        assert tail[..1][..0] == [];
      }
      Some(Clock(ParseDecimal(s[..|s| - 3]), ParseDecimal(tail)))
    else
      None
  }

  // ---------------------------------------------------------------------
  // Properties of formatTime
  // ---------------------------------------------------------------------

  /** Every label reads back as the minutes and seconds of its millisecond count. */
  lemma ParseFormatTime(ms: nat)
    ensures ParseTime(FormatTime(ms)) == Some(Fields(ms))
    ensures Fields(ms).seconds <= 59
  {
    FormatTimeShape(ms);
  }

  /** Two counts get the same label exactly when they agree in whole seconds. */
  lemma {:induction false} FormatTimeSameIff(a: nat, b: nat)
    ensures FormatTime(a) == FormatTime(b) <==> ToSeconds(a) == ToSeconds(b)
  {
    if FormatTime(a) == FormatTime(b) {
      ParseFormatTime(a);
      ParseFormatTime(b);
      assert Fields(a) == Fields(b);
    }
    if ToSeconds(a) == ToSeconds(b) {
      MinutesOfSeconds(a);
      MinutesOfSeconds(b);
    }
  }

  /** The sub-second part of a count never shows: it is truncated, not rounded. */
  lemma FormatTimeTruncates(ms: nat)
    ensures FormatTime(ms) == FormatTime(ms - ms % 1000)
  {
    var whole := ms - ms % 1000;
    assert ToSeconds(whole) == ToSeconds(ms);
    FormatTimeSameIff(ms, whole);
  }

  /**
   * Every minute count and every second below 60 is shown for the counts of
   * that second: the minutes field has no upper bound.
   */
  lemma FieldsOfClock(minutes: nat, seconds: nat, millis: nat)
    requires seconds < 60 && millis < 1000
    ensures Fields(minutes * 60000 + seconds * 1000 + millis) == Clock(minutes, seconds)
    ensures FormatTime(minutes * 60000 + seconds * 1000 + millis) == Decimal(minutes) + ":" + PadTwo(seconds)
  {
    var ms := minutes * 60000 + seconds * 1000 + millis;
    assert ToSeconds(ms) == minutes * 60 + seconds;
    MinutesOfSeconds(ms);
  }

  /**
   * Three labels: "0:00", which the stop button writes for position zero;
   * the last second of the first minute; and "1:05", the example of the
   * formatter's own documentation.
   */
  lemma FormatTimeExamples()
    ensures FormatTime(0) == "0:00"
    ensures FormatTime(59000) == "0:59"
    ensures FormatTime(65000) == "1:05"
  {
    FieldsOfClock(0, 0, 0);
    FieldsOfClock(0, 59, 0);
    FieldsOfClock(1, 5, 0);
  }
}
