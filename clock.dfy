/**
 * The `mins:ss` clock both players print under their progress bars, and the
 * progress-bar width.
 */
module Clock {
  import opened Wrappers
  import opened Text

  /** `Math.trunc`: rounding toward zero. */
  function Trunc(x: real): int
  {
    if x >= 0.0 then x.Floor else -((-x).Floor)
  }

  /** JavaScript's `n % d` on numbers: the remainder of division truncated toward zero. */
  function JsRemainder(n: real, d: real): real
    requires d > 0.0
  {
    n - d * Trunc(n / d) as real
  }

  /** `formatTime(seconds)`: whole minutes, a colon, whole seconds padded to two digits. */
  function FormatTime(seconds: real): (r: string)
    requires seconds >= 0.0
    ensures |r| >= 4 && r[|r| - 3] == ':'
  {
    var mins := (seconds / 60.0).Floor;
    var secs := JsRemainder(seconds, 60.0).Floor;
    ClockFields(seconds);
    TwoDigits(secs);
    DecimalString(mins) + ":" + PadStart(DecimalString(secs), 2, '0')
  }

  lemma FloorIs(x: real, n: int)
    requires n as real <= x < n as real + 1.0
    ensures x.Floor == n
  {
  }

  /**
   * The two numbers `formatTime` prints: the minutes and a seconds field in
   * [0, 59], which together make up the whole seconds of the input.
   */
  lemma ClockFields(seconds: real)
    requires seconds >= 0.0
    ensures var mins := (seconds / 60.0).Floor;
            var secs := JsRemainder(seconds, 60.0).Floor;
            mins >= 0 && 0 <= secs < 60 && mins * 60 + secs == seconds.Floor
  {
    var mins := (seconds / 60.0).Floor;
    assert mins as real <= seconds / 60.0 < mins as real + 1.0;
    assert 60.0 * mins as real <= seconds < 60.0 * mins as real + 60.0;
    var rem := JsRemainder(seconds, 60.0);
    assert rem == seconds - 60.0 * mins as real;
    var secs := rem.Floor;
    FloorIs(seconds, secs + 60 * mins);
  }

  /** A seconds field below 60 pads to exactly two digits: tens, then units. */
  lemma TwoDigits(secs: int)
    requires 0 <= secs < 60
    ensures PadStart(DecimalString(secs), 2, '0') == [DigitChar(secs / 10), DigitChar(secs % 10)]
  {
    if secs < 10 {
      assert DecimalString(secs) == [DigitChar(secs)];
      assert DigitChar(0) == '0';
    } else {
      assert DecimalString(secs / 10) == [DigitChar(secs / 10)];
      assert DecimalString(secs) == [DigitChar(secs / 10), DigitChar(secs % 10)];
    }
  }

  /** `formatTime` of an input whose two fields are known: the minutes, a colon and two digits. */
  lemma FormatTimeOf(seconds: real, mins: int, secs: int)
    requires seconds >= 0.0
    requires (seconds / 60.0).Floor == mins && JsRemainder(seconds, 60.0).Floor == secs
    ensures 0 <= mins && 0 <= secs < 60
    ensures FormatTime(seconds) == DecimalString(mins) + ":" + [DigitChar(secs / 10), DigitChar(secs % 10)]
  {
    ClockFields(seconds);
    TwoDigits(secs);
  }

  /** Reads a `mins:ss` string back into its two numbers. */
  function ParseClock(r: string): Option<(nat, nat)>
  {
    if |r| >= 4 && r[|r| - 3] == ':' && AllDigits(r[..|r| - 3]) && AllDigits(r[|r| - 2..])
    then Some((DecimalValue(r[..|r| - 3]), DecimalValue(r[|r| - 2..])))
    else None
  }

  /** A `left:right` string with a two-digit right part parses into the two decimal values. */
  lemma ParseClockOf(left: string, right: string)
    requires |left| >= 1 && AllDigits(left)
    requires |right| == 2 && AllDigits(right)
    ensures ParseClock(left + ":" + right) == Some((DecimalValue(left), DecimalValue(right)))
  {
    var r := left + ":" + right;
    assert r[..|r| - 3] == left;
    assert r[|r| - 2..] == right;
  }

  /** The two padded digits of a seconds field read back as that field. */
  lemma TwoDigitsValue(secs: int)
    requires 0 <= secs < 60
    ensures AllDigits([DigitChar(secs / 10), DigitChar(secs % 10)])
    ensures DecimalValue([DigitChar(secs / 10), DigitChar(secs % 10)]) == secs
  {
    var right := [DigitChar(secs / 10), DigitChar(secs % 10)];
    assert right[..1] == [DigitChar(secs / 10)];
    assert [DigitChar(secs / 10)][..0] == [];
    assert DecimalValue([DigitChar(secs / 10)]) == secs / 10;
  }

  /** Minutes and seconds that make up `total` are its quotient and remainder by 60. */
  lemma SplitMinutes(total: int, mins: int, secs: int)
    requires mins >= 0 && 0 <= secs < 60 && mins * 60 + secs == total
    ensures total / 60 == mins && total % 60 == secs
  {
  }

  /**
   * `formatTime` loses nothing but the fraction: reading its output back gives
   * the minutes and the seconds within the minute of the whole seconds.
   */
  lemma FormatTimeReadsBack(seconds: real)
    requires seconds >= 0.0
    ensures seconds.Floor >= 0
    ensures ParseClock(FormatTime(seconds)) == Some((seconds.Floor / 60, seconds.Floor % 60))
  {
    var mins := (seconds / 60.0).Floor;
    var secs := JsRemainder(seconds, 60.0).Floor;
    ClockFields(seconds);
    TwoDigits(secs);
    TwoDigitsValue(secs);
    DecimalRoundTrip(mins);
    ParseClockOf(DecimalString(mins), [DigitChar(secs / 10), DigitChar(secs % 10)]);
    SplitMinutes(seconds.Floor, mins, secs);
  }

  /** The progress-bar width `currentTime / duration * 100`, in percent. */
  function ProgressPercent(currentTime: real, duration: real): (p: real)
    requires duration > 0.0
    ensures p * duration == currentTime * 100.0
    ensures 0.0 <= currentTime <= duration ==> 0.0 <= p <= 100.0
  {
    currentTime / duration * 100.0
  }
}
