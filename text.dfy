/**
 * The string operations the application relies on: `Array.prototype.join`,
 * `Number.prototype.toString` on non-negative integers and
 * `String.prototype.padStart`.
 */
module Text {

  /** `parts.join(sep)`: the parts in order with `sep` between neighbours. */
  function Join(parts: seq<string>, sep: string): string
    decreases |parts|
  {
    if |parts| == 0 then ""
    else if |parts| == 1 then parts[0]
    else parts[0] + sep + Join(parts[1..], sep)
  }

  /** Where the `i`-th part starts in `Join(parts, sep)`. */
  function Offset(parts: seq<string>, sep: string, i: nat): nat
    requires i <= |parts|
  {
    if i == 0 then 0 else Offset(parts, sep, i - 1) + |parts[i - 1]| + |sep|
  }

  /** Total length of the parts, separators not counted. */
  function TotalLength(parts: seq<string>): nat
  {
    if parts == [] then 0 else |parts[0]| + TotalLength(parts[1..])
  }

  lemma {:induction false} OffsetShift(parts: seq<string>, sep: string, i: nat)
    requires 0 < |parts| && i < |parts|
    ensures Offset(parts, sep, i + 1) == |parts[0]| + |sep| + Offset(parts[1..], sep, i)
  {
    if i > 0 {
      OffsetShift(parts, sep, i - 1);
    }
  }

  /** A non-empty join is as long as its parts plus exactly `|parts| - 1` separators. */
  lemma {:induction false} JoinLength(parts: seq<string>, sep: string)
    requires |parts| > 0
    ensures |Join(parts, sep)| == TotalLength(parts) + (|parts| - 1) * |sep|
  {
    if |parts| > 1 {
      JoinLength(parts[1..], sep);
    }
  }

  /** Slicing past a prefix slices the rest. */
  lemma SliceAfterPrefix(a: string, b: string, x: nat, y: nat)
    requires x <= y <= |b|
    ensures (a + b)[|a| + x..|a| + y] == b[x..y]
  {
  }

  /** A slice of a slice: a piece at `o` in a run that sits at `a` sits at `a + o`. */
  lemma SubSlice(full: string, a: nat, mid: string, o: nat, piece: string)
    requires a + |mid| <= |full| && full[a..a + |mid|] == mid
    requires o + |piece| <= |mid| && mid[o..o + |piece|] == piece
    ensures a + o + |piece| <= |full|
    ensures full[a + o..a + o + |piece|] == piece
  {
    forall k | 0 <= k < |piece|
      ensures full[a + o + k] == piece[k]
    {
      calc {
        full[a + o + k];
        full[a..a + |mid|][o + k];
        mid[o + k];
        mid[o..o + |piece|][k];
      }
    }
  }

  /** Part `i` of a join sits at `Offset(parts, sep, i)`. */
  lemma {:induction false} JoinPart(parts: seq<string>, sep: string, i: nat)
    requires i < |parts|
    ensures Offset(parts, sep, i) + |parts[i]| <= |Join(parts, sep)|
    ensures Join(parts, sep)[Offset(parts, sep, i)..Offset(parts, sep, i) + |parts[i]|] == parts[i]
  {
    if |parts| > 1 {
      var head := parts[0] + sep;
      var tail := Join(parts[1..], sep);
      assert Join(parts, sep) == head + tail;
      if i == 0 {
        assert (head + tail)[..|parts[0]|] == parts[0];
      } else {
        var rest := parts[1..];
        assert rest[i - 1] == parts[i];
        JoinPart(rest, sep, i - 1);
        OffsetShift(parts, sep, i - 1);
        var o := Offset(rest, sep, i - 1);
        assert Offset(parts, sep, i) == |head| + o;
        SliceAfterPrefix(head, tail, o, o + |parts[i]|);
      }
    }
  }

  /** Between part `i` and part `i + 1` of a join stands exactly one separator. */
  lemma {:induction false} JoinSeparator(parts: seq<string>, sep: string, i: nat)
    requires i + 1 < |parts|
    ensures Offset(parts, sep, i + 1) <= |Join(parts, sep)|
    ensures Join(parts, sep)[Offset(parts, sep, i) + |parts[i]|..Offset(parts, sep, i + 1)] == sep
  {
    var head := parts[0] + sep;
    var tail := Join(parts[1..], sep);
    assert Join(parts, sep) == head + tail;
    if i == 0 {
      assert (head + tail)[|parts[0]|..|parts[0]| + |sep|] == sep;
      JoinPart(parts[1..], sep, 0);
    } else {
      JoinSeparator(parts[1..], sep, i - 1);
      OffsetShift(parts, sep, i - 1);
      OffsetShift(parts, sep, i);
      var o := Offset(parts[1..], sep, i - 1);
      SliceAfterPrefix(head, tail, o + |parts[i]|, Offset(parts[1..], sep, i));
    }
  }

  /** The decimal digit character for `d`. */
  function DigitChar(d: nat): (c: char)
    requires d < 10
    ensures '0' <= c <= '9'
    ensures c as int - '0' as int == d
  {
    ('0' as int + d) as char
  }

  predicate IsDigit(c: char) {
    '0' <= c <= '9'
  }

  predicate AllDigits(s: string) {
    forall i :: 0 <= i < |s| ==> IsDigit(s[i])
  }

  /** `n.toString()` for a non-negative integer: its decimal digits, no leading zero. */
  function DecimalString(n: nat): (r: string)
    ensures |r| >= 1 && AllDigits(r)
    ensures |r| == 1 <==> n < 10
    ensures |r| > 1 ==> r[0] != '0'
  {
    if n < 10 then [DigitChar(n)] else DecimalString(n / 10) + [DigitChar(n % 10)]
  }

  /** The value of a string of decimal digits (the reading of `DecimalString`). */
  function DecimalValue(s: string): nat
    requires AllDigits(s)
  {
    if s == [] then 0
    else DecimalValue(s[..|s| - 1]) * 10 + (s[|s| - 1] as int - '0' as int)
  }

  /** Reading back a rendered number gives the number. */
  lemma {:induction false} DecimalRoundTrip(n: nat)
    ensures DecimalValue(DecimalString(n)) == n
  {
    var s := DecimalString(n);
    if n >= 10 {
      DecimalRoundTrip(n / 10);
      assert s[..|s| - 1] == DecimalString(n / 10);
    }
  }

  /** `s.padStart(width, fill)` with a one-character fill. */
  function PadStart(s: string, width: nat, fill: char): (r: string)
    ensures |r| == if |s| >= width then |s| else width
    ensures r[|r| - |s|..] == s
    ensures forall i :: 0 <= i < |r| - |s| ==> r[i] == fill
  {
    if |s| >= width then s else seq(width - |s|, _ => fill) + s
  }
}
