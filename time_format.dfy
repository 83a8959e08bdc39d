/**
 * The mini player's time label (components/GeneratorModal.tsx): a position in
 * seconds shown as minutes, a colon and two-digit seconds ("M:SS").
 *
 * JavaScript's `Math.floor` is `.Floor` on reals; JavaScript's `%` takes the
 * sign of the dividend (it truncates the quotient), unlike Dafny's Euclidean
 * remainder, so it is written out here.
 */
module TimeFormat {
  import opened Wrappers

  function Digit(d: nat): (c: char)
    requires d < 10
    ensures '0' <= c <= '9' && c as int - '0' as int == d
  {
    (d + '0' as int) as char
  }

  function DigitValue(c: char): nat
    requires '0' <= c <= '9'
  {
    c as int - '0' as int
  }

  predicate AllDigits(s: string)
  {
    forall i :: 0 <= i < |s| ==> '0' <= s[i] <= '9'
  }

  /** Decimal rendering of a natural number, most significant digit first, no padding. */
  function NatToDecimal(n: nat): (s: string)
    ensures |s| >= 1 && AllDigits(s)
    ensures n < 10 <==> |s| == 1
  {
    if n < 10 then [Digit(n)] else NatToDecimal(n / 10) + [Digit(n % 10)]
  }

  /**
   * JavaScript's rendering of an integral number inside a template literal, for
   * magnitudes below 10^21 (larger ones JavaScript writes in exponent form).
   */
  function IntToDecimal(i: int): string
  {
    if i < 0 then "-" + NatToDecimal(-i) else NatToDecimal(i)
  }

  /** The value of a string of decimal digits. */
  function DecimalValue(s: string): nat
    requires AllDigits(s)
  {
    if s == [] then 0 else 10 * DecimalValue(s[..|s| - 1]) + DigitValue(s[|s| - 1])
  }

  /** JavaScript's truncation toward zero. */
  function Trunc(x: real): int
  {
    if x >= 0.0 then x.Floor else -((-x).Floor)
  }

  /** JavaScript's `x % m`: the remainder of a quotient truncated toward zero. */
  function JsRemainder(x: real, m: real): real
    requires m != 0.0
  {
    x - m * (Trunc(x / m) as real)
  }

  /** `formatTime`, for every number the surface can report. */
  function FormatTime(secs: real): string
  {
    var m := (secs / 60.0).Floor;
    var s := JsRemainder(secs, 60.0).Floor;
    IntToDecimal(m) + ":" + (if s < 10 then "0" else "") + IntToDecimal(s)
  }

  /** Two-digit seconds: tens then units. */
  function TwoDigits(s: nat): (r: string)
    requires s < 60
    ensures |r| == 2 && AllDigits(r)
  {
    [Digit(s / 10), Digit(s % 10)]
  }

  /** Reads back an "M:SS" label: unpadded minutes, a colon, exactly two digits. */
  function ParseClock(t: string): Option<(nat, nat)>
  {
    if |t| >= 4 && t[|t| - 3] == ':' && AllDigits(t[..|t| - 3]) && AllDigits(t[|t| - 2..]) then
      Some((DecimalValue(t[..|t| - 3]), DecimalValue(t[|t| - 2..])))
    else
      None
  }

  /** Reading a rendered number gives the number back. */
  lemma {:induction false} DecimalRoundTrip(n: nat)
    ensures DecimalValue(NatToDecimal(n)) == n
  {
    if n >= 10 {
      var s := NatToDecimal(n);
      assert s[..|s| - 1] == NatToDecimal(n / 10);
      assert s[|s| - 1] == Digit(n % 10);
      DecimalRoundTrip(n / 10);
    }
  }

  lemma TwoDigitsValue(s: nat)
    requires s < 60
    ensures DecimalValue(TwoDigits(s)) == s
  {
    var r := TwoDigits(s);
    assert r[..1] == [Digit(s / 10)];
    assert r[..1][..0] == [];
    assert DecimalValue(r[..1]) == s / 10;
    assert DecimalValue(r) == 10 * (s / 10) + s % 10;
  }

  /** Seconds below sixty, as `formatTime` pads them, are always two digits. */
  lemma {:induction false} PaddedSeconds(s: nat)
    requires s < 60
    ensures (if s < 10 then "0" else "") + IntToDecimal(s) == TwoDigits(s)
  {
    if s >= 10 {
      assert NatToDecimal(s) == NatToDecimal(s / 10) + [Digit(s % 10)];
    }
  }

  /**
   * For a non-negative position, the minutes are the whole seconds divided by
   * sixty and the seconds are the whole seconds' remainder modulo sixty.
   */
  lemma {:induction false} ClockParts(secs: real)
    requires secs >= 0.0
    ensures (secs / 60.0).Floor == secs.Floor / 60
    ensures JsRemainder(secs, 60.0).Floor == secs.Floor % 60
  {
    var f := secs.Floor;
    var k := (secs / 60.0).Floor;
    assert k >= 0;
    assert (k as real) <= secs / 60.0 < (k as real) + 1.0;
    assert 60.0 * (k as real) <= secs < 60.0 * (k as real) + 60.0;
    assert ((60 * k) as real) <= secs;
    assert 60 * k <= f;
    assert f < 60 * k + 60;
    assert f / 60 == k;
    assert Trunc(secs / 60.0) == k;
    var rem := JsRemainder(secs, 60.0);
    assert rem == secs - ((60 * k) as real);
    assert rem.Floor == f - 60 * k;
  }

  /**
   * The label of a non-negative position is the unpadded minutes, a colon and the
   * seconds padded to two digits.
   */
  lemma FormatTimeShape(secs: real)
    requires secs >= 0.0
    ensures FormatTime(secs) == NatToDecimal(secs.Floor / 60) + ":" + TwoDigits(secs.Floor % 60)
  {
    ClockParts(secs);
    PaddedSeconds(secs.Floor % 60);
  }

  /** An "M:SS" label built from minutes and two-digit seconds reads back as both. */
  lemma ClockLabelReadsBack(m: nat, s: nat)
    requires s < 60
    ensures ParseClock(NatToDecimal(m) + ":" + TwoDigits(s)) == Some((m, s))
  {
    var digits := NatToDecimal(m);
    var t := digits + ":" + TwoDigits(s);
    assert t[..|t| - 3] == digits;
    assert t[|t| - 2..] == TwoDigits(s);
    DecimalRoundTrip(m);
    TwoDigitsValue(s);
  }

  /**
   * Round trip: the label of a non-negative position reads back as minutes and
   * seconds that add up to the position's whole seconds, with seconds below 60.
   */
  lemma FormatTimeReadsBack(secs: real)
    requires secs >= 0.0
    ensures ParseClock(FormatTime(secs)).Some?
    ensures var (m, s) := ParseClock(FormatTime(secs)).value;
            s < 60 && 60 * m + s == secs.Floor
  {
    var f: nat := secs.Floor;
    FormatTimeShape(secs);
    ClockLabelReadsBack(f / 60, f % 60);
  }
}
