/**
 * Span identity: the trace id and span id of a `SpanContext`.
 *
 * `SpanContext.generate` takes the lowercase hexadecimal rendering of a fresh
 * 128-bit UUID as the trace id (32 characters) and the first 16 characters of
 * the rendering of another one as the span id. The random draws themselves are
 * parameters here; only the shape of the identifiers is stated.
 */
module Identity {

  /** The alphabet of `uuid.UUID.hex`: lowercase hexadecimal digits. */
  const HexDigits: string := "0123456789abcdef"

  /** Number of distinct 128-bit values a UUID can hold: 16^32 = 2^128. */
  const UuidSpace: nat := Pow16(32)

  predicate IsHexDigit(c: char) {
    c in HexDigits
  }

  predicate IsHexString(s: string) {
    forall i :: 0 <= i < |s| ==> IsHexDigit(s[i])
  }

  /** 16 to the power `n`. */
  function Pow16(n: nat): (r: nat)
    ensures r >= 1
  {
    if n == 0 then 1 else 16 * Pow16(n - 1)
  }

  /** The value of one hexadecimal digit. */
  function DigitValue(c: char): (v: nat)
    requires IsHexDigit(c)
    ensures v < 16 && HexDigits[v] == c
  {
    if '0' <= c <= '9' then c as int - '0' as int else c as int - 'a' as int + 10
  }

  /**
   * The `width` lowest hexadecimal digits of `x`, most significant first,
   * zero-padded on the left: `uuid.UUID.hex` is `Hex(int, 32)`.
   */
  function Hex(x: nat, width: nat): (s: string)
    ensures |s| == width
    ensures IsHexString(s)
    decreases width
  {
    if width == 0 then [] else Hex(x / 16, width - 1) + [HexDigits[x % 16]]
  }

  /** The number a hexadecimal string denotes, most significant digit first. */
  function HexValue(s: string): (v: nat)
    requires IsHexString(s)
    ensures v < Pow16(|s|)
  {
    if s == [] then 0 else HexValue(s[..|s| - 1]) * 16 + DigitValue(s[|s| - 1])
  }

  /** Rendering a value that fits in `width` digits and reading it back gives the value. */
  lemma {:induction false} HexRoundTrip(x: nat, width: nat)
    requires x < Pow16(width)
    ensures HexValue(Hex(x, width)) == x
    decreases width
  {
    if width > 0 {
      var s := Hex(x, width);
      assert s[..|s| - 1] == Hex(x / 16, width - 1);
      assert x / 16 < Pow16(width - 1);
      HexRoundTrip(x / 16, width - 1);
      assert DigitValue(s[|s| - 1]) == x % 16;
    }
  }

  /** The leading `n` digits of a rendering are the rendering of the high-order part. */
  lemma {:induction false} HexPrefix(x: nat, n: nat, rest: nat)
    ensures Hex(x, n + rest)[..n] == Hex(x / Pow16(rest), n)
    decreases rest
  {
    if rest > 0 {
      var s := Hex(x, n + rest);
      assert s[..n] == Hex(x / 16, n + rest - 1)[..n];
      HexPrefix(x / 16, n, rest - 1);
      DivDiv(x, 16, Pow16(rest - 1));
    }
  }

  lemma PowAdd(m: nat, n: nat)
    ensures Pow16(m + n) == Pow16(m) * Pow16(n)
  {
    if m > 0 {
      PowAdd(m - 1, n);
    }
  }

  lemma DivUnique(x: nat, d: nat, q: nat, r: nat)
    requires d > 0 && r < d && x == q * d + r
    ensures x / d == q
  {
    var q', r' := x / d, x % d;
    assert (q' - q) * d == r - r';
    if q' > q {
      MulAtLeast(q' - q, d);
    } else if q' < q {
      MulAtLeast(q - q', d);
    }
  }

  lemma MulAtLeast(k: int, d: int)
    requires k >= 1 && d >= 0
    ensures k * d >= d
  {
  }

  lemma DivDiv(x: nat, a: nat, b: nat)
    requires a > 0 && b > 0
    ensures x / a / b == x / (a * b)
  {
    var q, r := x / a, x % a;
    var q2, r2 := q / b, q % b;
    assert x == q * a + r;
    assert q == q2 * b + r2;
    MulSplit(q2, b, r2, a);
    assert x == q2 * (a * b) + (r2 * a + r);
    MulBelow(r2, b, a);
    assert r2 * a + r < a * b;
    DivUnique(x, a * b, q2, r2 * a + r);
  }

  lemma MulSplit(q: int, b: int, r: int, a: int)
    ensures (q * b + r) * a == q * (a * b) + r * a
  {
  }

  lemma MulBelow(r: nat, b: nat, a: nat)
    requires r < b
    ensures r * a + a <= a * b
  {
    MulAtLeast(b - r, a);
    assert (b - r) * a == a * b - r * a;
  }

  /** Identity of one span (`SpanContext`). */
  datatype SpanContext = SpanContext(
    traceId: string,
    spanId: string,
    traceFlags: int,  // bit 0 set: sampled
    traceState: string)

  /** The shape every generated context has. */
  predicate WellFormed(c: SpanContext) {
    |c.traceId| == 32 && IsHexString(c.traceId) &&
    |c.spanId| == 16 && IsHexString(c.spanId)
  }

  /**
   * `SpanContext.generate`: `traceDraw` and `spanDraw` are the two random
   * 128-bit UUID values; the trace id renders the first in full and the span
   * id keeps the first 16 digits of the second. Flags default to 1 (sampled),
   * the trace state to "".
   */
  function Generate(traceDraw: nat, spanDraw: nat): (c: SpanContext)
    requires traceDraw < UuidSpace && spanDraw < UuidSpace
    ensures WellFormed(c)
    ensures c.traceFlags == 1 && c.traceState == ""
  {
    SpanContext(Hex(traceDraw, 32), Hex(spanDraw, 32)[..16], 1, "")
  }

  /**
   * No information is invented: the trace id denotes exactly its draw and the
   * span id the high-order 64 bits of its draw.
   */
  lemma GenerateReadsBack(traceDraw: nat, spanDraw: nat)
    requires traceDraw < UuidSpace && spanDraw < UuidSpace
    ensures HexValue(Generate(traceDraw, spanDraw).traceId) == traceDraw
    ensures HexValue(Generate(traceDraw, spanDraw).spanId) == spanDraw / Pow16(16)
  {
    IdsReadBack(traceDraw, spanDraw, 16);
  }

  /** Both identifiers of a context read back as the draws they were rendered from. */
  lemma IdsReadBack(traceDraw: nat, spanDraw: nat, n: nat)
    requires traceDraw < Pow16(n + n) && spanDraw < Pow16(n + n)
    ensures HexValue(Hex(traceDraw, n + n)) == traceDraw
    ensures HexValue(Hex(spanDraw, n + n)[..n]) == spanDraw / Pow16(n)
  {
    HexRoundTrip(traceDraw, n + n);
    assert spanDraw / Pow16(n) < Pow16(n) by {
      HighPartFits(spanDraw, n, n);
    }
    HexPrefixValue(spanDraw, n, n);
  }

  lemma HexPrefixValue(x: nat, n: nat, rest: nat)
    requires x / Pow16(rest) < Pow16(n)
    ensures HexValue(Hex(x, n + rest)[..n]) == x / Pow16(rest)
  {
    HexRoundTrip(x / Pow16(rest), n);
    HexPrefix(x, n, rest);
  }

  lemma HighPartFits(x: nat, n: nat, rest: nat)
    requires x < Pow16(n + rest)
    ensures x / Pow16(rest) < Pow16(n)
  {
    PowAdd(n, rest);
    DivBelow(x, Pow16(rest), Pow16(n));
  }

  lemma DivBelow(x: nat, d: nat, m: nat)
    requires d > 0 && x < m * d
    ensures x / d < m
  {
  }
}
