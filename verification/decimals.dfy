/**
 * Exact decimal numbers. A duration in seconds is an Integer or a Float in the
 * library; here it is `mantissa / 10^scale`, and a Float is a value whose
 * scale is positive (it was written with a decimal point).
 */
module Decimals {
  import opened Text

  datatype Decimal = Decimal(mantissa: nat, scale: nat)

  function Whole(n: nat): (d: Decimal)
    ensures !IsFloat(d)
  {
    Decimal(n, 0)
  }

  function Value(d: Decimal): real
  {
    d.mantissa as real / Pow10(d.scale) as real
  }

  predicate IsFloat(d: Decimal) { d.scale > 0 }

  lemma ValueWhole(n: nat)
    ensures Value(Whole(n)) == n as real
  {
  }

  lemma {:induction false} ValueZero(d: Decimal)
    ensures Value(d) == 0.0 <==> d.mantissa == 0
    ensures Value(d) >= 0.0
  {
    var p := Pow10(d.scale) as real;
    assert p > 0.0;
    assert Value(d) * p == d.mantissa as real;
  }

  lemma CancelFactor(x: real, y: real, z: real)
    requires y > 0.0 && z > 0.0
    ensures (x * z) / (y * z) == x / y
  {
  }

  lemma RealProduct(a: nat, b: nat)
    ensures (a * b) as real == a as real * b as real
  {
  }

  lemma ScaleRatio(m: nat, p: nat, q: nat, r: nat)
    requires r == q * p && p > 0 && q > 0
    ensures (m * p) as real / r as real == m as real / q as real
  {
    RealProduct(m, p);
    RealProduct(q, p);
    CancelFactor(m as real, q as real, p as real);
  }

  lemma RescaleValue(m: nat, k: nat, e: nat)
    ensures (m * Pow10(k)) as real / Pow10(k + e) as real == m as real / Pow10(e) as real
  {
    Pow10Add(k, e);
    ScaleRatio(m, Pow10(k), Pow10(e), Pow10(k + e));
  }

  /** The same number written with `s` digits after the point. */
  function Rescale(d: Decimal, s: nat): (r: Decimal)
    requires s >= d.scale
    ensures r.scale == s
    ensures Value(r) == Value(d)
  {
    RescaleValue(d.mantissa, s - d.scale, d.scale);
    Decimal(d.mantissa * Pow10(s - d.scale), s)
  }

  function Max(a: nat, b: nat): nat { if a < b then b else a }

  lemma AddSameScale(a: Decimal, b: Decimal)
    requires a.scale == b.scale
    ensures Value(Decimal(a.mantissa + b.mantissa, a.scale)) == Value(a) + Value(b)
  {
    var p := Pow10(a.scale) as real;
    assert (a.mantissa + b.mantissa) as real == a.mantissa as real + b.mantissa as real;
  }

  function Add(a: Decimal, b: Decimal): (r: Decimal)
    ensures r.scale == Max(a.scale, b.scale)
    ensures Value(r) == Value(a) + Value(b)
  {
    var s := Max(a.scale, b.scale);
    var a', b' := Rescale(a, s), Rescale(b, s);
    AddSameScale(a', b');
    Decimal(a'.mantissa + b'.mantissa, s)
  }

  /** Multiplication by a whole number, as for a magnitude times a unit length. */
  function Times(d: Decimal, k: nat): (r: Decimal)
    ensures r.scale == d.scale
    ensures Value(r) == Value(d) * k as real
  {
    var r := Decimal(d.mantissa * k, d.scale);
    assert (d.mantissa * k) as real == d.mantissa as real * k as real;
    r
  }

  /** No trailing zero after the point: the shortest spelling of the value. */
  predicate Canonical(d: Decimal) { d.scale == 0 || d.mantissa % 10 != 0 }

  /**
   * The canonical spelling of `d`: trailing zeros after the point are dropped,
   * and a value with no fractional part becomes a whole number, so 80.0 is
   * written as 80.
   */
  function Normalize(d: Decimal): (r: Decimal)
    ensures Canonical(r)
    ensures r.scale <= d.scale
    ensures Value(r) == Value(d)
    decreases d.scale
  {
    if d.scale > 0 && d.mantissa % 10 == 0 then
      var e := Decimal(d.mantissa / 10, d.scale - 1);
      assert Rescale(e, d.scale) == d;
      Normalize(e)
    else d
  }

  /** Two decimals with the same scale and the same value are the same decimal. */
  lemma SameScaleSameValue(a: Decimal, b: Decimal)
    requires a.scale == b.scale && Value(a) == Value(b)
    ensures a == b
  {
    var p := Pow10(a.scale) as real;
    assert Value(a) * p == a.mantissa as real;
    assert Value(b) * p == b.mantissa as real;
  }

  /** The canonical spelling of a value is unique. */
  lemma {:induction false} CanonicalUnique(a: Decimal, b: Decimal)
    requires Canonical(a) && Canonical(b) && Value(a) == Value(b)
    ensures a == b
  {
    CanonicalMinimalScale(a, b);
    CanonicalMinimalScale(b, a);
    SameScaleSameValue(a, b);
  }

  /** A canonical decimal uses no more digits after the point than any other spelling. */
  lemma CanonicalMinimalScale(a: Decimal, b: Decimal)
    requires Canonical(b) && Value(a) == Value(b)
    ensures b.scale <= a.scale
  {
    FinerNotCanonical(a, b);
  }

  /** A value spelled with more fraction digits than it needs ends in a zero digit. */
  lemma FinerNotCanonical(a: Decimal, b: Decimal)
    requires Value(a) == Value(b)
    ensures a.scale < b.scale ==> !Canonical(b)
  {
    if a.scale < b.scale {
      var a' := Rescale(a, b.scale);
      SameScaleSameValue(a', b);
      var k := b.scale - a.scale;
      assert Pow10(k) == 10 * Pow10(k - 1);
      assert b.mantissa == (a.mantissa * Pow10(k - 1)) * 10;
    }
  }

  /** Normalize is the canonical spelling of the value it is given. */
  lemma NormalizeCanonical(d: Decimal, c: Decimal)
    requires Canonical(c) && Value(c) == Value(d)
    ensures Normalize(d) == c
  {
    CanonicalUnique(Normalize(d), c);
  }
}
