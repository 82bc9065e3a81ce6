/**
 * Exact decimal arithmetic as java.math.BigDecimal performs it: decimals with a
 * scale, rounding to a scale with RoundingMode.HALF_UP, and the fixed-point
 * money unit that the rest of the model computes in.
 */
module Money {

  /** An amount of money in units of 0.0001. Every amount the program computes
      has at most four decimal places, so this representation is exact. */
  type Money = int

  /** 0.01 in money units. */
  const Cent: Money := 100

  /** A BigDecimal: the number unscaled * 10^(-scale). Decimals with different
      scales may denote the same number (1.0 and 1.00); the scale is kept
      because the order constructor inspects it. */
  datatype Decimal = Decimal(unscaled: int, scale: int)

  function Pow10(k: nat): (r: nat)
    ensures r >= 1
  {
    if k == 0 then 1 else 10 * Pow10(k - 1)
  }

  /** Numeric equality of two decimals whatever their scales (compareTo == 0). */
  predicate SameValue(a: Decimal, b: Decimal) {
    if a.scale <= b.scale then a.unscaled * Pow10(b.scale - a.scale) == b.unscaled
    else a.unscaled == b.unscaled * Pow10(a.scale - b.scale)
  }

  /** r, read at scale t, is x rounded to the nearest number with t decimals,
      ties going away from zero: exactly RoundingMode.HALF_UP. */
  predicate IsHalfUpRounding(r: int, x: Decimal, t: int) {
    if x.scale <= t then
      r == x.unscaled * Pow10(t - x.scale)
    else
      var p: int := Pow10(x.scale - t);
      var e := x.unscaled - r * p;
      if x.unscaled >= 0 then -p <= 2 * e < p else -p < 2 * e <= p
  }

  /** n / d rounded to the nearest integer, ties away from zero. */
  function RoundHalfUp(n: int, d: int): (q: int)
    requires d > 0
    ensures n >= 0 ==> -d <= 2 * (n - q * d) < d
    ensures n < 0 ==> -d < 2 * (n - q * d) <= d
  {
    if n >= 0 then
      var q := (2 * n + d) / (2 * d);
      assert 2 * d * q <= 2 * n + d < 2 * d * q + 2 * d;
      q
    else
      var q := (d - 2 * n) / (2 * d);
      assert 2 * d * q <= d - 2 * n < 2 * d * q + 2 * d;
      -q
  }

  /** BigDecimal.setScale(t, RoundingMode.HALF_UP): the unscaled value of x at scale t. */
  function SetScale(x: Decimal, t: int): (r: int)
    ensures IsHalfUpRounding(r, x, t)
  {
    if x.scale <= t then x.unscaled * Pow10(t - x.scale)
    else RoundHalfUp(x.unscaled, Pow10(x.scale - t))
  }

  /** Half-up rounding has one result only. */
  lemma HalfUpRoundingUnique(r1: int, r2: int, x: Decimal, t: int)
    requires IsHalfUpRounding(r1, x, t) && IsHalfUpRounding(r2, x, t)
    ensures r1 == r2
  {
    if x.scale > t {
      var p: int := Pow10(x.scale - t);
      assert (x.unscaled - r1 * p) - (x.unscaled - r2 * p) == (r2 - r1) * p;
      MulBelow(r2 - r1, p);
      MulBelow(r1 - r2, p);
    }
  }

  /** A multiple of a positive p that lies below p is not a positive multiple. */
  lemma MulBelow(j: int, p: int)
    requires p >= 1 && j * p < p
    ensures j <= 0
  {
  }

  /** Rounding a whole number of units at a finer scale down to that scale is exact. */
  lemma HalfUpRoundingOfMultiple(r: int, c: int, s: int, t: int)
    requires s > t && IsHalfUpRounding(r, Decimal(c * Pow10(s - t), s), t)
    ensures r == c
  {
    var p := Pow10(s - t);
    var x := Decimal(c * p, s);
    assert IsHalfUpRounding(c, x, t) by {
      assert x.unscaled - c * p == 0;
    }
    HalfUpRoundingUnique(r, c, x, t);
  }

  /** Rounding keeps the sign, and never rounds above a whole number k lying
      above the value being rounded. */
  lemma HalfUpRoundingBounds(r: int, n: int, s: int, t: int, k: int)
    requires s > t && IsHalfUpRounding(r, Decimal(n, s), t)
    ensures n >= 0 ==> r >= 0
    ensures n <= k * Pow10(s - t) ==> r <= k
  {
    var p: int := Pow10(s - t);
    if n >= 0 {
      assert (-r) * p < p;
      MulBelow(-r, p);
    }
    if n <= k * p {
      assert (r - k) * p == r * p - k * p;
      MulBelow(r - k, p);
    }
  }

  function Min(a: int, b: int): int { if a <= b then a else b }

  function Max(a: int, b: int): int { if a >= b then a else b }
}
