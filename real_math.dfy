/**
 * The scalar helpers the scan effect relies on, over mathematical reals:
 * JavaScript's Math.max/min/abs/sign and GLSL's max/clamp.
 */
module RealMath {

  function Max(a: real, b: real): (r: real)
    ensures r >= a && r >= b
    ensures r == a || r == b
  {
    if a >= b then a else b
  }

  function Min(a: real, b: real): (r: real)
    ensures r <= a && r <= b
    ensures r == a || r == b
  {
    if a <= b then a else b
  }

  function Abs(x: real): (r: real)
    ensures r >= 0.0
    ensures r == x || r == -x
  {
    if x < 0.0 then -x else x
  }

  /** Math.sign: -1, 0 or 1. */
  function Sign(x: real): (r: real)
    ensures r * Abs(x) == x
    ensures r == 1.0 || r == 0.0 || r == -1.0
    ensures (r > 0.0 <==> x > 0.0) && (r < 0.0 <==> x < 0.0)
  {
    if x > 0.0 then 1.0 else if x < 0.0 then -1.0 else 0.0
  }

  /** GLSL clamp(x, lo, hi), defined as min(max(x, lo), hi). */
  function Clamp(x: real, lo: real, hi: real): (r: real)
    requires lo <= hi
    ensures lo <= r <= hi
    ensures lo <= x <= hi ==> r == x
    ensures x < lo ==> r == lo
    ensures x > hi ==> r == hi
  {
    Min(Max(x, lo), hi)
  }

  /** Products of non-negative reals are non-negative. */
  lemma MulNonneg(a: real, b: real)
    requires a >= 0.0 && b >= 0.0
    ensures a * b >= 0.0
  {
  }

  /** A product is positive exactly when both factors share a strict sign. */
  lemma ProductPositive(a: real, b: real)
    ensures a * b > 0.0 <==> (a > 0.0 && b > 0.0) || (a < 0.0 && b < 0.0)
  {
    if a == 0.0 || b == 0.0 {
      assert a * b == 0.0;
    } else if (a > 0.0) != (b > 0.0) {
      if a < 0.0 {
        MulNonneg(-a, b);
      } else {
        MulNonneg(a, -b);
      }
      assert a * b != 0.0;
    }
  }

  lemma SquareNonneg(a: real)
    ensures a * a >= 0.0
  {
    if a < 0.0 { MulNonneg(-a, -a); } else { MulNonneg(a, a); }
  }

  /** Multiplying by a non-negative real keeps the order. */
  lemma MulMonotone(a: real, b: real, c: real)
    requires a <= b && c >= 0.0
    ensures a * c <= b * c
  {
    MulNonneg(b - a, c);
  }

  /** A quotient whose numerator reaches the (positive) denominator is at least 1. */
  lemma QuotientAtLeastOne(n: real, d: real)
    requires d > 0.0 && n >= d
    ensures n / d >= 1.0
  {
    var q := n / d;
    assert q * d == n;
    if q < 1.0 {
      MulMonotone(q, 1.0, d);
      assert false;
    }
  }
}
