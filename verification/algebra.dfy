/** Real-arithmetic steps used by the schedule and reverse-step proofs,
    each kept small so that the solver sees one rewrite at a time, and
    the square root the coefficients are written with. */
module RealAlgebra {

  /** `sqrt` behaves as the non-negative square root on [0, inf). The
      model takes the square root as a parameter and assumes only this. */
  ghost predicate IsSqrt(sqrt: real -> real)
  {
    forall x :: 0.0 <= x ==> 0.0 <= sqrt(x) && sqrt(x) * sqrt(x) == x
  }

  /** Two non-negative numbers with equal squares are equal. */
  lemma SquareInjective(u: real, v: real)
    requires 0.0 <= u && 0.0 <= v && u * u == v * v
    ensures u == v
  {
    assert (u - v) * (u + v) == 0.0;
    if u + v == 0.0 {
      assert u == 0.0;
    } else if u != v {
      assert false;
    }
  }

  /** The square root of a product is the product of the square roots. */
  lemma SqrtProduct(sqrt: real -> real, x: real, y: real)
    requires IsSqrt(sqrt)
    requires 0.0 <= x && 0.0 <= y
    ensures sqrt(x * y) == sqrt(x) * sqrt(y)
  {
    var sx, sy := sqrt(x), sqrt(y);
    assert 0.0 <= x * y;
    var u := sqrt(x * y);
    assert 0.0 <= u && u * u == x * y;
    assert 0.0 <= sx * sy;
    assert (sx * sy) * (sx * sy) == (sx * sx) * (sy * sy);
    SquareInjective(u, sx * sy);
  }

  /** A positive argument has a positive root. */
  lemma SqrtPositive(sqrt: real -> real, x: real)
    requires IsSqrt(sqrt)
    requires 0.0 < x
    ensures 0.0 < sqrt(x) && sqrt(x) * sqrt(x) == x
  {
    if sqrt(x) == 0.0 {
      assert false;
    }
  }

  /** A positive numerator below its denominator gives a ratio in (0, 1). */
  lemma RatioBelowOne(num: real, den: real)
    requires 0.0 < num < den
    ensures 0.0 < num / den < 1.0
  {
    var r := num / den;
    assert r * den == num;
    if r >= 1.0 {
      assert false;
    }
  }

  /** Scaling by a factor in (0, 1] keeps a positive number positive and
      does not increase it. */
  lemma ScaledBelow(f: real, a: real)
    requires 0.0 < f <= 1.0 && 0.0 < a
    ensures 0.0 < f * a <= a
  {
    assert (1.0 - f) * a >= 0.0;
  }

  lemma DivByEqual(u: real, s: real, t: real)
    requires s == t && t != 0.0
    ensures u / s == u / t
  {
  }

  lemma CancelCommon(k: real, m: real, n: real)
    requires k != 0.0 && n != 0.0
    ensures (k * m) / (k * n) == m / n
  {
    assert (k * m) / (k * n) * (k * n) == k * m;
  }

  lemma CancelLeft(b: real, s: real, d: real, u: real, r: real)
    requires s != 0.0 && d != 0.0 && r != 0.0
    ensures b * s / d * (u / (s * r)) == b * u / (d * r)
  {
  }

  lemma MoveFactor(r: real, w: real, d: real, x: real)
    requires r != 0.0 && d != 0.0
    ensures r * w / d * x == r * r * w * x / (d * r)
  {
  }

  lemma AddOver(p: real, v: real, q: real)
    requires q != 0.0
    ensures p / q + v / q == (p + v) / q
  {
  }

  lemma SplitOver(d: real, x: real, y: real, r: real)
    requires d != 0.0 && r != 0.0
    ensures (d * x - y) / (d * r) == x / r - y / (d * r)
  {
  }

  lemma MulDivComm(u: real, e: real, v: real)
    requires v != 0.0
    ensures u * e / v == u / v * e
  {
  }

  lemma SquareCancel(b: real, q: real, r: real, d: real)
    requires 0.0 < q && 0.0 < r && d == q * q && d * r != 0.0
    ensures b * q / (d * r) == b / (q * r)
  {
    assert 0.0 < q * r;
    CancelCommon(q, b, q * r);
    assert q * b == b * q;
    assert q * (q * r) == q * q * r;
  }

  lemma ScaleDifference(b: real, r: real, x: real, c: real, e: real)
    requires r != 0.0 && c != 0.0
    ensures 1.0 / r * (x - b / c * e) == x / r - b / (c * r) * e
  {
  }

  /** With beta = 1 - alpha and alpha_bar = alpha_bar_prev * alpha, the
      numerator of the collected posterior mean. */
  lemma Numerator(b: real, a: real, abp: real, ab: real, d: real, r: real, q: real, x: real, e: real)
    requires a == 1.0 - b && ab == abp * a && r * r == a && d == 1.0 - ab
    ensures b * (x - q * e) + r * r * (1.0 - abp) * x == d * x - b * q * e
  {
    assert r * r * (1.0 - abp) * x == (a - ab) * x;
  }

  /** Both posterior-mean terms over the common divisor d * r. */
  lemma CollectTerms(b: real, sp: real, d: real, r: real, abp: real, q: real, x: real, e: real)
    requires 0.0 < sp && 0.0 < d && 0.0 < r
    ensures b * sp / d * ((x - q * e) / (sp * r)) + r * (1.0 - abp) / d * x
         == (b * (x - q * e) + r * r * (1.0 - abp) * x) / (d * r)
  {
    CancelLeft(b, sp, d, x - q * e, r);
    MoveFactor(r, 1.0 - abp, d, x);
    AddOver(b * (x - q * e), r * r * (1.0 - abp) * x, d * r);
  }

  /** The collected numerator, split back into the noise-prediction form. */
  lemma SplitTerms(b: real, d: real, r: real, q: real, x: real, e: real)
    requires 0.0 < d && 0.0 < r && 0.0 < q && d == q * q
    ensures (d * x - b * q * e) / (d * r) == 1.0 / r * (x - b / q * e)
  {
    assert 0.0 < d * r;
    SplitOver(d, x, b * q * e, r);
    MulDivComm(b * q, e, d * r);
    SquareCancel(b, q, r, d);
    ScaleDifference(b, r, x, q, e);
  }

  /** The identity behind DDPM's noise-prediction mean, on scalars:
      (x - b / q * e) / r equals coef1 * (x - q e) / (sp r) + coef2 * x,
      where r^2 = a, sp^2 = abp, q^2 = 1 - ab, b = 1 - a, ab = abp * a. */
  lemma PosteriorMeanAlgebra(b: real, a: real, abp: real, ab: real, r: real, sp: real, q: real, x: real, e: real)
    requires a == 1.0 - b
    requires ab == abp * a && ab < 1.0
    requires 0.0 < r && r * r == a
    requires 0.0 < sp
    requires 0.0 < q && q * q == 1.0 - ab
    ensures 1.0 / r * (x - b / q * e)
         == b * sp / (1.0 - ab) * ((x - q * e) / (sp * r)) + r * (1.0 - abp) / (1.0 - ab) * x
  {
    CollectTerms(b, sp, 1.0 - ab, r, abp, q, x, e);
    Numerator(b, a, abp, ab, 1.0 - ab, r, q, x, e);
    SplitTerms(b, 1.0 - ab, r, q, x, e);
  }
}
