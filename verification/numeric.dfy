/** Exact-real counterparts of the handful of `Math` helpers the regulator uses,
    and the `clamp` helper of demo.js. */
module Numeric {

  /** `Math.abs` */
  function Abs(x: real): real {
    if x < 0.0 then -x else x
  }

  /** `Math.max` on two arguments */
  function Max(a: real, b: real): real {
    if a < b then b else a
  }

  /** `Math.min` on two arguments */
  function Min(a: real, b: real): real {
    if a < b then a else b
  }

  /** `clamp(v, lo, hi)`: the lower bound is tested first, so with `lo > hi`
      the result is one of the two bounds. */
  function Clamp(v: real, lo: real, hi: real): (r: real)
    ensures lo <= hi ==> lo <= r <= hi
    ensures lo <= v <= hi ==> r == v
    ensures r == v || r == lo || r == hi
  {
    if v < lo then lo else if v > hi then hi else v
  }

  /** Within a well-formed interval, the clamp is the point of the interval
      nearest to `v`: the partner definition of `Clamp`. */
  lemma ClampIsNearest(v: real, lo: real, hi: real, w: real)
    requires lo <= hi
    requires lo <= w <= hi
    ensures Abs(Clamp(v, lo, hi) - v) <= Abs(w - v)
  {
  }

  /** A symmetric clamp bounds the magnitude. */
  lemma ClampSymmetricBound(v: real, m: real)
    requires 0.0 <= m
    ensures Abs(Clamp(v, -m, m)) <= m
  {
  }

  /** The product of two non-negative reals is non-negative. */
  lemma MulNonneg(a: real, b: real)
    requires a >= 0.0 && b >= 0.0
    ensures a * b >= 0.0
  {
  }

  /** The product of two positive reals is positive. */
  lemma MulPositive(a: real, b: real)
    requires a > 0.0 && b > 0.0
    ensures a * b > 0.0
  {
  }

  /** The quotient of two positive reals is positive. */
  lemma DivPositive(a: real, b: real)
    requires a > 0.0 && b > 0.0
    ensures a / b > 0.0
  {
  }

  /** For a positive divisor, `d / m` reaches 1 exactly when `d` reaches `m`,
      and is 0 exactly when `d` is. */
  lemma {:induction false} DivCompare(d: real, m: real)
    requires m > 0.0
    ensures d / m >= 1.0 <==> d >= m
    ensures d / m == 0.0 <==> d == 0.0
  {
    var q := d / m;
    assert m * q == d;
    if q >= 1.0 {
      MulMonotone(m, 1.0, q);
    } else {
      MulPositive(m, 1.0 - q);
      assert m * (1.0 - q) == m - d;
    }
  }

  /** Multiplying by a non-negative factor keeps the order. */
  lemma MulMonotone(k: real, x: real, y: real)
    requires k >= 0.0 && x <= y
    ensures k * x <= k * y
  {
    MulNonneg(k, y - x);
    assert k * (y - x) == k * y - k * x;
  }

  /** `|a * b| == |a| * |b|` over the reals. */
  lemma AbsMul(a: real, b: real)
    ensures Abs(a * b) == Abs(a) * Abs(b)
  {
    if a < 0.0 {
      if b < 0.0 {
        assert a * b == (-a) * (-b);
      } else {
        assert -(a * b) == (-a) * b;
      }
    } else if b < 0.0 {
      assert -(a * b) == a * (-b);
    }
  }

  /** Scaling a quantity of magnitude at most `m` by `k` gives magnitude at most `|k| * m`. */
  lemma ScaledBound(k: real, x: real, m: real)
    requires Abs(x) <= m
    ensures Abs(k * x) <= Abs(k) * m
  {
    AbsMul(k, x);
    MulMonotone(Abs(k), Abs(x), m);
  }
}
