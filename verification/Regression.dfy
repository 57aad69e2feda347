/**
 What a coefficient says of the data: its square is the share of the spread that the best line through
 the means explains, and its sign is that line's slope.
 */
module Regression {
  import opened Outcomes
  import opened RealFacts
  import opened Correlation

  /** The squared distance of a point from the line of slope `m`. */
  function Gap(m: real, dx: real, dy: real): real {
    (dy - m * dx) * (dy - m * dx)
  }

  /** The squared distances of the first `n` points from the line of slope `m` through `(a, b)`. */
  function Residuals(xs: seq<real>, a: real, ys: seq<real>, b: real, m: real, n: nat): real
    requires n <= |xs| == |ys|
  {
    if n == 0 then 0.0
    else Residuals(xs, a, ys, b, m, n - 1) + Gap(m, Deviation(xs, a, n - 1), Deviation(ys, b, n - 1))
  }

  /** `vy - 2mc + m^2 vx` */
  function Quadratic(vx: real, c: real, vy: real, m: real): real {
    vy - 2.0 * (m * c) + m * (m * vx)
  }

  lemma QuadraticGrows(vx: real, c: real, vy: real, m: real, dx: real, dy: real, vx': real, c': real, vy': real)
    requires vx' == vx + dx * dx && c' == c + dx * dy && vy' == vy + dy * dy
    ensures Quadratic(vx, c, vy, m) + Gap(m, dx, dy) == Quadratic(vx', c', vy', m)
  {
    var e := m * dx;
    assert Gap(m, dx, dy) == dy * dy - 2.0 * (e * dy) + e * e;
    assert e * dy == m * (dx * dy) && e * e == m * (m * (dx * dx));
    assert m * (c + dx * dy) == m * c + m * (dx * dy);
    assert m * (m * (vx + dx * dx)) == m * (m * vx) + m * (m * (dx * dx));
  }

  lemma NoQuadratic(m: real)
    ensures Quadratic(0.0, 0.0, 0.0, m) == 0.0
  {
  }

  lemma {:induction false} ResidualsExpand(xs: seq<real>, a: real, ys: seq<real>, b: real, m: real, n: nat)
    requires n <= |xs| == |ys|
    ensures Residuals(xs, a, ys, b, m, n) ==
      Quadratic(Products(xs, a, xs, a, n), Products(xs, a, ys, b, n), Products(ys, b, ys, b, n), m)
  {
    hide Quadratic, Gap, Products, Deviation;
    NextProduct(xs, a, xs, a, n);
    NextProduct(xs, a, ys, b, n);
    NextProduct(ys, b, ys, b, n);
    if n == 0 {
      NoQuadratic(m);
    } else {
      ResidualsExpand(xs, a, ys, b, m, n - 1);
      QuadraticGrows(Products(xs, a, xs, a, n - 1), Products(xs, a, ys, b, n - 1), Products(ys, b, ys, b, n - 1), m,
                     Deviation(xs, a, n - 1), Deviation(ys, b, n - 1),
                     Products(xs, a, xs, a, n), Products(xs, a, ys, b, n), Products(ys, b, ys, b, n));
    }
  }

  /** The slope `c / vx` leaves the least, and `r` is `c` in parts of the root of `vx vy`. */
  lemma BestSlope(vx: real, c: real, vy: real, root: real, m: real)
    requires vx > 0.0 && root > 0.0 && root * root == vx * vy
    ensures
      var b, r := c / vx, c / root;
      && Quadratic(vx, c, vy, b) == (1.0 - r * r) * vy && Quadratic(vx, c, vy, b) <= Quadratic(vx, c, vy, m)
      && (r > 0.0 <==> b > 0.0) && (r < 0.0 <==> b < 0.0)
  {
    var b, r := c / vx, c / root;
    assert b * vx == c && r * root == c;
    Explained(vx, c, vy, root, b, r);
    Least(vx, c, vy, b, m);
    SameSign(c, vx, b);
    SameSign(c, root, r);
  }

  lemma SameSign(c: real, d: real, q: real)
    requires d > 0.0 && q * d == c
    ensures (q > 0.0 <==> c > 0.0) && (q < 0.0 <==> c < 0.0)
  {
    if q > 0.0 {
      ProductPositive(q, d);
    } else if q < 0.0 {
      ProductPositive(-q, d);
      assert (-q) * d == -c;
    }
  }

  lemma Explained(vx: real, c: real, vy: real, root: real, b: real, r: real)
    requires vx > 0.0 && root * root == vx * vy && b * vx == c && r * root == c
    ensures Quadratic(vx, c, vy, b) == (1.0 - r * r) * vy
  {
    assert (b * c) * vx == c * c;
    assert ((r * r) * vy) * vx == (r * r) * (root * root) == (r * root) * (r * root);
    assert (b * c - (r * r) * vy) * vx == 0.0;
    Cancel(b * c - (r * r) * vy, vx);
    assert b * (b * vx) == b * c;
  }

  lemma Least(vx: real, c: real, vy: real, b: real, m: real)
    requires vx > 0.0 && b * vx == c
    ensures Quadratic(vx, c, vy, b) <= Quadratic(vx, c, vy, m)
  {
    var d := m - b;
    SquareSign(d);
    ProductSign(d * d, vx);
    assert (d * d) * vx == m * (m * vx) - 2.0 * (m * (b * vx)) + b * (b * vx);
  }

  /**
   For every pair of channels with a coefficient: the line of slope covariance over variance leaves
   the share `1 - r^2` of the spread, no line through the means leaves less, and it rises exactly
   when the coefficient is positive and falls exactly when it is negative.
   */
  lemma CoefficientOfLine(sqrt: real -> real, xs: seq<real>, ys: seq<real>, m: real)
    requires IsSqrt(sqrt) && Pearson(sqrt, xs, ys).Some?
    ensures Variance(xs) > 0.0
    ensures
      var r, slope := Pearson(sqrt, xs, ys).value, Covariance(xs, ys) / Variance(xs);
      var left := Residuals(xs, Mean(xs), ys, Mean(ys), slope, |xs|);
      && left == (1.0 - r * r) * Variance(ys) && left <= Residuals(xs, Mean(xs), ys, Mean(ys), m, |xs|)
      && (r > 0.0 <==> slope > 0.0) && (r < 0.0 <==> slope < 0.0)
  {
    hide Products, Quadratic, Residuals;
    RootPositive(sqrt, xs, ys);
    var vx, c, vy := Variance(xs), Covariance(xs, ys), Variance(ys);
    BestSlope(vx, c, vy, sqrt(vx * vy), m);
    ResidualsExpand(xs, Mean(xs), ys, Mean(ys), m, |xs|);
    ResidualsExpand(xs, Mean(xs), ys, Mean(ys), c / vx, |xs|);
  }
}
