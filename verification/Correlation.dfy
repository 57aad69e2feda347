/**
 Pearson and Spearman correlation of simulated and real outcomes: bounded by Cauchy-Schwarz,
 absent exactly for degenerate channels, and invariant under changes of scale.
 */
module Correlation {
  import opened Outcomes
  import opened RealFacts
  import opened Ranks

  // ----- The accumulated sums over the first n pairs -----

  function Sum(xs: seq<real>, n: nat): real
    requires n <= |xs|
  {
    if n == 0 then 0.0 else Sum(xs, n - 1) + xs[n - 1]
  }

  function Mean(xs: seq<real>): real
    requires xs != []
  {
    Sum(xs, |xs|) / |xs| as real
  }

  function Deviation(xs: seq<real>, a: real, i: nat): real
    requires i < |xs|
  {
    xs[i] - a
  }

  /** The sum of products of deviations from `a` and `b`. */
  function Products(xs: seq<real>, a: real, ys: seq<real>, b: real, n: nat): real
    requires n <= |xs| == |ys|
  {
    if n == 0 then 0.0 else Products(xs, a, ys, b, n - 1) + Deviation(xs, a, n - 1) * Deviation(ys, b, n - 1)
  }

  function Covariance(xs: seq<real>, ys: seq<real>): real
    requires |xs| == |ys| > 0
  {
    Products(xs, Mean(xs), ys, Mean(ys), |xs|)
  }

  function Variance(xs: seq<real>): real
    requires xs != []
  {
    Products(xs, Mean(xs), xs, Mean(xs), |xs|)
  }

  ghost function Pearson(sqrt: real -> real, xs: seq<real>, ys: seq<real>): Option<real>
    requires IsSqrt(sqrt)
  {
    if |xs| < 2 || |ys| != |xs| then None
    else if Variance(xs) == 0.0 || Variance(ys) == 0.0 then None
    else
      RootPositive(sqrt, xs, ys);
      Some(Covariance(xs, ys) / sqrt(Variance(xs) * Variance(ys)))
  }

  ghost function Spearman(sqrt: real -> real, xs: seq<real>, ys: seq<real>): Option<real>
    requires IsSqrt(sqrt)
  {
    if |xs| < 2 || |ys| != |xs| then None else Pearson(sqrt, RankSeq(xs), RankSeq(ys))
  }

  lemma {:induction false} SumOfSquares(xs: seq<real>, a: real, n: nat)
    requires n <= |xs|
    ensures Products(xs, a, xs, a, n) >= 0.0
    ensures Products(xs, a, xs, a, n) == 0.0 <==> forall i :: 0 <= i < n ==> xs[i] == a
  {
    if n > 0 {
      SumOfSquares(xs, a, n - 1);
      SquareSign(Deviation(xs, a, n - 1));
    }
  }

  lemma RootPositive(sqrt: real -> real, xs: seq<real>, ys: seq<real>)
    requires IsSqrt(sqrt) && |xs| == |ys| > 0 && Variance(xs) != 0.0 && Variance(ys) != 0.0
    ensures Variance(xs) > 0.0 && Variance(ys) > 0.0
    ensures
      var v := Variance(xs) * Variance(ys);
      v > 0.0 && sqrt(v) > 0.0 && sqrt(v) * sqrt(v) == v
  {
    SumOfSquares(xs, Mean(xs), |xs|);
    SumOfSquares(ys, Mean(ys), |ys|);
    ProductPositive(Variance(xs), Variance(ys));
    RootNotZero(sqrt, Variance(xs) * Variance(ys));
  }

  lemma RootNotZero(sqrt: real -> real, v: real)
    requires IsSqrt(sqrt) && v > 0.0
    ensures sqrt(v) > 0.0 && sqrt(v) * sqrt(v) == v
  {
    var root := sqrt(v);
    assert root >= 0.0 && root * root == v;
    assert root == 0.0 ==> root * root == 0.0;
  }

  // ----- Cauchy-Schwarz -----

  lemma SquareStep(lam: real, mu: real, a: real, c: real, b: real, dx: real, dy: real, a': real, c': real, b': real)
    requires SquareForm(lam, mu, a, c, b) && a' == a + dx * dx && c' == c + dx * dy && b' == b + dy * dy
    ensures SquareForm(lam, mu, a', c', b')
  {
    var s := lam * dx + mu * dy;
    SquareSign(s);
    assert s * s == lam * lam * (dx * dx) + 2.0 * (lam * mu) * (dx * dy) + mu * mu * (dy * dy);
  }

  /** The sum of the squares of `lam * dx + mu * dy` is not negative. */
  lemma {:induction false} CombinationSquare(xs: seq<real>, a: real, ys: seq<real>, b: real, n: nat, lam: real, mu: real)
    requires n <= |xs| == |ys|
    ensures SquareForm(lam, mu, Products(xs, a, xs, a, n), Products(xs, a, ys, b, n), Products(ys, b, ys, b, n))
  {
    hide SquareForm, Products, Deviation;
    NextProduct(xs, a, xs, a, n);
    NextProduct(xs, a, ys, b, n);
    NextProduct(ys, b, ys, b, n);
    if n == 0 {
      ZeroForm(lam, mu);
    } else {
      CombinationSquare(xs, a, ys, b, n - 1, lam, mu);
      SquareStep(lam, mu, Products(xs, a, xs, a, n - 1), Products(xs, a, ys, b, n - 1), Products(ys, b, ys, b, n - 1),
                 Deviation(xs, a, n - 1), Deviation(ys, b, n - 1),
                 Products(xs, a, xs, a, n), Products(xs, a, ys, b, n), Products(ys, b, ys, b, n));
    }
  }

  lemma NextProduct(xs: seq<real>, a: real, ys: seq<real>, b: real, n: nat)
    requires n <= |xs| == |ys|
    ensures n == 0 ==> Products(xs, a, ys, b, n) == 0.0
    ensures n > 0 ==>
      Products(xs, a, ys, b, n) == Products(xs, a, ys, b, n - 1) + Deviation(xs, a, n - 1) * Deviation(ys, b, n - 1)
  {
  }

  lemma ZeroForm(lam: real, mu: real)
    ensures SquareForm(lam, mu, 0.0, 0.0, 0.0)
  {
  }

  lemma ZeroFactor(x: real, y: real)
    requires y == 0.0
    ensures x * y == 0.0
  {
  }

  lemma {:induction false} NoSpreadNoProduct(xs: seq<real>, a: real, ys: seq<real>, b: real, n: nat)
    requires n <= |xs| == |ys| && forall i :: 0 <= i < n ==> ys[i] == b
    ensures Products(xs, a, ys, b, n) == 0.0
  {
    if n > 0 {
      NoSpreadNoProduct(xs, a, ys, b, n - 1);
      ZeroFactor(Deviation(xs, a, n - 1), Deviation(ys, b, n - 1));
    }
  }

  lemma Discriminant(a: real, c: real, b: real)
    requires b > 0.0 && SquareForm(b, -c, a, c, b)
    ensures c * c <= a * b
  {
    var gap := a * b - c * c;
    assert b * gap == b * b * a + 2.0 * (b * (-c)) * c + (-c) * (-c) * b;
    assert b * (-gap) == -(b * gap);
    if gap < 0.0 { ProductPositive(b, -gap); }
  }

  predicate SquareForm(lam: real, mu: real, a: real, c: real, b: real) {
    lam * lam * a + 2.0 * (lam * mu) * c + mu * mu * b >= 0.0
  }

  lemma SchwarzFromForm(vx: real, c: real, vy: real)
    requires vy >= 0.0 && (vy == 0.0 ==> c == 0.0) && SquareForm(vy, -c, vx, c, vy)
    ensures c * c <= vx * vy
  {
    if vy > 0.0 {
      Discriminant(vx, c, vy);
    } else {
      ZeroFactor(vx, vy);
      ZeroFactor(c, c);
    }
  }

  lemma CauchySchwarz(xs: seq<real>, a: real, ys: seq<real>, b: real, n: nat)
    requires n <= |xs| == |ys|
    ensures
      var c := Products(xs, a, ys, b, n);
      c * c <= Products(xs, a, xs, a, n) * Products(ys, b, ys, b, n)
  {
    hide Products;
    var vx, c, vy := Products(xs, a, xs, a, n), Products(xs, a, ys, b, n), Products(ys, b, ys, b, n);
    SumOfSquares(ys, b, n);
    if vy == 0.0 { NoSpreadNoProduct(xs, a, ys, b, n); }
    CombinationSquare(xs, a, ys, b, n, vy, -c);
    SchwarzFromForm(vx, c, vy);
  }

  lemma QuotientByRoot(c: real, v: real, root: real)
    requires c * c <= v && root > 0.0 && root * root == v
    ensures -1.0 <= c / root <= 1.0
  {
    SquareBound(c, root);
    QuotientWithin(-1.0, c, 1.0, root);
  }

  /** A coefficient lies in [-1, 1]. */
  lemma PearsonBounded(sqrt: real -> real, xs: seq<real>, ys: seq<real>)
    requires IsSqrt(sqrt) && Pearson(sqrt, xs, ys).Some?
    ensures -1.0 <= Pearson(sqrt, xs, ys).value <= 1.0
  {
    hide Products;
    RootPositive(sqrt, xs, ys);
    CauchySchwarz(xs, Mean(xs), ys, Mean(ys), |xs|);
    QuotientByRoot(Covariance(xs, ys), Variance(xs) * Variance(ys), sqrt(Variance(xs) * Variance(ys)));
  }

  // ----- When there is no coefficient -----

  predicate Constant(xs: seq<real>) {
    forall i :: 0 <= i < |xs| ==> xs[i] == xs[0]
  }

  lemma {:induction false} SumOfConstant(xs: seq<real>, x: real, n: nat)
    requires n <= |xs| && forall i :: 0 <= i < n ==> xs[i] == x
    ensures Sum(xs, n) == n as real * x
  {
    if n > 0 {
      SumOfConstant(xs, x, n - 1);
      assert n as real == (n - 1) as real + 1.0;
      assert n as real * x == (n - 1) as real * x + x;
    }
  }

  lemma VarianceZeroExactly(xs: seq<real>)
    requires xs != []
    ensures Variance(xs) == 0.0 <==> Constant(xs)
  {
    SumOfSquares(xs, Mean(xs), |xs|);
    if Constant(xs) {
      SumOfConstant(xs, xs[0], |xs|);
      QuotientUnique(Sum(xs, |xs|), |xs| as real, xs[0]);
    }
  }

  /** The coefficient is missing exactly for too few points, unequal lengths or a constant channel. */
  lemma PearsonNullExactly(sqrt: real -> real, xs: seq<real>, ys: seq<real>)
    requires IsSqrt(sqrt)
    ensures Pearson(sqrt, xs, ys).None? <==> |xs| < 2 || |ys| != |xs| || Constant(xs) || Constant(ys)
  {
    if |xs| >= 2 && |ys| == |xs| {
      VarianceZeroExactly(xs);
      VarianceZeroExactly(ys);
    }
  }

  /** A channel of ranks varies exactly when the values do. */
  lemma RanksVary(xs: seq<real>)
    ensures Constant(RankSeq(xs)) <==> Constant(xs)
  {
    hide RankSeq;
    forall i | 0 <= i < |xs| ensures RankSeq(xs)[i] == RankSeq(xs)[0] <==> xs[i] == xs[0] {
      RanksKeepOrder(xs, i, 0);
      RanksKeepOrder(xs, 0, i);
    }
  }

  /** The rank correlation is missing exactly when the other one is. */
  lemma SpearmanNullExactly(sqrt: real -> real, xs: seq<real>, ys: seq<real>)
    requires IsSqrt(sqrt)
    ensures Spearman(sqrt, xs, ys).None? <==> |xs| < 2 || |ys| != |xs| || Constant(xs) || Constant(ys)
  {
    hide Pearson;
    if |xs| >= 2 && |ys| == |xs| {
      PearsonNullExactly(sqrt, RankSeq(xs), RankSeq(ys));
      RanksVary(xs);
      RanksVary(ys);
    }
  }

  // ----- Invariances -----

  lemma {:induction false} ProductsCommute(xs: seq<real>, a: real, ys: seq<real>, b: real, n: nat)
    requires n <= |xs| == |ys|
    ensures Products(xs, a, ys, b, n) == Products(ys, b, xs, a, n)
  {
    if n > 0 { ProductsCommute(xs, a, ys, b, n - 1); }
  }

  lemma PearsonSymmetric(sqrt: real -> real, xs: seq<real>, ys: seq<real>)
    requires IsSqrt(sqrt)
    ensures Pearson(sqrt, xs, ys) == Pearson(sqrt, ys, xs)
  {
    if |xs| >= 2 && |ys| == |xs| {
      ProductsCommute(xs, Mean(xs), ys, Mean(ys), |xs|);
      assert Variance(xs) * Variance(ys) == Variance(ys) * Variance(xs);
    }
  }

  function Affine(c: real, d: real, xs: seq<real>): (r: seq<real>)
    ensures |r| == |xs| && forall i :: 0 <= i < |xs| ==> r[i] == c * xs[i] + d
  {
    seq(|xs|, i requires 0 <= i < |xs| => c * xs[i] + d)
  }

  lemma {:induction false} SumOfAffine(c: real, d: real, xs: seq<real>, n: nat)
    requires n <= |xs|
    ensures Sum(Affine(c, d, xs), n) == c * Sum(xs, n) + n as real * d
  {
    if n > 0 {
      SumOfAffine(c, d, xs, n - 1);
      Distribute(c, Sum(xs, n - 1), xs[n - 1]);
      assert n as real == (n - 1) as real + 1.0;
      assert n as real * d == (n - 1) as real * d + d;
    }
  }

  lemma MeanOfAffine(c: real, d: real, xs: seq<real>)
    requires xs != []
    ensures Mean(Affine(c, d, xs)) == c * Mean(xs) + d
  {
    SumOfAffine(c, d, xs, |xs|);
    hide Sum, Affine;
    MeanShifts(c, d, Sum(xs, |xs|), |xs| as real, Mean(xs));
  }

  lemma MeanShifts(c: real, d: real, sum: real, n: real, m: real)
    requires n > 0.0 && m == sum / n
    ensures (c * sum + n * d) / n == c * m + d
  {
    assert m * n == sum;
    assert (c * m + d) * n == c * (m * n) + n * d;
    QuotientUnique(c * sum + n * d, n, c * m + d);
  }

  function Scaled(c: real, x: real): real {
    c * x
  }

  lemma {:induction false} ProductsOfAffine(c: real, d: real, xs: seq<real>, a: real, a': real, ys: seq<real>, b: real, n: nat)
    requires n <= |xs| == |ys| && a' == c * a + d
    ensures Products(Affine(c, d, xs), a', ys, b, n) == Scaled(c, Products(xs, a, ys, b, n))
  {
    hide Scaled;
    var z := Affine(c, d, xs);
    NextProduct(z, a', ys, b, n);
    NextProduct(xs, a, ys, b, n);
    if n == 0 {
      NothingScaled(c);
    } else {
      ProductsOfAffine(c, d, xs, a, a', ys, b, n - 1);
      AffineDeviation(c, d, xs, a, a', n - 1);
      hide Products, Deviation, Affine;
      ScaledStep(c, Products(xs, a, ys, b, n - 1), Deviation(xs, a, n - 1), Deviation(ys, b, n - 1),
                 Products(z, a', ys, b, n - 1), Deviation(z, a', n - 1), Products(xs, a, ys, b, n), Products(z, a', ys, b, n));
    }
  }

  lemma AffineDeviation(c: real, d: real, xs: seq<real>, a: real, a': real, i: nat)
    requires i < |xs| && a' == c * a + d
    ensures Deviation(Affine(c, d, xs), a', i) == Scaled(c, Deviation(xs, a, i))
  {
    Difference(c, d, a, a', xs[i], Affine(c, d, xs)[i]);
  }

  lemma Difference(c: real, d: real, a: real, a': real, x: real, x': real)
    requires a' == c * a + d && x' == c * x + d
    ensures x' - a' == c * (x - a)
  {
  }

  lemma NothingScaled(c: real)
    ensures Scaled(c, 0.0) == 0.0
  {
  }

  lemma ScaledStep(c: real, p: real, dx: real, dy: real, q: real, dz: real, p': real, q': real)
    requires q == Scaled(c, p) && dz == Scaled(c, dx) && p' == p + dx * dy && q' == q + dz * dy
    ensures q' == Scaled(c, p')
  {
  }

  lemma AffineCovariance(c: real, d: real, xs: seq<real>, ys: seq<real>)
    requires |xs| == |ys| > 0
    ensures Covariance(Affine(c, d, xs), ys) == c * Covariance(xs, ys)
  {
    hide Products;
    MeanOfAffine(c, d, xs);
    ProductsOfAffine(c, d, xs, Mean(xs), Mean(Affine(c, d, xs)), ys, Mean(ys), |xs|);
  }

  lemma AffineVariance(c: real, d: real, xs: seq<real>)
    requires xs != []
    ensures Variance(Affine(c, d, xs)) == c * (c * Variance(xs))
  {
    hide Products;
    var m, z := Mean(xs), Affine(c, d, xs);
    var m' := Mean(z);
    MeanOfAffine(c, d, xs);
    ProductsOfAffine(c, d, xs, m, m', z, m', |xs|);
    ProductsCommute(xs, m, z, m', |xs|);
    ProductsOfAffine(c, d, xs, m, m', xs, m, |xs|);
  }

  lemma ScaledRoot(sqrt: real -> real, c: real, v: real, v': real)
    requires IsSqrt(sqrt) && c > 0.0 && v > 0.0 && v' == c * (c * v)
    ensures v' > 0.0 && sqrt(v') == c * sqrt(v)
  {
    ProductPositive(c, v);
    ProductPositive(c, c * v);
    var p, root := sqrt(v'), sqrt(v);
    assert p >= 0.0 && p * p == v';
    assert root >= 0.0 && root * root == v;
    ProductSign(c, root);
    assert (c * root) * (c * root) == c * (c * (root * root));
    RootUnique(p, c * root);
  }

  lemma CommonFactor(c: real, x: real, x': real, d: real, d': real)
    requires c > 0.0 && d > 0.0 && x' == c * x && d' == c * d
    ensures d' > 0.0 && x' / d' == x / d
  {
    ProductPositive(c, d);
    var q := x / d;
    assert q * d == x;
    assert q * (c * d) == c * (q * d);
    QuotientUnique(x', d', q);
  }

  lemma ScaledCoefficient(sqrt: real -> real, c: real, cov: real, cov': real, v: real, v': real)
    requires IsSqrt(sqrt) && c > 0.0 && v > 0.0 && cov' == c * cov && v' == c * (c * v)
    ensures sqrt(v) > 0.0 && sqrt(v') > 0.0 && cov' / sqrt(v') == cov / sqrt(v)
  {
    RootNotZero(sqrt, v);
    ScaledRoot(sqrt, c, v, v');
    CommonFactor(c, cov, cov', sqrt(v), sqrt(v'));
  }

  lemma ScaledZero(c: real, v: real)
    requires c > 0.0 && v >= 0.0
    ensures c * (c * v) == 0.0 <==> v == 0.0
  {
    if v > 0.0 {
      ProductPositive(c, v);
      ProductPositive(c, c * v);
    }
  }

  lemma PearsonFormula(sqrt: real -> real, xs: seq<real>, ys: seq<real>, v: real)
    requires IsSqrt(sqrt) && |xs| == |ys| >= 2
    requires Variance(xs) != 0.0 && Variance(ys) != 0.0 && v == Variance(xs) * Variance(ys)
    ensures v > 0.0 && sqrt(v) > 0.0 && Pearson(sqrt, xs, ys) == Some(Covariance(xs, ys) / sqrt(v))
  {
    hide Products;
    RootPositive(sqrt, xs, ys);
  }

  lemma AffineProduct(c: real, vx: real, vy: real, v: real, vx': real, v': real)
    requires v == vx * vy && vx' == c * (c * vx) && v' == vx' * vy
    ensures v' == c * (c * v)
  {
  }

  /** A positive change of scale and any shift of a channel leave the coefficient alone. */
  lemma PearsonAffineInvariant(sqrt: real -> real, c: real, d: real, xs: seq<real>, ys: seq<real>)
    requires IsSqrt(sqrt) && c > 0.0
    ensures Pearson(sqrt, Affine(c, d, xs), ys) == Pearson(sqrt, xs, ys)
  {
    hide Products;
    if |xs| >= 2 && |ys| == |xs| {
      AffineVariance(c, d, xs);
      SumOfSquares(xs, Mean(xs), |xs|);
      ScaledZero(c, Variance(xs));
      if Variance(xs) != 0.0 && Variance(ys) != 0.0 {
        AffineCoefficient(sqrt, c, d, xs, ys);
      }
    }
  }

  lemma AffineCoefficient(sqrt: real -> real, c: real, d: real, xs: seq<real>, ys: seq<real>)
    requires IsSqrt(sqrt) && c > 0.0 && |xs| == |ys| >= 2
    requires Variance(xs) != 0.0 && Variance(ys) != 0.0 && Variance(Affine(c, d, xs)) != 0.0
    ensures Pearson(sqrt, Affine(c, d, xs), ys) == Pearson(sqrt, xs, ys)
  {
    hide *;
    var z := Affine(c, d, xs);
    var vx, vy, vz := Variance(xs), Variance(ys), Variance(z);
    var v, v' := vx * vy, vz * vy;
    AffineVariance(c, d, xs);
    AffineCovariance(c, d, xs, ys);
    AffineProduct(c, vx, vy, v, vz, v');
    PearsonFormula(sqrt, xs, ys, v);
    PearsonFormula(sqrt, z, ys, v');
    ScaledCoefficient(sqrt, c, Covariance(xs, ys), Covariance(z, ys), v, v');
  }

  /** Any strictly increasing change of a channel leaves the rank correlation alone. */
  lemma SpearmanMonotoneInvariant(sqrt: real -> real, f: real -> real, xs: seq<real>, ys: seq<real>)
    requires IsSqrt(sqrt) && StrictlyIncreasing(f)
    ensures Spearman(sqrt, Mapped(f, xs), ys) == Spearman(sqrt, xs, ys)
    ensures Spearman(sqrt, ys, Mapped(f, xs)) == Spearman(sqrt, ys, xs)
  {
    RanksSurviveIncreasingMap(xs, f);
  }

  // ----- The algorithms -----

  method PearsonCorrelation(sqrt: real -> real, xs: seq<real>, ys: seq<real>) returns (r: Option<real>)
    requires IsSqrt(sqrt)
    ensures r == Pearson(sqrt, xs, ys)
  {
    hide Products;
    if |xs| < 2 || |ys| != |xs| { return None; }
    var covariance, varianceX, varianceY := Accumulate(xs, Mean(xs), ys, Mean(ys));
    if varianceX == 0.0 || varianceY == 0.0 { return None; }
    RootPositive(sqrt, xs, ys);
    assert varianceX * varianceY == Variance(xs) * Variance(ys);
    return Some(covariance / sqrt(varianceX * varianceY));
  }

  method Accumulate(xs: seq<real>, meanX: real, ys: seq<real>, meanY: real)
    returns (covariance: real, varianceX: real, varianceY: real)
    requires |xs| == |ys|
    ensures covariance == Products(xs, meanX, ys, meanY, |xs|)
    ensures varianceX == Products(xs, meanX, xs, meanX, |xs|)
    ensures varianceY == Products(ys, meanY, ys, meanY, |xs|)
  {
    covariance, varianceX, varianceY := 0.0, 0.0, 0.0;
    for index := 0 to |xs|
      invariant covariance == Products(xs, meanX, ys, meanY, index)
      invariant varianceX == Products(xs, meanX, xs, meanX, index)
      invariant varianceY == Products(ys, meanY, ys, meanY, index)
    {
      var dx, dy := Deviation(xs, meanX, index), Deviation(ys, meanY, index);
      covariance := covariance + dx * dy;
      varianceX := varianceX + dx * dx;
      varianceY := varianceY + dy * dy;
    }
  }

  method SpearmanCorrelation(sqrt: real -> real, xs: seq<real>, ys: seq<real>) returns (r: Option<real>)
    requires IsSqrt(sqrt)
    ensures r == Spearman(sqrt, xs, ys)
  {
    if |xs| < 2 || |ys| != |xs| { return None; }
    var ranksX := AverageRanks(xs);
    var ranksY := AverageRanks(ys);
    r := PearsonCorrelation(sqrt, ranksX[..], ranksY[..]);
  }
}
