/**
 `summarizeSimRealCorrelation`: which pairs count, when a coefficient is withheld and why, and
 how mean, spread and root mean square of the relative errors hang together.
 */
module SimRealSummary {
  import opened Outcomes
  import opened RealFacts
  import opened Correlation
  import opened Ranks

  datatype Measure = Finite(x: real) | NonFinite

  datatype Pair = Pair(sim: Measure, actual: Measure)

  datatype Reason = InsufficientPairs | ZeroVariance

  datatype Statistic = Value(value: real) | Withheld(reason: Reason)

  datatype Spread = Spread(mean: real, median: real, rms: real, variance: real, count: nat)

  datatype Report = Report(
    pairCount: nat, excludedPairCount: nat, nonFinite: nat, zeroReal: nat,
    pearson: Statistic, spearman: Statistic, mmrv: Option<Spread>)

  predicate Counts(p: Pair) {
    p.sim.Finite? && p.actual.Finite?
  }

  predicate AllCount(pairs: seq<Pair>) {
    forall i :: 0 <= i < |pairs| ==> Counts(pairs[i])
  }

  function Valid(pairs: seq<Pair>): (valid: seq<Pair>)
    ensures AllCount(valid)
    ensures |valid| <= |pairs|
  {
    if pairs == [] then []
    else
      var before := Valid(pairs[..|pairs| - 1]);
      if Counts(pairs[|pairs| - 1]) then before + [pairs[|pairs| - 1]] else before
  }

  function Sims(valid: seq<Pair>): (xs: seq<real>)
    requires AllCount(valid)
    ensures |xs| == |valid|
  {
    seq(|valid|, i requires 0 <= i < |valid| && Counts(valid[i]) => valid[i].sim.x)
  }

  function Reals(valid: seq<Pair>): (xs: seq<real>)
    requires AllCount(valid)
    ensures |xs| == |valid|
  {
    seq(|valid|, i requires 0 <= i < |valid| && Counts(valid[i]) => valid[i].actual.x)
  }

  function Magnitude(x: real): real {
    if x < 0.0 then -x else x
  }

  function RelativeError(sim: real, actual: real): real
    requires actual != 0.0
  {
    (sim - actual) / Magnitude(actual)
  }

  /** The relative errors of the pairs whose real value is not zero. */
  function RelativeErrors(valid: seq<Pair>): (errors: seq<real>)
    requires AllCount(valid)
    ensures |errors| <= |valid|
  {
    if valid == [] then []
    else
      var before, p := RelativeErrors(valid[..|valid| - 1]), valid[|valid| - 1];
      assert Counts(p);
      if p.actual.x == 0.0 then before else before + [RelativeError(p.sim.x, p.actual.x)]
  }

  // ----- Pairs with a zero real value -----

  predicate ZeroReal(p: Pair) {
    Counts(p) && p.actual.x == 0.0
  }

  function ZeroReals(pairs: seq<Pair>): nat {
    if pairs == [] then 0 else ZeroReals(pairs[..|pairs| - 1]) + if ZeroReal(pairs[|pairs| - 1]) then 1 else 0
  }

  /** Every counted pair has a relative error unless its real value is zero. */
  lemma {:induction false} ErrorsOrZeros(valid: seq<Pair>)
    requires AllCount(valid)
    ensures |RelativeErrors(valid)| + ZeroReals(valid) == |valid|
  {
    if valid != [] {
      ErrorsOrZeros(valid[..|valid| - 1]);
      assert Counts(valid[|valid| - 1]);
    }
  }

  /** `e` is the difference in parts of the real magnitude, positive if the simulation overshoots. */
  predicate Relative(e: real, sim: real, actual: real) {
    && (actual > 0.0 ==> e * actual == sim - actual)
    && (actual < 0.0 ==> e * actual == actual - sim)
  }

  lemma ErrorIsRelative(sim: real, actual: real)
    requires actual != 0.0
    ensures Relative(RelativeError(sim, actual), sim, actual)
  {
    var q := RelativeError(sim, actual);
    assert q * Magnitude(actual) == sim - actual;
  }

  /** Every pair whose real value is not zero has its relative error, in the order of the pairs. */
  lemma {:induction false} ErrorsAreRelative(valid: seq<Pair>, k: nat)
    requires AllCount(valid) && k < |valid| && !ZeroReal(valid[k])
    ensures
      var i, errors := k - ZeroReals(valid[..k]), RelativeErrors(valid);
      0 <= i < |errors| && Counts(valid[k]) && Relative(errors[i], valid[k].sim.x, valid[k].actual.x)
  {
    hide RelativeError, Relative;
    var n := |valid| - 1;
    assert Counts(valid[k]) && Counts(valid[n]);
    ErrorsOrZeros(valid[..n]);
    if k < n {
      assert valid[..n][..k] == valid[..k];
      ErrorsAreRelative(valid[..n], k);
    } else {
      ErrorIsRelative(valid[k].sim.x, valid[k].actual.x);
    }
  }

  lemma {:induction false} ValidKeepsZeros(pairs: seq<Pair>)
    ensures ZeroReals(Valid(pairs)) == ZeroReals(pairs)
  {
    if pairs != [] {
      var n := |pairs| - 1;
      ValidKeepsZeros(pairs[..n]);
      var before := Valid(pairs[..n]);
      assert (before + [pairs[n]])[..|before|] == before;
    }
  }

  lemma {:induction false} NoZerosExactly(pairs: seq<Pair>)
    ensures ZeroReals(pairs) == 0 <==> forall i :: 0 <= i < |pairs| ==> !ZeroReal(pairs[i])
  {
    hide ZeroReal;
    if pairs != [] { NoZerosExactly(pairs[..|pairs| - 1]); }
  }

  /** Pairs that are counted as excluded for a zero real value, and are not. */
  lemma ZeroRealsStay(pairs: seq<Pair>)
    ensures |Valid(pairs)| == |RelativeErrors(Valid(pairs))| + ZeroReals(pairs)
    ensures ZeroReals(pairs) == 0 <==> forall i :: 0 <= i < |pairs| ==> !ZeroReal(pairs[i])
  {
    hide RelativeErrors, ZeroReals;
    ErrorsOrZeros(Valid(pairs));
    ValidKeepsZeros(pairs);
    NoZerosExactly(pairs);
  }

  function Judge(insufficient: bool, value: Option<real>): Statistic {
    if insufficient then Withheld(InsufficientPairs)
    else if value.None? then Withheld(ZeroVariance)
    else Value(value.value)
  }

  // ----- Spread of the relative errors -----

  lemma {:induction false} ShiftedSquares(e: seq<real>, m: real, n: nat)
    requires n <= |e|
    ensures Products(e, m, e, m, n) == Products(e, 0.0, e, 0.0, n) - 2.0 * m * Sum(e, n) + n as real * (m * m)
  {
    if n > 0 {
      ShiftedSquares(e, m, n - 1);
      ShiftStep(Products(e, 0.0, e, 0.0, n - 1), Sum(e, n - 1), (n - 1) as real, m, e[n - 1]);
      assert n as real == (n - 1) as real + 1.0;
      assert Deviation(e, 0.0, n - 1) == e[n - 1] && Deviation(e, m, n - 1) == e[n - 1] - m;
    }
  }

  lemma ShiftStep(q: real, s: real, k: real, m: real, x: real)
    ensures
      (q - 2.0 * m * s + k * (m * m)) + (x - m) * (x - m)
      == (q + x * x) - 2.0 * m * (s + x) + (k + 1.0) * (m * m)
  {
  }

  lemma DivideSquares(v: real, q: real, s: real, n: real, m: real)
    requires n > 0.0 && m == s / n && v == q - 2.0 * m * s + n * (m * m)
    ensures q / n == m * m + v / n
  {
    assert m * n == s;
    assert v == q - n * (m * m);
    SumOfQuotients(v, n * (m * m), n);
    QuotientUnique(n * (m * m), n, m * m);
  }

  function MeanSquare(e: seq<real>): real
    requires e != []
  {
    Products(e, 0.0, e, 0.0, |e|) / |e| as real
  }

  /** The mean square splits into the squared mean and the variance. */
  lemma SpreadSplits(e: seq<real>)
    requires e != []
    ensures MeanSquare(e) == Mean(e) * Mean(e) + Variance(e) / |e| as real
    ensures MeanSquare(e) >= 0.0 && Mean(e) * Mean(e) <= MeanSquare(e)
  {
    hide Products;
    ShiftedSquares(e, Mean(e), |e|);
    DivideSquares(Variance(e), Products(e, 0.0, e, 0.0, |e|), Sum(e, |e|), |e| as real, Mean(e));
    SumOfSquares(e, Mean(e), |e|);
    QuotientSign(Variance(e), |e| as real);
    SquareSign(Mean(e));
  }

  // ----- The report -----

  method Partition(pairs: seq<Pair>) returns (valid: seq<Pair>, nonFinite: nat)
    ensures valid == Valid(pairs) && nonFinite + |valid| == |pairs|
  {
    valid, nonFinite := [], 0;
    for i := 0 to |pairs|
      invariant valid == Valid(pairs[..i]) && nonFinite + |valid| == i
    {
      assert pairs[..i + 1][..i] == pairs[..i];
      if Counts(pairs[i]) { valid := valid + [pairs[i]]; } else { nonFinite := nonFinite + 1; }
    }
    assert pairs[..|pairs|] == pairs;
  }

  method Errors(valid: seq<Pair>) returns (errors: seq<real>, zeroReal: nat)
    requires AllCount(valid)
    ensures errors == RelativeErrors(valid) && zeroReal + |errors| == |valid|
  {
    errors, zeroReal := [], 0;
    for i := 0 to |valid|
      invariant errors == RelativeErrors(valid[..i]) && zeroReal + |errors| == i
    {
      assert valid[..i + 1][..i] == valid[..i];
      var p := valid[i];
      assert Counts(p);
      if p.actual.x == 0.0 {
        zeroReal := zeroReal + 1;
      } else {
        errors := errors + [RelativeError(p.sim.x, p.actual.x)];
      }
    }
    assert valid[..|valid|] == valid;
  }

  /** The element in the middle, or the mean of the two around it. */
  function Middle(sorted: seq<real>): real
    requires sorted != []
  {
    var m := |sorted| / 2;
    if |sorted| % 2 == 1 then sorted[m] else (sorted[m - 1] + sorted[m]) / 2.0
  }

  predicate Rises(v: seq<real>) {
    forall p, q :: 0 <= p < q < |v| ==> v[p] <= v[q]
  }

  ghost predicate IsMedian(v: seq<real>, m: real) {
    exists sorted: seq<real> :: sorted != [] && multiset(sorted) == multiset(v) && Rises(sorted) && m == Middle(sorted)
  }

  /** One half lies at or below the middle, the other at or above it. */
  lemma MiddleSplits(sorted: seq<real>)
    requires sorted != [] && Rises(sorted)
    ensures forall p :: 0 <= p < |sorted| && 2 * p < |sorted| ==> sorted[p] <= Middle(sorted)
    ensures forall p :: |sorted| / 2 <= p < |sorted| ==> Middle(sorted) <= sorted[p]
  {
    var m := |sorted| / 2;
    assert |sorted| % 2 == 0 ==> sorted[m - 1] <= Middle(sorted) <= sorted[m];
  }

  method Median(values: seq<real>) returns (m: real)
    requires values != []
    ensures IsMedian(values, m)
  {
    var order := SortByValue(values);
    var sorted := ValuesOf(order);
    assert Rises(sorted);
    m := Middle(sorted);
  }

  /** Mean, median, root mean square, variance and count of the relative errors. */
  ghost predicate Describes(e: seq<real>, s: Spread) {
    && e != [] && s.mean == Mean(e) && IsMedian(e, s.median) && s.count == |e|
    && s.rms >= 0.0 && s.rms * s.rms == MeanSquare(e)
    && s.variance == Variance(e) / |e| as real && s.variance >= 0.0
    && s.rms * s.rms == s.mean * s.mean + s.variance && -s.rms <= s.mean <= s.rms
  }

  method Summarize(sqrt: real -> real, pairs: seq<Pair>, minPairs: int) returns (r: Report)
    requires IsSqrt(sqrt)
    ensures r.pairCount == |Valid(pairs)| && r.pairCount + r.excludedPairCount == |pairs|
    ensures r.nonFinite == r.excludedPairCount
    ensures r.zeroReal == ZeroReals(pairs) && r.zeroReal + |RelativeErrors(Valid(pairs))| == r.pairCount
    // The reasons add up to the excluded pairs exactly when no counted pair has a zero real value.
    ensures r.nonFinite + r.zeroReal == r.excludedPairCount <==>
      forall i :: 0 <= i < |pairs| ==> !ZeroReal(pairs[i])
    ensures
      var xs, ys := Sims(Valid(pairs)), Reals(Valid(pairs));
      && r.pearson == Judge(r.pairCount < minPairs, Pearson(sqrt, xs, ys))
      && r.spearman == Judge(r.pairCount < minPairs, Spearman(sqrt, xs, ys))
    ensures r.mmrv.None? <==> RelativeErrors(Valid(pairs)) == []
    ensures r.mmrv.Some? ==> Describes(RelativeErrors(Valid(pairs)), r.mmrv.value)
  {
    hide *;
    var valid, nonFinite := Partition(pairs);
    var errors, zeroReal := Errors(valid);
    ZeroRealsStay(pairs);
    var xs, ys := Sims(valid), Reals(valid);
    var insufficient := |valid| < minPairs;
    var pearson := PearsonCorrelation(sqrt, xs, ys);
    var spearman := SpearmanCorrelation(sqrt, xs, ys);
    var mmrv := None;
    if errors != [] {
      var s := Describe(sqrt, errors);
      mmrv := Some(s);
    }
    r := Report(|valid|, |pairs| - |valid|, nonFinite, zeroReal,
                Judge(insufficient, pearson), Judge(insufficient, spearman), mmrv);
  }

  method Describe(sqrt: real -> real, e: seq<real>) returns (s: Spread)
    requires IsSqrt(sqrt) && e != []
    ensures Describes(e, s)
  {
    hide Products, IsMedian;
    var mean := Mean(e);
    var _, squares, _ := Accumulate(e, 0.0, e, 0.0);
    var _, spread, _ := Accumulate(e, mean, e, mean);
    SpreadSplits(e);
    SumOfSquares(e, mean, |e|);
    QuotientSign(spread, |e| as real);
    var meanSquare := squares / |e| as real;
    var rms := sqrt(meanSquare);
    assert rms >= 0.0 && rms * rms == meanSquare;
    SquareBound(mean, rms);
    var middle := Median(e);
    s := Spread(mean, middle, rms, spread / |e| as real, |e|);
  }

  /** Both coefficients are withheld as `zero-variance` on the same inputs: with enough pairs, a channel that does not vary. */
  lemma ZeroVarianceExactly(sqrt: real -> real, pairs: seq<Pair>, minPairs: int)
    requires IsSqrt(sqrt)
    ensures
      var xs, ys := Sims(Valid(pairs)), Reals(Valid(pairs));
      var flat := |xs| >= minPairs && (Constant(xs) || Constant(ys));
      && (Judge(|xs| < minPairs, Pearson(sqrt, xs, ys)) == Withheld(ZeroVariance) <==> flat)
      && (Judge(|xs| < minPairs, Spearman(sqrt, xs, ys)) == Withheld(ZeroVariance) <==> flat)
  {
    hide Pearson, Spearman;
    PearsonNullExactly(sqrt, Sims(Valid(pairs)), Reals(Valid(pairs)));
    SpearmanNullExactly(sqrt, Sims(Valid(pairs)), Reals(Valid(pairs)));
  }

  /** A single pair with a zero real value is counted by reason, and is neither excluded nor given a relative error. */
  lemma ZeroRealIsNotExcluded()
    ensures
      var pairs := [Pair(Finite(1.0), Finite(0.0))];
      ZeroReals(pairs) == 1 && |Valid(pairs)| == |pairs| && RelativeErrors(Valid(pairs)) == []
  {
    var pairs := [Pair(Finite(1.0), Finite(0.0))];
    assert pairs[..0] == [] && Valid([]) == [] && ZeroReals([]) == 0;
    assert Valid(pairs) == [] + pairs == pairs;
    assert RelativeErrors(pairs[..0]) == [];
  }
}
