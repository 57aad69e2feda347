/**
 The DDPM coefficient tables: one reverse step with these coefficients carries the marginal of step
 k to the marginal of step k - 1, for every table of betas in (0, 1).
 */
module DiffusionSchedule {
  import opened Outcomes
  import opened RealFacts

  // ----- The beta table -----

  const BETA_FLOOR: real := 0.00001
  const BETA_CEILING: real := 0.999

  function Clip(x: real, lo: real, hi: real): real
    requires lo <= hi
  {
    if x < lo then lo else if x > hi then hi else x
  }

  datatype Kind = Linear | Cosine | Other

  datatype ScheduleError = TooFewSteps | UnknownSchedule

  /** `linspace(1e-4, 0.02, steps)` */
  function Linspace(steps: nat): (r: seq<real>)
    requires steps >= 2
  {
    seq(steps, k requires 0 <= k < steps => 0.0001 + k as real * (0.0199 / (steps - 1) as real))
  }

  function Ratio(x: real, y: real): real
    requires y != 0.0
  {
    x / y
  }

  /** `1 - alpha_bar[1:] / alpha_bar[:-1]` with `alpha_bar = f / f[0]`. */
  function CosineRatio(next: real, now: real, first: real): real
    requires now != 0.0 && first != 0.0
  {
    1.0 - Ratio(Ratio(next, first), Ratio(now, first))
  }

  function CosineRatios(f: nat -> real, steps: nat): (r: seq<real>)
    requires forall k :: 0 <= k < steps ==> f(k) != 0.0
  {
    seq(steps, k requires 0 <= k < steps => CosineRatio(f(k + 1), f(k), f(0)))
  }

  /** `f(k)` is the squared cosine at tick `k`; only the last one may vanish. */
  function BetaSchedule(kind: Kind, steps: int, f: nat -> real): (r: Result<seq<real>, ScheduleError>)
    requires forall k :: 0 <= k < steps ==> f(k) != 0.0
    ensures r.Ok? <==> steps >= 2 && kind != Other
    ensures r.Ok? ==> |r.value| == steps && Betas(r.value)
  {
    if steps < 2 then Err(TooFewSteps)
    else
      match kind
      case Linear =>
        var raw := Linspace(steps);
        Ok(seq(steps, k requires 0 <= k < steps => Clip(raw[k], BETA_FLOOR, BETA_CEILING)))
      case Cosine =>
        var raw := CosineRatios(f, steps);
        Ok(seq(steps, k requires 0 <= k < steps => Clip(raw[k], BETA_FLOOR, BETA_CEILING)))
      case Other => Err(UnknownSchedule)
  }

  predicate Betas(betas: seq<real>) {
    betas != [] && forall k :: 0 <= k < |betas| ==> 0.0 < betas[k] < 1.0
  }

  // ----- The coefficients -----

  /** `cumprod(1 - betas)`, the product of the first `n` factors; none gives 1. */
  function Kept(betas: seq<real>, n: nat): real
    requires n <= |betas|
  {
    if n == 0 then 1.0 else Decayed(betas[n - 1], Kept(betas, n - 1))
  }

  function Decayed(beta: real, x: real): real {
    (1.0 - beta) * x
  }

  function AlphaBar(betas: seq<real>, k: nat): real
    requires k < |betas|
  {
    Kept(betas, k + 1)
  }

  /** The signal decays strictly and never vanishes. */
  lemma {:induction false} KeptDecays(betas: seq<real>, m: nat, n: nat)
    requires Betas(betas) && m <= n <= |betas|
    ensures 0.0 < Kept(betas, n) <= Kept(betas, m) <= 1.0
    ensures m < n ==> Kept(betas, n) < Kept(betas, m)
    decreases n
  {
    hide Decayed;
    if n > 0 {
      KeptDecays(betas, if m == n then n - 1 else m, n - 1);
      Decays(betas[n - 1], Kept(betas, n - 1));
    }
  }

  lemma Decays(b: real, x: real)
    requires 0.0 < b < 1.0 && x > 0.0
    ensures 0.0 < Decayed(b, x) < x
  {
    ProductPositive(b, x);
    ProductPositive(1.0 - b, x);
    assert (1.0 - b) * x == x - b * x;
  }

  datatype Coefficients = Coefficients(sqrtAlphaBar: real, sqrtOneMinus: real, coef1: real, coef2: real, std: real)

  function SignalWeight(rootPrevious: real, beta: real, oneMinus: real): real
    requires oneMinus != 0.0
  {
    rootPrevious * beta / oneMinus
  }

  function StateWeight(rootAlpha: real, previous: real, oneMinus: real): real
    requires oneMinus != 0.0
  {
    rootAlpha * (1.0 - previous) / oneMinus
  }

  function NoiseWeight(beta: real, previous: real, oneMinus: real): real
    requires oneMinus != 0.0
  {
    beta * (1.0 - previous) / oneMinus
  }

  /** The first step has no posterior noise. */
  function PosteriorVariance(betas: seq<real>, k: nat): real
    requires Betas(betas) && k < |betas|
  {
    KeptDecays(betas, 0, k + 1);
    if k == 0 then 0.0 else NoiseWeight(betas[k], Kept(betas, k), 1.0 - AlphaBar(betas, k))
  }

  function CoefficientsOf(sqrt: real -> real, beta: real, previous: real, alphaBar: real, variance: real): Coefficients
    requires alphaBar != 1.0
  {
    Coefficients(sqrt(alphaBar), sqrt(1.0 - alphaBar),
                 SignalWeight(sqrt(previous), beta, 1.0 - alphaBar),
                 StateWeight(sqrt(1.0 - beta), previous, 1.0 - alphaBar),
                 sqrt(variance))
  }

  function CoefficientsAt(sqrt: real -> real, betas: seq<real>, k: nat): Coefficients
    requires Betas(betas) && k < |betas|
  {
    KeptDecays(betas, 0, k + 1);
    CoefficientsOf(sqrt, betas[k], Kept(betas, k), AlphaBar(betas, k), PosteriorVariance(betas, k))
  }

  /** The coefficient tensors of a schedule. */
  function Table(sqrt: real -> real, betas: seq<real>): (r: seq<Coefficients>)
    requires Betas(betas)
  {
    seq(|betas|, k requires 0 <= k < |betas| => CoefficientsAt(sqrt, betas, k))
  }

  // ----- The schedule algebra -----

  /** The roots and quotients of one step, as plain numbers. */
  ghost predicate StepNumbers(beta: real, previous: real, c: Coefficients, s: real, a: real, d: real) {
    && 0.0 < beta < 1.0 && 0.0 < previous <= 1.0
    && s * s == previous && a * a == 1.0 - beta
    && c.sqrtAlphaBar == a * s
    && d > 0.0 && d == 1.0 - Decayed(beta, previous)
    && Weights(beta, previous, c, s, a, d)
  }

  lemma RootFacts(sqrt: real -> real, x: real)
    requires IsSqrt(sqrt) && x >= 0.0
    ensures sqrt(x) >= 0.0 && sqrt(x) * sqrt(x) == x
  {
  }

  /** The square roots of one step. */
  ghost predicate Roots(beta: real, previous: real, alphaBar: real, c: Coefficients, s: real, a: real) {
    && s >= 0.0 && s * s == previous
    && a >= 0.0 && a * a == 1.0 - beta
    && c.sqrtAlphaBar >= 0.0 && c.sqrtAlphaBar * c.sqrtAlphaBar == alphaBar
  }

  /** The quotients of one step. */
  ghost predicate Weights(beta: real, previous: real, c: Coefficients, s: real, a: real, d: real) {
    && c.coef1 * d == s * beta
    && c.coef2 * d == a * (1.0 - previous)
    && (c.std * c.std) * d == beta * (1.0 - previous)
  }

  lemma PlainNumbers(beta: real, previous: real, alphaBar: real, c: Coefficients, s: real, a: real)
    requires 0.0 < beta < 1.0 && 0.0 < previous <= 1.0
    requires 0.0 < alphaBar < 1.0 && alphaBar == Decayed(beta, previous)
    requires Roots(beta, previous, alphaBar, c, s, a) && Weights(beta, previous, c, s, a, 1.0 - alphaBar)
    ensures StepNumbers(beta, previous, c, s, a, 1.0 - alphaBar)
  {
    hide Weights;
    RootOfProduct(a, s, c.sqrtAlphaBar, 1.0 - beta, previous);
  }

  lemma PlainVariance(beta: real, previous: real, alphaBar: real)
    requires 0.0 < beta < 1.0 && 0.0 < previous <= 1.0 && 0.0 < alphaBar < 1.0
    ensures
      var v := NoiseWeight(beta, previous, 1.0 - alphaBar);
      v >= 0.0 && v * (1.0 - alphaBar) == beta * (1.0 - previous)
  {
    var x, d := beta * (1.0 - previous), 1.0 - alphaBar;
    assert x >= 0.0 by { ProductSign(beta, 1.0 - previous); }
    assert x / d >= 0.0 by { QuotientSign(x, d); }
    QuotientTimes(x, d);
  }

  lemma KeptOnce(betas: seq<real>, k: nat)
    requires k < |betas|
    ensures AlphaBar(betas, k) == Decayed(betas[k], Kept(betas, k)) && Kept(betas, 0) == 1.0
  {
    hide Decayed;
  }

  lemma VarianceQuotient(betas: seq<real>, k: nat)
    requires Betas(betas) && k < |betas|
    ensures PosteriorVariance(betas, k) >= 0.0
    ensures PosteriorVariance(betas, k) * (1.0 - AlphaBar(betas, k)) == betas[k] * (1.0 - Kept(betas, k))
  {
    hide Kept, AlphaBar;
    SignalBounds(betas, k);
    KeptOnce(betas, k);
    PlainVariance(betas[k], Kept(betas, k), AlphaBar(betas, k));
  }

  lemma SignalBounds(betas: seq<real>, k: nat)
    requires Betas(betas) && k < |betas|
    ensures 0.0 < AlphaBar(betas, k) < Kept(betas, k) <= 1.0
  {
    KeptDecays(betas, 0, k);
    KeptDecays(betas, k, k + 1);
  }

  lemma NumbersOfStep(sqrt: real -> real, betas: seq<real>, k: nat)
    requires IsSqrt(sqrt) && Betas(betas) && k < |betas|
    ensures StepNumbers(betas[k], Kept(betas, k), CoefficientsAt(sqrt, betas, k), sqrt(Kept(betas, k)), sqrt(1.0 - betas[k]),
                        1.0 - AlphaBar(betas, k))
  {
    hide Kept, AlphaBar, PosteriorVariance, CoefficientsOf, IsSqrt, StepNumbers, Decayed;
    SignalBounds(betas, k);
    KeptOnce(betas, k);
    VarianceQuotient(betas, k);
    NumbersOf(sqrt, betas[k], Kept(betas, k), AlphaBar(betas, k), PosteriorVariance(betas, k));
  }

  lemma NumbersOf(sqrt: real -> real, beta: real, previous: real, alphaBar: real, v: real)
    requires IsSqrt(sqrt) && 0.0 < beta < 1.0 && 0.0 < previous <= 1.0
    requires 0.0 < alphaBar < 1.0 && alphaBar == Decayed(beta, previous)
    requires v >= 0.0 && v * (1.0 - alphaBar) == beta * (1.0 - previous)
    ensures StepNumbers(beta, previous, CoefficientsOf(sqrt, beta, previous, alphaBar, v), sqrt(previous), sqrt(1.0 - beta),
                        1.0 - alphaBar)
  {
    hide IsSqrt, StepNumbers, Decayed, Roots, Weights;
    var c, s, a := CoefficientsOf(sqrt, beta, previous, alphaBar, v), sqrt(previous), sqrt(1.0 - beta);
    RootsHold(sqrt, beta, previous, alphaBar, v);
    WeightsHold(sqrt, beta, previous, alphaBar, v);
    PlainNumbers(beta, previous, alphaBar, c, s, a);
  }

  lemma RootsHold(sqrt: real -> real, beta: real, previous: real, alphaBar: real, v: real)
    requires IsSqrt(sqrt) && 0.0 < beta < 1.0 && 0.0 < previous <= 1.0 && 0.0 < alphaBar < 1.0
    ensures Roots(beta, previous, alphaBar, CoefficientsOf(sqrt, beta, previous, alphaBar, v), sqrt(previous), sqrt(1.0 - beta))
  {
    hide IsSqrt, SignalWeight, StateWeight;
    RootFacts(sqrt, previous);
    RootFacts(sqrt, 1.0 - beta);
    RootFacts(sqrt, alphaBar);
  }

  lemma WeightsHold(sqrt: real -> real, beta: real, previous: real, alphaBar: real, v: real)
    requires IsSqrt(sqrt) && 0.0 < beta < 1.0 && 0.0 < previous <= 1.0 && 0.0 < alphaBar < 1.0
    requires v >= 0.0 && v * (1.0 - alphaBar) == beta * (1.0 - previous)
    ensures Weights(beta, previous, CoefficientsOf(sqrt, beta, previous, alphaBar, v), sqrt(previous), sqrt(1.0 - beta),
                    1.0 - alphaBar)
  {
    hide IsSqrt, SignalWeight, StateWeight;
    var c, s, a := CoefficientsOf(sqrt, beta, previous, alphaBar, v), sqrt(previous), sqrt(1.0 - beta);
    RootFacts(sqrt, v);
    WeightTimes(s, beta, previous, 1.0 - alphaBar);
    WeightTimes(a, beta, previous, 1.0 - alphaBar);
    SquareTimes(c.std, v, 1.0 - alphaBar);
  }

  lemma SquareTimes(r: real, v: real, d: real)
    requires r * r == v
    ensures (r * r) * d == v * d
  {
  }

  lemma RootOfProduct(a: real, s: real, r: real, x: real, y: real)
    requires a >= 0.0 && s >= 0.0 && r >= 0.0 && a * a == x && s * s == y && r * r == x * y
    ensures r == a * s
  {
    ProductSign(a, s);
    assert (a * s) * (a * s) == (a * a) * (s * s);
    RootUnique(r, a * s);
  }

  lemma QuotientTimes(x: real, d: real)
    requires d != 0.0
    ensures (x / d) * d == x
  {
  }

  lemma WeightTimes(root: real, beta: real, previous: real, d: real)
    requires d != 0.0
    ensures SignalWeight(root, beta, d) * d == root * beta
    ensures StateWeight(root, previous, d) * d == root * (1.0 - previous)
  {
    QuotientTimes(root * beta, d);
    QuotientTimes(root * (1.0 - previous), d);
  }

  lemma MeanNumbers(beta: real, previous: real, c: Coefficients, s: real, a: real, d: real)
    requires StepNumbers(beta, previous, c, s, a, d)
    ensures c.coef1 + c.coef2 * c.sqrtAlphaBar == s
  {
    MeanTimes(beta, previous, c.coef1, c.coef2, s, a, d);
    Cancel(c.coef1 + c.coef2 * (a * s) - s, d);
  }

  lemma MeanTimes(beta: real, previous: real, c1: real, c2: real, s: real, a: real, d: real)
    requires a * a == 1.0 - beta && d == 1.0 - Decayed(beta, previous)
    requires c1 * d == s * beta && c2 * d == a * (1.0 - previous)
    ensures (c1 + c2 * (a * s) - s) * d == 0.0
  {
    var u := (1.0 - previous) * s;
    Regroup(c2, d, a, s, 1.0 - previous);
    assert (c2 * (a * s)) * d == (1.0 - beta) * u;
    assert s * d == s * beta + (1.0 - beta) * u;
    assert (c1 + c2 * (a * s) - s) * d == c1 * d + (c2 * (a * s)) * d - s * d;
  }

  lemma Regroup(c2: real, d: real, a: real, s: real, q: real)
    requires c2 * d == a * q
    ensures (c2 * (a * s)) * d == (a * a) * (q * s)
  {
    assert (c2 * (a * s)) * d == (c2 * d) * (a * s);
    assert (a * q) * (a * s) == (a * a) * (q * s);
  }

  lemma VarianceNumbers(beta: real, previous: real, c: Coefficients, s: real, a: real, d: real)
    requires StepNumbers(beta, previous, c, s, a, d)
    ensures (c.coef2 * c.coef2) * d + c.std * c.std == 1.0 - previous
  {
    VarianceTimes(beta, previous, c.coef2, c.std * c.std, a, d);
    Cancel((c.coef2 * c.coef2) * d + c.std * c.std - (1.0 - previous), d);
  }

  lemma VarianceTimes(beta: real, previous: real, c2: real, v: real, a: real, d: real)
    requires a * a == 1.0 - beta && d == 1.0 - Decayed(beta, previous)
    requires c2 * d == a * (1.0 - previous) && v * d == beta * (1.0 - previous)
    ensures ((c2 * c2) * d + v - (1.0 - previous)) * d == 0.0
  {
    var q := 1.0 - previous;
    assert ((c2 * c2) * d) * d == (c2 * d) * (c2 * d);
    assert (a * q) * (a * q) == (a * a) * (q * q);
    assert (1.0 - beta) * (q * q) + beta * q == q * d;
    assert ((c2 * c2) * d + v - q) * d == ((c2 * c2) * d) * d + v * d - q * d;
  }

  /**
   Every table is consistent: the signal decays strictly inside (0, 1), the posterior mean carries
   the signal of step k to that of step k - 1, and the posterior noise makes up the rest.
   */
  lemma ScheduleIsConsistent(sqrt: real -> real, betas: seq<real>, k: nat)
    requires IsSqrt(sqrt) && Betas(betas) && k < |betas|
    ensures
      var c := CoefficientsAt(sqrt, betas, k);
      && 0.0 < AlphaBar(betas, k) < Kept(betas, k) <= 1.0
      && c.sqrtAlphaBar > 0.0 && c.sqrtAlphaBar * c.sqrtAlphaBar == AlphaBar(betas, k)
      && c.sqrtOneMinus * c.sqrtOneMinus == 1.0 - AlphaBar(betas, k)
      && c.coef1 + c.coef2 * c.sqrtAlphaBar == sqrt(Kept(betas, k))
      && (c.coef2 * c.coef2) * (1.0 - AlphaBar(betas, k)) + c.std * c.std == 1.0 - Kept(betas, k)
  {
    hide CoefficientsOf, Kept, AlphaBar, IsSqrt, StepNumbers;
    SignalBounds(betas, k);
    NumbersOfStep(sqrt, betas, k);
    var c, s, a := CoefficientsAt(sqrt, betas, k), sqrt(Kept(betas, k)), sqrt(1.0 - betas[k]);
    MeanNumbers(betas[k], Kept(betas, k), c, s, a, 1.0 - AlphaBar(betas, k));
    VarianceNumbers(betas[k], Kept(betas, k), c, s, a, 1.0 - AlphaBar(betas, k));
    SignalRoots(sqrt, betas, k);
  }

  lemma SignalRoots(sqrt: real -> real, betas: seq<real>, k: nat)
    requires IsSqrt(sqrt) && Betas(betas) && k < |betas|
    ensures
      var c := CoefficientsAt(sqrt, betas, k);
      && c.sqrtAlphaBar > 0.0 && c.sqrtAlphaBar * c.sqrtAlphaBar == AlphaBar(betas, k)
      && c.sqrtOneMinus * c.sqrtOneMinus == 1.0 - AlphaBar(betas, k)
  {
    KeptDecays(betas, 0, k + 1);
    hide Kept, AlphaBar;
    var c := CoefficientsAt(sqrt, betas, k);
    assert c.sqrtAlphaBar >= 0.0 && c.sqrtAlphaBar * c.sqrtAlphaBar == AlphaBar(betas, k);
  }

  /** With the true noise, the posterior mean of a noised sample keeps its signal. */
  lemma PosteriorFollowsSignal(sqrt: real -> real, betas: seq<real>, k: nat, x0: real, noise: real)
    requires IsSqrt(sqrt) && Betas(betas) && k < |betas|
    ensures
      var c := CoefficientsAt(sqrt, betas, k);
      var x := c.sqrtAlphaBar * x0 + c.sqrtOneMinus * noise;
      c.coef1 * x0 + c.coef2 * x == sqrt(Kept(betas, k)) * x0 + (c.coef2 * c.sqrtOneMinus) * noise
  {
    ScheduleIsConsistent(sqrt, betas, k);
    var c := CoefficientsAt(sqrt, betas, k);
    SignalSplits(c, x0, noise);
  }

  lemma SignalSplits(c: Coefficients, x0: real, noise: real)
    ensures c.coef1 * x0 + c.coef2 * (c.sqrtAlphaBar * x0 + c.sqrtOneMinus * noise)
            == (c.coef1 + c.coef2 * c.sqrtAlphaBar) * x0 + (c.coef2 * c.sqrtOneMinus) * noise
  {
  }

  /** The last reverse step returns the x0 prediction and adds no noise. */
  lemma LastStepIsPrediction(sqrt: real -> real, betas: seq<real>)
    requires IsSqrt(sqrt) && Betas(betas)
    ensures
      var c := CoefficientsAt(sqrt, betas, 0);
      c.coef1 == 1.0 && c.coef2 == 0.0 && c.std == 0.0
  {
    NumbersOfStep(sqrt, betas, 0);
    var c, b := CoefficientsAt(sqrt, betas, 0), betas[0];
    assert Kept(betas, 0) == 1.0 && AlphaBar(betas, 0) == 1.0 - b;
    RootUnique(sqrt(1.0), 1.0);
    hide CoefficientsOf, CoefficientsAt, Kept, AlphaBar, IsSqrt;
    LastNumbers(b, c, sqrt(1.0 - b));
  }

  lemma LastNumbers(b: real, c: Coefficients, a: real)
    requires StepNumbers(b, 1.0, c, 1.0, a, b)
    ensures c.coef1 == 1.0 && c.coef2 == 0.0 && c.std == 0.0
  {
    QuotientUnique(b, b, c.coef1);
    QuotientUnique(b, b, 1.0);
    Cancel(c.coef2, b);
    Cancel(c.std * c.std, b);
    SquareSign(c.std);
  }

  lemma OnTheLine(n: real, k: real, gap: real)
    requires gap * n == 0.0199
    ensures (0.0001 + k * gap) * n == (n - k) * 0.0001 + k * 0.02
  {
    assert (k * gap) * n == k * (gap * n);
  }

  /** The point `k` of the straight line from 1e-4 to 0.02 over the steps. */
  predicate LinearAt(steps: nat, k: nat, x: real)
    requires k < steps
  {
    x * (steps - 1) as real == (steps - 1 - k) as real * 0.0001 + k as real * 0.02
  }

  /** The linear table rises from 1e-4 to 0.02, so the clip leaves it alone. */
  lemma LinearIsUnclipped(steps: nat, f: nat -> real)
    requires steps >= 2 && forall k :: 0 <= k < steps ==> f(k) != 0.0
    ensures BetaSchedule(Linear, steps, f).value == Linspace(steps)
    ensures Linspace(steps)[0] == 0.0001 && Linspace(steps)[steps - 1] == 0.02
    ensures forall k :: 0 <= k < steps ==> LinearAt(steps, k, Linspace(steps)[k])
    ensures forall j, k :: 0 <= j < k < steps ==> Linspace(steps)[j] < Linspace(steps)[k]
  {
    var n := (steps - 1) as real;
    var raw, gap := Linspace(steps), 0.0199 / n;
    QuotientTimes(0.0199, n);
    QuotientSign(0.0199, n);
    forall k | 0 <= k < steps ensures LinearAt(steps, k, raw[k]) { OnTheLine(n, k as real, gap); }
    forall j, k | 0 <= j < k < steps ensures raw[j] < raw[k] {
      ProductPositive((k - j) as real, gap);
      assert raw[k] - raw[j] == (k - j) as real * gap;
    }
    assert raw[0] == 0.0001 && raw[steps - 1] == 0.0001 + n * gap;
    assert forall k :: 0 <= k < steps ==> raw[0] <= raw[k] <= raw[steps - 1];
  }

  // ----- The cosine table -----

  /** The clip leaves step `k` alone. */
  predicate Unclipped(f: nat -> real, k: nat) {
    (1.0 - BETA_CEILING) * f(k) <= f(k + 1) <= (1.0 - BETA_FLOOR) * f(k)
  }

  /** The beta carries `x` to `y` unless the clip bounds it. */
  predicate Carries(beta: real, x: real, y: real) {
    && ((1.0 - BETA_CEILING) * x <= y <= (1.0 - BETA_FLOOR) * x ==> Decayed(beta, x) == y)
    && (y > (1.0 - BETA_FLOOR) * x ==> beta == BETA_FLOOR)
    && (y < (1.0 - BETA_CEILING) * x ==> beta == BETA_CEILING)
  }

  lemma RatioOfRatios(now: real, next: real, first: real)
    requires now > 0.0 && first > 0.0
    ensures CosineRatio(next, now, first) == 1.0 - Ratio(next, now)
  {
    var x, y, q := now / first, next / first, next / now;
    QuotientTimes(now, first);
    QuotientTimes(next, first);
    QuotientTimes(next, now);
    QuotientSign(now, first);
    assert (q * x) * first == q * (x * first);
    QuotientUnique(next, first, q * x);
    QuotientUnique(y, x, q);
  }

  lemma RatioTimes(y: real, x: real)
    requires x != 0.0
    ensures Ratio(y, x) * x == y && Decayed(1.0 - Ratio(y, x), x) == y
  {
    QuotientTimes(y, x);
    assert (1.0 - (1.0 - Ratio(y, x))) * x == Ratio(y, x) * x;
  }

  lemma ClippedRatio(x: real, y: real)
    requires x > 0.0
    ensures Carries(Clip(1.0 - Ratio(y, x), BETA_FLOOR, BETA_CEILING), x, y)
  {
    hide Decayed;
    var q := Ratio(y, x);
    RatioTimes(y, x);
    ScaledOrder(x, q, 1.0 - BETA_FLOOR);
    ScaledOrder(x, 1.0 - BETA_CEILING, q);
    if (1.0 - BETA_CEILING) * x <= y <= (1.0 - BETA_FLOOR) * x { QuotientWithin(1.0 - BETA_CEILING, y, 1.0 - BETA_FLOOR, x); }
  }

  /** A cosine beta carries f(k) to f(k + 1) unless the clip bounds it. */
  lemma CosineBeta(f: nat -> real, steps: nat, k: nat)
    requires steps >= 2 && k < steps && forall j :: 0 <= j < steps ==> f(j) > 0.0
    ensures Carries(BetaSchedule(Cosine, steps, f).value[k], f(k), f(k + 1))
  {
    hide Ratio, Clip, CosineRatio, Carries;
    RatioOfRatios(f(k), f(k + 1), f(0));
    ClippedRatio(f(k), f(k + 1));
  }

  lemma KeptOneMore(betas: seq<real>, n: nat, x: real, y: real)
    requires n < |betas| && Kept(betas, n) * x == y
    ensures Kept(betas, n + 1) * x == Decayed(betas[n], y)
  {
    var kept, keep := Kept(betas, n), 1.0 - betas[n];
    assert (keep * kept) * x == keep * (kept * x);
  }

  lemma CarriesUnclipped(beta: real, f: nat -> real, k: nat)
    requires Carries(beta, f(k), f(k + 1)) && Unclipped(f, k)
    ensures Decayed(beta, f(k)) == f(k + 1)
  {
  }

  /** As long as the clip is idle, the share of the signal that is kept is the squared cosine itself. */
  lemma {:induction false} CosineKept(f: nat -> real, steps: nat, n: nat)
    requires steps >= 2 && n <= steps && forall j :: 0 <= j < steps ==> f(j) > 0.0
    requires forall k :: 0 <= k < n ==> Unclipped(f, k)
    ensures Kept(BetaSchedule(Cosine, steps, f).value, n) * f(0) == f(n)
  {
    hide BetaSchedule, Decayed, Unclipped;
    var betas := BetaSchedule(Cosine, steps, f).value;
    if n > 0 {
      CosineKept(f, steps, n - 1);
      CosineBeta(f, steps, n - 1);
      assert Unclipped(f, n - 1);
      CarriesUnclipped(betas[n - 1], f, n - 1);
      KeptOneMore(betas, n - 1, f(0), f(n - 1));
    }
  }
}
