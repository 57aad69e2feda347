/**
 The reverse diffusion sampler and the exported actor with frozen noise. The denoiser and the
 observation embedding are arbitrary functions of one row of the batch.
 */
module DiffusionSampler {
  import opened DiffusionSchedule
  import opened RealFacts

  /** Action dimension by time, or time by action dimension. */
  type Grid = seq<seq<real>>

  predicate Shaped(g: Grid, rows: nat, columns: nat) {
    |g| == rows && forall i :: 0 <= i < rows ==> |g[i]| == columns
  }

  function Build(rows: nat, columns: nat, f: (nat, nat) -> real): (g: Grid)
    ensures Shaped(g, rows, columns)
    ensures forall i, j :: 0 <= i < rows && 0 <= j < columns ==> g[i][j] == f(i, j)
  {
    seq(rows, i requires 0 <= i < rows => seq(columns, j requires 0 <= j < columns => f(i, j)))
  }

  function At(g: Grid, i: nat, j: nat): real {
    if i < |g| && j < |g[i]| then g[i][j] else 0.0
  }

  predicate Within(g: Grid) {
    forall i, j :: 0 <= i < |g| && 0 <= j < |g[i]| ==> -1.0 <= g[i][j] <= 1.0
  }

  // ----- One reverse step -----

  /** `(x - sqrt_one_minus * noise_hat) / sqrt_alpha_bar`, clamped. */
  function Predicted(c: Coefficients, x: real, noiseHat: real): real
    requires c.sqrtAlphaBar != 0.0
  {
    Clip(Signal(x, c.sqrtOneMinus, noiseHat, c.sqrtAlphaBar), -1.0, 1.0)
  }

  function Signal(x: real, noiseScale: real, noiseHat: real, scale: real): real
    requires scale != 0.0
  {
    (x - noiseScale * noiseHat) / scale
  }

  function PosteriorMean(c: Coefficients, x: Grid, noiseHat: Grid, rows: nat, columns: nat): (g: Grid)
    requires c.sqrtAlphaBar != 0.0
    ensures Shaped(g, rows, columns)
  {
    Build(rows, columns, (i: nat, j: nat) =>
      c.coef1 * Predicted(c, At(x, i, j), At(noiseHat, i, j)) + c.coef2 * At(x, i, j))
  }

  function Noised(mean: Grid, std: real, z: Grid, rows: nat, columns: nat): (g: Grid)
    ensures Shaped(g, rows, columns)
  {
    Build(rows, columns, (i: nat, j: nat) => At(mean, i, j) + std * At(z, i, j))
  }

  // ----- The chain -----

  datatype Model<!Obs, !Cond> = Model(
    actDim: nat, horizon: nat, diffusionSteps: nat, embed: Obs -> Cond, predict: (Grid, nat, Cond) -> Grid)

  /** The horizon padded to a multiple of four. */
  function Padded(horizon: nat): (padded: nat)
    ensures padded % 4 == 0 && horizon <= padded < horizon + 4
  {
    (horizon + 3) / 4 * 4
  }

  predicate Usable(table: seq<Coefficients>) {
    |table| >= 2 && forall k :: 0 <= k < |table| ==> table[k].sqrtAlphaBar != 0.0
  }

  function StepBack<O, C>(m: Model<O, C>, table: seq<Coefficients>, cond: C, k: nat, x: Grid, z: Grid): Grid
    requires Usable(table) && k < |table|
  {
    var mean := PosteriorMean(table[k], x, m.predict(x, k, cond), m.actDim, Padded(m.horizon));
    if k > 0 then Noised(mean, table[k].std, z, m.actDim, Padded(m.horizon)) else mean
  }

  /** The state after reverse steps T - 1 to k; row 0 of the noise is x_T, row T - k the z of step k. */
  function Chain<O, C>(m: Model<O, C>, table: seq<Coefficients>, cond: C, noise: seq<Grid>, k: nat): Grid
    requires Usable(table) && |noise| == |table| && k <= |table|
    decreases |table| - k
  {
    if k == |table| then noise[0]
    else StepBack(m, table, cond, k, Chain(m, table, cond, noise, k + 1), if k > 0 then noise[|table| - k] else [])
  }

  /** Cropped to the horizon and transposed to time by action dimension. */
  function Chunk<O, C>(m: Model<O, C>, x: Grid): (g: Grid)
    ensures Shaped(g, m.horizon, m.actDim)
  {
    Build(m.horizon, m.actDim, (t: nat, i: nat) => At(x, i, t))
  }

  // ----- The random stream -----

  /** A seeded generator: each draw of `batch` grids depends on the state and the shape only. */
  class Generator<S> {
    const randn: (S, nat, nat, nat) -> (S, seq<Grid>)
    var state: S

    constructor (randn: (S, nat, nat, nat) -> (S, seq<Grid>), seed: S)
      ensures this.randn == randn && state == seed
    {
      this.randn := randn;
      state := seed;
    }

    method Randn(batch: nat, rows: nat, columns: nat) returns (g: seq<Grid>)
      modifies this
      ensures (state, g) == randn(old(state), batch, rows, columns)
    {
      var (s, drawn) := randn(state, batch, rows, columns);
      state := s;
      g := drawn;
    }
  }

  function StateAfter<S>(randn: (S, nat, nat, nat) -> (S, seq<Grid>), s: S, batch: nat, rows: nat, columns: nat, n: nat): S {
    if n == 0 then s else randn(StateAfter(randn, s, batch, rows, columns, n - 1), batch, rows, columns).0
  }

  function GridOf(drawn: seq<Grid>, b: nat): Grid {
    if b < |drawn| then drawn[b] else []
  }

  /** The first `n` draws, as batch row `b` receives them. */
  function RowNoise<S>(randn: (S, nat, nat, nat) -> (S, seq<Grid>), s: S, batch: nat, rows: nat, columns: nat, n: nat, b: nat):
    (noise: seq<Grid>)
    ensures |noise| == n
  {
    seq(n, j requires 0 <= j < n =>
      GridOf(randn(StateAfter(randn, s, batch, rows, columns, j), batch, rows, columns).1, b))
  }

  // ----- The three loops -----

  method SampleChunks<S, O, C>(m: Model<O, C>, table: seq<Coefficients>, obs: seq<O>, generator: Generator<S>)
    returns (chunks: seq<Grid>)
    requires Usable(table)
    modifies generator
    ensures |chunks| == |obs|
    ensures forall b :: 0 <= b < |obs| ==>
      chunks[b] == Chunk(m, Chain(m, table, m.embed(obs[b]),
        RowNoise(generator.randn, old(generator.state), |obs|, m.actDim, Padded(m.horizon), |table|, b), 0))
    ensures generator.state == StateAfter(generator.randn, old(generator.state), |obs|, m.actDim, Padded(m.horizon), |table|)
  {
    hide StepBack, Chunk;
    var batch, rows, columns := |obs|, m.actDim, Padded(m.horizon);
    ghost var randn, seed := generator.randn, generator.state;
    var drawn := generator.Randn(batch, rows, columns);
    var x := seq(batch, b requires 0 <= b < batch => GridOf(drawn, b));
    var cond := seq(batch, b requires 0 <= b < batch => m.embed(obs[b]));
    var k := |table|;
    while k > 0
      invariant 0 <= k <= |table| && |x| == batch
      invariant generator.state == StateAfter(randn, seed, batch, rows, columns, if k > 0 then |table| - k + 1 else |table|)
      invariant forall b :: 0 <= b < batch ==>
        x[b] == Chain(m, table, cond[b], RowNoise(randn, seed, batch, rows, columns, |table|, b), k)
    {
      k := k - 1;
      var z := [];
      if k > 0 {
        z := generator.Randn(batch, rows, columns);
      }
      x := seq(batch, b requires 0 <= b < batch => StepBack(m, table, cond[b], k, x[b], GridOf(z, b)));
    }
    chunks := seq(batch, b requires 0 <= b < batch => Chunk(m, x[b]));
  }

  method SamplerNoise<S, O, C>(m: Model<O, C>, generator: Generator<S>) returns (noise: seq<Grid>)
    requires m.diffusionSteps >= 2
    modifies generator
    ensures noise == RowNoise(generator.randn, old(generator.state), 1, m.actDim, Padded(m.horizon), m.diffusionSteps, 0)
  {
    var steps, rows, columns := m.diffusionSteps, m.actDim, Padded(m.horizon);
    ghost var all := RowNoise(generator.randn, generator.state, 1, rows, columns, steps, 0);
    ghost var randn, seed := generator.randn, generator.state;
    var buffer := new Grid[steps](_ => []);
    var drawn := generator.Randn(1, rows, columns);
    buffer[0] := GridOf(drawn, 0);
    var k := steps - 1;
    while k > 0
      invariant 0 <= k < steps
      invariant generator.state == StateAfter(randn, seed, 1, rows, columns, steps - k)
      invariant buffer[..steps - k] == all[..steps - k]
    {
      drawn := generator.Randn(1, rows, columns);
      buffer[steps - k] := GridOf(drawn, 0);
      k := k - 1;
    }
    return buffer[..];
  }

  datatype Actor<!O, !C> = Actor(
    model: Model<O, C>, normalise: O -> O, actMean: Grid, actStd: Grid, table: seq<Coefficients>, noise: seq<Grid>)

  function Denormalised<O, C>(a: Actor<O, C>, chunk: Grid): (g: Grid)
    ensures Shaped(g, a.model.horizon, a.model.actDim)
  {
    Build(a.model.horizon, a.model.actDim, (t: nat, i: nat) => At(chunk, t, i) * At(a.actStd, t, i) + At(a.actMean, t, i))
  }

  function Clamped(g: Grid): (r: Grid)
    ensures Within(r)
  {
    seq(|g|, t requires 0 <= t < |g| => seq(|g[t]|, i requires 0 <= i < |g[t]| => Clip(g[t][i], -1.0, 1.0)))
  }

  method Forward<O, C>(a: Actor<O, C>, observation: seq<O>) returns (chunks: seq<Grid>)
    requires Usable(a.table) && |a.table| == a.model.diffusionSteps == |a.noise|
    ensures |chunks| == |observation|
    ensures forall b :: 0 <= b < |observation| ==>
      chunks[b] == Clamped(Denormalised(a, Chunk(a.model,
        Chain(a.model, a.table, a.model.embed(a.normalise(observation[b])), a.noise, 0))))
  {
    hide StepBack, Clamped, Denormalised, Chunk;
    var batch := |observation|;
    var cond := seq(batch, b requires 0 <= b < batch => a.model.embed(a.normalise(observation[b])));
    var x := seq(batch, _ => a.noise[0]);
    var steps := a.model.diffusionSteps;
    var k := steps;
    while k > 0
      invariant 0 <= k <= steps && |x| == batch
      invariant forall b :: 0 <= b < batch ==> x[b] == Chain(a.model, a.table, cond[b], a.noise, k)
    {
      k := k - 1;
      var z := if k > 0 then a.noise[steps - k] else [];
      x := seq(batch, b requires 0 <= b < batch => StepBack(a.model, a.table, cond[b], k, x[b], z));
    }
    chunks := seq(batch, b requires 0 <= b < batch => Clamped(Denormalised(a, Chunk(a.model, x[b]))));
  }

  // ----- What the sampler guarantees -----

  /** Every normalised sample lies in [-1, 1], whatever the denoiser predicts. */
  lemma SamplesAreBounded<O, C>(m: Model<O, C>, sqrt: real -> real, betas: seq<real>, cond: C, noise: seq<Grid>)
    requires IsSqrt(sqrt) && Betas(betas) && |noise| == |betas| >= 2
    ensures Usable(Table(sqrt, betas))
    ensures Within(Chunk(m, Chain(m, Table(sqrt, betas), cond, noise, 0)))
  {
    hide IsSqrt, PosteriorMean, CoefficientsAt;
    TableIsUsable(sqrt, betas);
    LastStepIsPrediction(sqrt, betas);
    var table := Table(sqrt, betas);
    var x := Chain(m, table, cond, noise, 1);
    LastLink(m, table, cond, noise);
    LastStepWithin(table[0], x, m.predict(x, 0, cond), m.actDim, Padded(m.horizon));
  }

  lemma TableIsUsable(sqrt: real -> real, betas: seq<real>)
    requires IsSqrt(sqrt) && Betas(betas) && |betas| >= 2
    ensures Usable(Table(sqrt, betas))
  {
    hide IsSqrt, CoefficientsAt;
    forall k | 0 <= k < |betas| ensures Table(sqrt, betas)[k].sqrtAlphaBar != 0.0 {
      ScheduleIsConsistent(sqrt, betas, k);
    }
  }

  lemma LastLink<O, C>(m: Model<O, C>, table: seq<Coefficients>, cond: C, noise: seq<Grid>)
    requires Usable(table) && |noise| == |table|
    ensures
      var x := Chain(m, table, cond, noise, 1);
      Chain(m, table, cond, noise, 0) == PosteriorMean(table[0], x, m.predict(x, 0, cond), m.actDim, Padded(m.horizon))
  {
    hide PosteriorMean, Noised;
  }

  lemma LastStepWithin(c: Coefficients, x: Grid, noiseHat: Grid, rows: nat, columns: nat)
    requires c.sqrtAlphaBar != 0.0 && c.coef1 == 1.0 && c.coef2 == 0.0
    ensures Within(PosteriorMean(c, x, noiseHat, rows, columns))
  {
    hide Predicted;
    forall i: nat, j: nat ensures
      c.coef1 * Predicted(c, At(x, i, j), At(noiseHat, i, j)) + c.coef2 * At(x, i, j) == Predicted(c, At(x, i, j), At(noiseHat, i, j))
    {
    }
    forall i: nat, j: nat ensures -1.0 <= Predicted(c, At(x, i, j), At(noiseHat, i, j)) <= 1.0 {
      PredictedWithin(c, At(x, i, j), At(noiseHat, i, j));
    }
  }

  lemma PredictedWithin(c: Coefficients, x: real, noiseHat: real)
    requires c.sqrtAlphaBar != 0.0
    ensures -1.0 <= Predicted(c, x, noiseHat) <= 1.0
  {
  }

  /** The noise that leads from the target to `x`, cell by cell. */
  ghost predicate Explains(c: Coefficients, x: Grid, noiseHat: Grid, target: Grid) {
    forall i: nat, j: nat :: c.sqrtOneMinus * At(noiseHat, i, j) == At(x, i, j) - c.sqrtAlphaBar * At(target, i, j)
  }

  /** What the denoiser should say of a state that is a noised `target`. */
  ghost predicate KnowsTarget<O, C>(m: Model<O, C>, c: Coefficients, cond: C, target: Grid) {
    forall x :: Explains(c, x, m.predict(x, 0, cond), target)
  }

  /** A denoiser that is right in the last step makes the sampler return its target, for all noise. */
  lemma TargetIsRecovered<O, C>(m: Model<O, C>, sqrt: real -> real, betas: seq<real>, cond: C, noise: seq<Grid>, target: Grid)
    requires IsSqrt(sqrt) && Betas(betas) && |noise| == |betas| >= 2
    requires Shaped(target, m.actDim, Padded(m.horizon)) && Within(target)
    requires KnowsTarget(m, CoefficientsAt(sqrt, betas, 0), cond, target)
    ensures Usable(Table(sqrt, betas))
    ensures Chunk(m, Chain(m, Table(sqrt, betas), cond, noise, 0)) == Chunk(m, target)
  {
    hide IsSqrt, PosteriorMean, CoefficientsAt, Explains, Within, Chunk;
    TableIsUsable(sqrt, betas);
    LastStepIsPrediction(sqrt, betas);
    var table := Table(sqrt, betas);
    var x := Chain(m, table, cond, noise, 1);
    LastLink(m, table, cond, noise);
    assert Explains(table[0], x, m.predict(x, 0, cond), target);
    LastStepHits(table[0], x, m.predict(x, 0, cond), m.actDim, Padded(m.horizon), target);
  }

  lemma LastStepHits(c: Coefficients, x: Grid, noiseHat: Grid, rows: nat, columns: nat, target: Grid)
    requires c.sqrtAlphaBar != 0.0 && c.coef1 == 1.0 && c.coef2 == 0.0
    requires Shaped(target, rows, columns) && Within(target)
    requires Explains(c, x, noiseHat, target)
    ensures PosteriorMean(c, x, noiseHat, rows, columns) == target
  {
    hide Predicted;
    var mean := PosteriorMean(c, x, noiseHat, rows, columns);
    forall i, j | 0 <= i < rows && 0 <= j < columns ensures mean[i][j] == target[i][j] {
      PredictedIs(c, At(x, i, j), At(noiseHat, i, j), target[i][j]);
    }
    assert forall i :: 0 <= i < rows ==> mean[i] == target[i];
  }

  lemma PredictedIs(c: Coefficients, x: real, noiseHat: real, target: real)
    requires c.sqrtAlphaBar != 0.0 && -1.0 <= target <= 1.0
    requires c.sqrtOneMinus * noiseHat == x - c.sqrtAlphaBar * target
    ensures Predicted(c, x, noiseHat) == target
  {
    hide Signal;
    SignalTimes(x, c.sqrtOneMinus, noiseHat, c.sqrtAlphaBar);
    SameProduct(Signal(x, c.sqrtOneMinus, noiseHat, c.sqrtAlphaBar), target, c.sqrtAlphaBar);
  }

  lemma SignalTimes(x: real, noiseScale: real, noiseHat: real, scale: real)
    requires scale != 0.0
    ensures Signal(x, noiseScale, noiseHat, scale) * scale == x - noiseScale * noiseHat
  {
    QuotientTimes(x - noiseScale * noiseHat, scale);
  }

  lemma SameProduct(p: real, q: real, scale: real)
    requires scale != 0.0 && p * scale == scale * q
    ensures p == q
  {
    assert (p - q) * scale == 0.0;
    Cancel(p - q, scale);
  }

  /** The training normalisation of an action, cell by cell: its distance from the mean in standard deviations. */
  predicate Normalises<O, C>(a: Actor<O, C>, actions: Grid, target: Grid) {
    forall t, i :: 0 <= t < a.model.horizon && 0 <= i < a.model.actDim ==>
      At(target, i, t) * At(a.actStd, t, i) == At(actions, t, i) - At(a.actMean, t, i)
  }

  /** The artifact's last stages undo the normalisation of every action in [-1, 1]. */
  lemma DenormalisingUndoes<O, C>(a: Actor<O, C>, actions: Grid, target: Grid)
    requires Shaped(actions, a.model.horizon, a.model.actDim) && Within(actions) && Normalises(a, actions, target)
    ensures Clamped(Denormalised(a, Chunk(a.model, target))) == actions
  {
    var chunk := Chunk(a.model, target);
    var raw := Denormalised(a, chunk);
    forall t, i | 0 <= t < a.model.horizon && 0 <= i < a.model.actDim ensures raw[t][i] == actions[t][i] {
      assert At(chunk, t, i) == At(target, i, t) && At(actions, t, i) == actions[t][i];
    }
    assert forall t :: 0 <= t < a.model.horizon ==> Clamped(raw)[t] == actions[t];
  }

  /**
   The exported artifact, at any batch, is the seeded sampler at batch 1 on each row: the same seed,
   the frozen draws, then de-normalisation and the clamp.
   */
  method ExportParity<S, O, C>(a: Actor<O, C>, randn: (S, nat, nat, nat) -> (S, seq<Grid>), seed: S, observation: seq<O>, b: nat)
    returns (exported: seq<Grid>, sampled: seq<Grid>)
    requires Usable(a.table) && |a.table| == a.model.diffusionSteps && b < |observation|
    ensures |exported| == |observation| && |sampled| == 1
    ensures exported[b] == Clamped(Denormalised(a, sampled[0]))
  {
    var exportNoise := new Generator(randn, seed);
    var noise := SamplerNoise(a.model, exportNoise);
    exported := Forward(a.(noise := noise), observation);
    var stream := new Generator(randn, seed);
    sampled := SampleChunks(a.model, a.table, [a.normalise(observation[b])], stream);
  }
}
