/**
 The marginal law of the reverse chain: with a denoiser that is right about a target at every step, the
 state after each step is the target at its signal level plus a fixed combination of the noise drawn so
 far, whose squared weights make up the rest of the variance.
 */
module DiffusionMarginal {
  import opened DiffusionSchedule
  import opened DiffusionSampler
  import opened RealFacts

  function Times(w: real, x: real): real {
    w * x
  }

  // ----- The fixed combination -----

  /** What is left in the state after step `k` of something that stood in the state before step `s - 1`. */
  function Carry(table: seq<Coefficients>, k: nat, s: nat): real
    requires k <= s <= |table|
    decreases s - k
  {
    if k == s then 1.0 else Times(table[k].coef2, Carry(table, k + 1, s))
  }

  /** The weight of the noise of step `s` in the state after step `k`: its deviation, carried on. */
  function RowWeight(table: seq<Coefficients>, k: nat, s: nat): real
    requires k <= s < |table|
  {
    Times(table[s].std, Carry(table, k, s))
  }

  /** Row `r` of the noise belongs to step `T - r`; the first `n` rows after x_T. */
  function RowSum(table: seq<Coefficients>, noise: seq<Grid>, k: nat, n: nat, i: nat, j: nat): real
    requires |noise| == |table| && n < |table| && k + n <= |table|
  {
    if n == 0 then 0.0
    else RowSum(table, noise, k, n - 1, i, j) + Times(RowWeight(table, k, |table| - n), At(noise[n], i, j))
  }

  function SquareSum(table: seq<Coefficients>, k: nat, n: nat): real
    requires n <= |table| && k + n <= |table|
  {
    if n == 0 then 0.0
    else SquareSum(table, k, n - 1) + Times(RowWeight(table, k, |table| - n), RowWeight(table, k, |table| - n))
  }

  /** The rows drawn by the end of step `k`, besides x_T; the last step draws none. */
  function Drawn(steps: nat, k: nat): (n: nat)
    requires k <= steps && steps > 0
    ensures n < steps && k + n <= steps
  {
    if k == 0 then steps - 1 else steps - k
  }

  // ----- One more step scales what was there -----

  lemma Associates(a: real, b: real, c: real)
    ensures Times(a, Times(b, c)) == Times(Times(a, b), c) == Times(b, Times(a, c))
  {
  }

  lemma Distributes(w: real, a: real, b: real)
    ensures Times(w, a + b) == Times(w, a) + Times(w, b)
    ensures Times(w, 0.0) == 0.0 && Times(w, 1.0) == w
  {
  }

  lemma SquareOf(a: real, b: real)
    ensures Times(Times(a, b), Times(a, b)) == Times(Times(a, a), Times(b, b))
  {
    assert (a * b) * (a * b) == (a * a) * (b * b);
  }

  lemma WeightScales(table: seq<Coefficients>, k: nat, s: nat)
    requires k < s < |table|
    ensures RowWeight(table, k, s) == Times(table[k].coef2, RowWeight(table, k + 1, s))
  {
    hide Times;
    Associates(table[s].std, table[k].coef2, Carry(table, k + 1, s));
  }

  lemma {:induction false} RowsScale(table: seq<Coefficients>, noise: seq<Grid>, k: nat, n: nat, i: nat, j: nat)
    requires |noise| == |table| && k + 1 + n <= |table| && n < |table|
    ensures RowSum(table, noise, k, n, i, j) == Times(table[k].coef2, RowSum(table, noise, k + 1, n, i, j))
  {
    hide Times, RowWeight;
    if n == 0 {
      Distributes(table[k].coef2, 0.0, 0.0);
    } else {
      var c, s, z := table[k].coef2, |table| - n, At(noise[n], i, j);
      RowsScale(table, noise, k, n - 1, i, j);
      WeightScales(table, k, s);
      Associates(c, RowWeight(table, k + 1, s), z);
      Distributes(c, RowSum(table, noise, k + 1, n - 1, i, j), Times(RowWeight(table, k + 1, s), z));
    }
  }

  lemma {:induction false} SquaresScale(table: seq<Coefficients>, k: nat, n: nat)
    requires k + 1 + n <= |table|
    ensures SquareSum(table, k, n) == Times(Times(table[k].coef2, table[k].coef2), SquareSum(table, k + 1, n))
  {
    hide Times, RowWeight;
    var c := table[k].coef2;
    if n == 0 {
      Distributes(Times(c, c), 0.0, 0.0);
    } else {
      var w := RowWeight(table, k + 1, |table| - n);
      SquaresScale(table, k, n - 1);
      WeightScales(table, k, |table| - n);
      SquareOf(c, w);
      Distributes(Times(c, c), SquareSum(table, k + 1, n - 1), Times(w, w));
    }
  }

  /** The row drawn in a step enters with the step's own deviation. */
  lemma NewRow(table: seq<Coefficients>, k: nat)
    requires k < |table|
    ensures RowWeight(table, k, k) == table[k].std
  {
    hide Times;
    Distributes(table[k].std, 0.0, 0.0);
  }

  // ----- The variance -----

  /** The squared weights of the rows, and of the error of x_T, make up the variance at every step. */
  lemma {:induction false} VarianceAddsUp(sqrt: real -> real, betas: seq<real>, k: nat)
    requires IsSqrt(sqrt) && Betas(betas) && k <= |betas|
    ensures
      var table := Table(sqrt, betas);
      var start := Carry(table, k, |table|);
      Times(Times(start, start), 1.0 - Kept(betas, |betas|)) + SquareSum(table, k, |table| - k) == 1.0 - Kept(betas, k)
    decreases |betas| - k
  {
    hide Times, RowWeight, CoefficientsAt, Kept, IsSqrt;
    var table := Table(sqrt, betas);
    if k == |betas| {
      Distributes(1.0, 0.0, 0.0);
      Associates(1.0, 1.0, 1.0 - Kept(betas, |betas|));
      OneTimes(1.0 - Kept(betas, |betas|));
    } else {
      VarianceAddsUp(sqrt, betas, k + 1);
      ConsistentAt(sqrt, betas, k);
      SquaresScale(table, k, |table| - (k + 1));
      NewRow(table, k);
      VarianceStep(table[k].coef2, Carry(table, k + 1, |table|), 1.0 - Kept(betas, |betas|),
                   SquareSum(table, k + 1, |table| - (k + 1)), 1.0 - Kept(betas, k + 1), table[k].std, 1.0 - Kept(betas, k));
    }
  }

  lemma OneTimes(x: real)
    ensures Times(1.0, x) == x
  {
  }

  lemma ConsistentAt(sqrt: real -> real, betas: seq<real>, k: nat)
    requires IsSqrt(sqrt) && Betas(betas) && k < |betas|
    ensures
      var c := Table(sqrt, betas)[k];
      && c.sqrtAlphaBar == sqrt(Kept(betas, k + 1)) && c.sqrtAlphaBar > 0.0
      && c.coef1 + Times(c.coef2, sqrt(Kept(betas, k + 1))) == sqrt(Kept(betas, k))
      && Times(Times(c.coef2, c.coef2), 1.0 - Kept(betas, k + 1)) + Times(c.std, c.std) == 1.0 - Kept(betas, k)
  {
    ScheduleIsConsistent(sqrt, betas, k);
    assert CoefficientsAt(sqrt, betas, k).sqrtAlphaBar == sqrt(Kept(betas, k + 1));
    hide CoefficientsAt, Kept, IsSqrt;
  }

  lemma VarianceStep(c: real, start: real, rest: real, sum: real, before: real, std: real, now: real)
    requires Times(Times(start, start), rest) + sum == before
    requires Times(Times(c, c), before) + Times(std, std) == now
    ensures Times(Times(Times(c, start), Times(c, start)), rest) + (Times(Times(c, c), sum) + Times(std, std)) == now
  {
    hide Times;
    SquareOf(c, start);
    Associates(Times(c, c), Times(start, start), rest);
    Distributes(Times(c, c), Times(Times(start, start), rest), sum);
  }

  // ----- The chain -----

  /** The denoiser names the noise that leads from the target to any state, at every step. */
  ghost predicate KnowsAlways<O, C>(m: Model<O, C>, sqrt: real -> real, betas: seq<real>, cond: C, target: Grid)
    requires Betas(betas)
  {
    forall k: nat, x :: k < |betas| ==> Explains(CoefficientsAt(sqrt, betas, k), x, m.predict(x, k, cond), target)
  }

  /** One reverse step on one cell. */
  lemma StepCell<O, C>(m: Model<O, C>, table: seq<Coefficients>, cond: C, k: nat, x: Grid, z: Grid, target: Grid, i: nat, j: nat)
    requires Usable(table) && k < |table| && Explains(table[k], x, m.predict(x, k, cond), target)
    requires Shaped(target, m.actDim, Padded(m.horizon)) && Within(target) && i < m.actDim && j < Padded(m.horizon)
    ensures At(StepBack(m, table, cond, k, x, z), i, j)
            == Times(table[k].coef1, target[i][j]) + Times(table[k].coef2, At(x, i, j))
               + if k > 0 then Times(table[k].std, At(z, i, j)) else 0.0
  {
    hide Predicted, Padded;
    PredictedIs(table[k], At(x, i, j), At(m.predict(x, k, cond), i, j), target[i][j]);
  }

  lemma CellStep(c1: real, c2: real, level: real, next: real, t: real, x: real, start: real, off: real, sum: real)
    requires c1 + Times(c2, level) == next
    requires x == Times(level, t) + (Times(start, off) + sum)
    ensures Times(c1, t) + Times(c2, x) == Times(next, t) + (Times(Times(c2, start), off) + Times(c2, sum))
  {
    hide Times;
    Distributes(c2, Times(level, t), Times(start, off) + sum);
    Distributes(c2, Times(start, off), sum);
    Associates(c2, level, t);
    Associates(c2, start, off);
    AddsWeights(c1, Times(c2, level), t);
  }

  lemma AddsWeights(a: real, b: real, t: real)
    ensures Times(a, t) + Times(b, t) == Times(a + b, t)
  {
  }

  /** The target at the signal level of step `k`, plus the error of x_T and the rows drawn so far. */
  function Marginal(sqrt: real -> real, betas: seq<real>, noise: seq<Grid>, target: real, k: nat, i: nat, j: nat): real
    requires Betas(betas) && |noise| == |betas| && k <= |betas|
  {
    var table := Table(sqrt, betas);
    Times(sqrt(Kept(betas, k)), target)
    + (Times(Carry(table, k, |table|), At(noise[0], i, j) - Times(sqrt(Kept(betas, |betas|)), target))
       + RowSum(table, noise, k, Drawn(|table|, k), i, j))
  }

  /**
   With a denoiser that is right about a target in [-1, 1] at every step, every cell of the state after
   reverse step `k` is the marginal of the schedule: the target times the root of `Kept`, plus a fixed
   combination of the noise whose squared weights add up to the rest (`VarianceAddsUp`), into which the
   row drawn in step `s` enters with the deviation of that step.
   */
  lemma {:induction false} ChainIsMarginal<O, C>(m: Model<O, C>, sqrt: real -> real, betas: seq<real>, cond: C, noise: seq<Grid>,
                                                  target: Grid, k: nat, i: nat, j: nat)
    requires IsSqrt(sqrt) && Betas(betas) && |noise| == |betas| >= 2 && k <= |betas|
    requires KnowsAlways(m, sqrt, betas, cond, target)
    requires Shaped(target, m.actDim, Padded(m.horizon)) && Within(target) && i < m.actDim && j < Padded(m.horizon)
    ensures Usable(Table(sqrt, betas))
    ensures At(Chain(m, Table(sqrt, betas), cond, noise, k), i, j) == Marginal(sqrt, betas, noise, target[i][j], k, i, j)
    decreases |betas| - k
  {
    hide Times, IsSqrt, Kept, CoefficientsAt, Explains, StepBack, At, Within, Padded, RowWeight, Drawn;
    TableIsUsable(sqrt, betas);
    var table, t := Table(sqrt, betas), target[i][j];
    if k == |betas| {
      AllDrawn(|table|);
      OneTimes(At(noise[0], i, j) - Times(sqrt(Kept(betas, |betas|)), t));
    } else {
      ChainIsMarginal(m, sqrt, betas, cond, noise, target, k + 1, i, j);
      ConsistentAt(sqrt, betas, k);
      var x := Chain(m, table, cond, noise, k + 1);
      var z := if k > 0 then noise[|table| - k] else [];
      assert Explains(table[k], x, m.predict(x, k, cond), target);
      StepCell(m, table, cond, k, x, z, target, i, j);
      var off, n := At(noise[0], i, j) - Times(sqrt(Kept(betas, |betas|)), t), |table| - (k + 1);
      DrawnNext(|table|, k);
      CellStep(table[k].coef1, table[k].coef2, sqrt(Kept(betas, k + 1)), sqrt(Kept(betas, k)), t, At(x, i, j),
               Carry(table, k + 1, |table|), off, RowSum(table, noise, k + 1, n, i, j));
      RowsScale(table, noise, k, n, i, j);
      NewRow(table, k);
    }
  }

  lemma AllDrawn(steps: nat)
    requires steps > 0
    ensures Drawn(steps, steps) == 0
  {
  }

  lemma DrawnNext(steps: nat, k: nat)
    requires k < steps
    ensures Drawn(steps, k + 1) == steps - (k + 1)
    ensures Drawn(steps, k) == if k == 0 then steps - 1 else steps - k
  {
  }
}
