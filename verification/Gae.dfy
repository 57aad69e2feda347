/**
 Generalised advantage estimation: three backward loops over a rollout, one meaning.  Rows are
 time steps, columns are environments, and the rollout end bootstraps with zero.
 */
module Gae {
  import opened RealVectors

  datatype Rollout = Rollout(rewards: seq<Vector>, values: seq<Vector>, dones: seq<seq<bool>>)

  predicate Rectangular(ro: Rollout, n: nat) {
    && |ro.rewards| == |ro.values| == |ro.dones|
    && forall t :: 0 <= t < |ro.rewards| ==> |ro.rewards[t]| == n && |ro.values[t]| == n && |ro.dones[t]| == n
  }

  /** `1.0 - done` */
  function Mask(done: bool): real {
    if done then 0.0 else 1.0
  }

  // ----- What the loops compute, one column at a time -----

  function ValueAt(ro: Rollout, n: nat, t: nat, i: nat): real
    requires Rectangular(ro, n) && t <= |ro.rewards| && i < n
  {
    if t == |ro.rewards| then 0.0 else ro.values[t][i]
  }

  function Delta(ro: Rollout, n: nat, gamma: real, t: nat, i: nat): real
    requires Rectangular(ro, n) && t < |ro.rewards| && i < n
  {
    ro.rewards[t][i] + gamma * ValueAt(ro, n, t + 1, i) * Mask(ro.dones[t][i]) - ro.values[t][i]
  }

  function Advantage(ro: Rollout, n: nat, gamma: real, lam: real, t: nat, i: nat): real
    requires Rectangular(ro, n) && t <= |ro.rewards| && i < n
    decreases |ro.rewards| - t
  {
    if t == |ro.rewards| then 0.0
    else
      Delta(ro, n, gamma, t, i) + gamma * lam * Mask(ro.dones[t][i]) * Advantage(ro, n, gamma, lam, t + 1, i)
  }

  function AdvantageRow(ro: Rollout, n: nat, gamma: real, lam: real, t: nat): (v: Vector)
    requires Rectangular(ro, n) && t <= |ro.rewards|
    ensures |v| == n
  {
    seq(n, i requires 0 <= i < n => Advantage(ro, n, gamma, lam, t, i))
  }

  function ValueRow(ro: Rollout, n: nat, t: nat): (v: Vector)
    requires Rectangular(ro, n) && t <= |ro.rewards|
    ensures |v| == n
  {
    if t == |ro.rewards| then Zeros(n) else ro.values[t]
  }

  /** One row of the recurrence on whole vectors. */
  function Recur(ro: Rollout, n: nat, gamma: real, lam: real, t: nat, nextValue: Vector, lastAdv: Vector): (v: Vector)
    requires Rectangular(ro, n) && t < |ro.rewards| && |nextValue| == |lastAdv| == n
    ensures |v| == n
  {
    seq(n, i requires 0 <= i < n =>
      var mask := Mask(ro.dones[t][i]);
      var delta := ro.rewards[t][i] + gamma * nextValue[i] * mask - ro.values[t][i];
      delta + gamma * lam * mask * lastAdv[i])
  }

  lemma RecurGivesRow(ro: Rollout, n: nat, gamma: real, lam: real, t: nat)
    requires Rectangular(ro, n) && t < |ro.rewards|
    ensures Recur(ro, n, gamma, lam, t, ValueRow(ro, n, t + 1), AdvantageRow(ro, n, gamma, lam, t + 1))
            == AdvantageRow(ro, n, gamma, lam, t)
  {
    var left := Recur(ro, n, gamma, lam, t, ValueRow(ro, n, t + 1), AdvantageRow(ro, n, gamma, lam, t + 1));
    forall i | 0 <= i < n ensures left[i] == Advantage(ro, n, gamma, lam, t, i) {
      assert ValueRow(ro, n, t + 1)[i] == ValueAt(ro, n, t + 1, i);
      assert AdvantageRow(ro, n, gamma, lam, t + 1)[i] == Advantage(ro, n, gamma, lam, t + 1, i);
    }
    assert left == AdvantageRow(ro, n, gamma, lam, t);
  }

  /** The football loop multiplies the mask last; the row is the same. */
  function FootballRecur(ro: Rollout, n: nat, gamma: real, lam: real, t: nat, lastValue: Vector, lastAdv: Vector): (v: Vector)
    requires Rectangular(ro, n) && t < |ro.rewards| && |lastValue| == |lastAdv| == n
    ensures v == Recur(ro, n, gamma, lam, t, lastValue, lastAdv)
  {
    var row := seq(n, i requires 0 <= i < n =>
      var mask := Mask(ro.dones[t][i]);
      var delta := ro.rewards[t][i] + gamma * lastValue[i] * mask - ro.values[t][i];
      delta + gamma * lam * lastAdv[i] * mask);
    assert forall i :: 0 <= i < n ==>
      gamma * lam * lastAdv[i] * Mask(ro.dones[t][i]) == gamma * lam * Mask(ro.dones[t][i]) * lastAdv[i];
    row
  }

  // ----- The three loops -----

  /** Rows `t` and later hold advantages and returns. */
  predicate Filled(ro: Rollout, n: nat, gamma: real, lam: real, t: nat, advantages: seq<Vector>, returns_: seq<Vector>)
    requires Rectangular(ro, n)
  {
    && |advantages| == |returns_| == |ro.rewards|
    && forall u :: t <= u < |ro.rewards| ==>
         && advantages[u] == AdvantageRow(ro, n, gamma, lam, u)
         && returns_[u] == Plus(AdvantageRow(ro, n, gamma, lam, u), ro.values[u])
  }

  /** dm-control: returns advantage plus value. */
  method GaeReturns(ro: Rollout, n: nat, gamma: real, lam: real) returns (returns_: seq<Vector>)
    requires Rectangular(ro, n)
    ensures |returns_| == |ro.rewards|
    ensures forall t :: 0 <= t < |ro.rewards| ==>
      returns_[t] == Plus(AdvantageRow(ro, n, gamma, lam, t), ro.values[t])
  {
    var steps := |ro.rewards|;
    var adv := seq(steps, _ => Zeros(n));
    var lastGae, nextValue := Zeros(n), Zeros(n);
    assert lastGae == AdvantageRow(ro, n, gamma, lam, steps);
    for t := steps downto 0
      invariant |adv| == steps
      invariant lastGae == AdvantageRow(ro, n, gamma, lam, t) && nextValue == ValueRow(ro, n, t)
      invariant forall u :: t <= u < steps ==> adv[u] == AdvantageRow(ro, n, gamma, lam, u)
      invariant forall u :: 0 <= u < t ==> adv[u] == Zeros(n)
    {
      RecurGivesRow(ro, n, gamma, lam, t);
      lastGae := Recur(ro, n, gamma, lam, t, nextValue, lastGae);
      adv := adv[t := lastGae];
      nextValue := ro.values[t];
    }
    returns_ := seq(steps, t requires 0 <= t < steps && |adv[t]| == |ro.values[t]| => Plus(adv[t], ro.values[t]));
  }

  /** microduck-football: fills two arrays, carrying the last value. */
  method FootballGae(ro: Rollout, n: nat, gamma: real, lam: real)
    returns (advantages: array<Vector>, returns_: array<Vector>)
    requires Rectangular(ro, n)
    ensures Filled(ro, n, gamma, lam, 0, advantages[..], returns_[..])
  {
    var steps := |ro.rewards|;
    advantages := new Vector[steps](_ => Zeros(n));
    returns_ := new Vector[steps](_ => Zeros(n));
    var lastAdv, lastValue := Zeros(n), Zeros(n);
    assert lastAdv == AdvantageRow(ro, n, gamma, lam, steps);
    for t := steps downto 0
      invariant lastAdv == AdvantageRow(ro, n, gamma, lam, t) && lastValue == ValueRow(ro, n, t)
      invariant Filled(ro, n, gamma, lam, t, advantages[..], returns_[..])
    {
      RecurGivesRow(ro, n, gamma, lam, t);
      lastAdv := FootballRecur(ro, n, gamma, lam, t, lastValue, lastAdv);
      advantages[t] := lastAdv;
      returns_[t] := Plus(advantages[t], ro.values[t]);
      lastValue := ro.values[t];
    }
  }

  /** microduck-recurrent: looks the next value up instead of carrying it. */
  method RecurrentGae(ro: Rollout, n: nat, gamma: real, lam: real)
    returns (advantages: array<Vector>, returns_: array<Vector>)
    requires Rectangular(ro, n)
    ensures Filled(ro, n, gamma, lam, 0, advantages[..], returns_[..])
  {
    var steps := |ro.rewards|;
    advantages := new Vector[steps](_ => Zeros(n));
    returns_ := new Vector[steps](_ => Zeros(n));
    var lastAdv := Zeros(n);
    assert lastAdv == AdvantageRow(ro, n, gamma, lam, steps);
    hide AdvantageRow, Recur, Zeros, Plus;
    for t := steps downto 0
      invariant lastAdv == AdvantageRow(ro, n, gamma, lam, t)
      invariant Filled(ro, n, gamma, lam, t, advantages[..], returns_[..])
    {
      var nextValue := if t + 1 < steps then ro.values[t + 1] else Zeros(n);
      RecurGivesRow(ro, n, gamma, lam, t);
      lastAdv := Recur(ro, n, gamma, lam, t, nextValue, lastAdv);
      advantages[t] := lastAdv;
      returns_[t] := Plus(advantages[t], ro.values[t]);
    }
  }

  // ----- The forward meaning -----

  /** One past the first done at or after `t`, or the rollout end. */
  function SegmentEnd(ro: Rollout, n: nat, t: nat, i: nat): (e: nat)
    requires Rectangular(ro, n) && t < |ro.rewards| && i < n
    ensures t < e <= |ro.rewards|
    ensures forall u :: t <= u < e - 1 ==> !ro.dones[u][i]
    ensures e < |ro.rewards| ==> ro.dones[e - 1][i]
    decreases |ro.rewards| - t
  {
    if ro.dones[t][i] || t + 1 == |ro.rewards| then t + 1 else SegmentEnd(ro, n, t + 1, i)
  }

  function Power(c: real, l: nat): real {
    if l == 0 then 1.0 else c * Power(c, l - 1)
  }

  /** The sum of `c^m * xs[m]` over the first `l` terms. */
  function PowerSum(c: real, xs: Vector, l: nat): real
    requires l <= |xs|
  {
    if l == 0 then 0.0 else PowerSum(c, xs, l - 1) + Power(c, l - 1) * xs[l - 1]
  }

  lemma {:induction false} PowerSumHorner(c: real, xs: Vector, l: nat)
    requires 0 < l <= |xs|
    ensures PowerSum(c, xs, l) == xs[0] + c * PowerSum(c, xs[1..], l - 1)
  {
    if l == 1 {
      assert Power(c, 0) == 1.0 && PowerSum(c, xs, 0) == 0.0;
    } else {
      PowerSumHorner(c, xs, l - 1);
      var rest := PowerSum(c, xs[1..], l - 2);
      assert PowerSum(c, xs[1..], l - 1) == rest + Power(c, l - 2) * xs[l - 1];
      HornerStep(c, rest, Power(c, l - 2), xs[l - 1]);
    }
  }

  lemma HornerStep(c: real, rest: real, p: real, x: real)
    ensures c * rest + (c * p) * x == c * (rest + p * x)
  {
  }

  function Discounted(c: real, xs: Vector): real {
    PowerSum(c, xs, |xs|)
  }

  lemma DiscountedCons(c: real, x: real, xs: Vector)
    ensures Discounted(c, [x] + xs) == x + c * Discounted(c, xs)
    ensures Discounted(c, []) == 0.0
  {
    var all := [x] + xs;
    PowerSumHorner(c, all, |all|);
    assert all[1..] == xs;
  }

  /** The temporal differences of the segment that starts at `t`. */
  function SegmentDeltas(ro: Rollout, n: nat, gamma: real, t: nat, i: nat): (xs: Vector)
    requires Rectangular(ro, n) && t < |ro.rewards| && i < n
    ensures |xs| == SegmentEnd(ro, n, t, i) - t
  {
    var e := SegmentEnd(ro, n, t, i);
    seq(e - t, l requires 0 <= l < e - t => Delta(ro, n, gamma, t + l, i))
  }

  lemma SegmentDeltasCons(ro: Rollout, n: nat, gamma: real, t: nat, i: nat)
    requires Rectangular(ro, n) && t < |ro.rewards| && i < n
    ensures SegmentDeltas(ro, n, gamma, t, i) == [Delta(ro, n, gamma, t, i)] +
      if ro.dones[t][i] || t + 1 == |ro.rewards| then [] else SegmentDeltas(ro, n, gamma, t + 1, i)
  {
  }

  lemma AdvantageUnfolds(ro: Rollout, n: nat, gamma: real, lam: real, t: nat, i: nat)
    requires Rectangular(ro, n) && t < |ro.rewards| && i < n
    ensures Advantage(ro, n, gamma, lam, t, i) ==
      Delta(ro, n, gamma, t, i) + (gamma * lam) * if ro.dones[t][i] || t + 1 == |ro.rewards| then 0.0
                                                 else Advantage(ro, n, gamma, lam, t + 1, i)
  {
    var c, a := gamma * lam, Advantage(ro, n, gamma, lam, t + 1, i);
    assert c * 1.0 * a == c * a && c * 0.0 * a == c * 0.0;
  }

  /** The backward recurrence is the forward discounted sum up to the end of the segment. */
  lemma {:induction false} AdvantageIsForwardSum(ro: Rollout, n: nat, gamma: real, lam: real, t: nat, i: nat)
    requires Rectangular(ro, n) && t < |ro.rewards| && i < n
    ensures
      var xs := SegmentDeltas(ro, n, gamma, t, i);
      Advantage(ro, n, gamma, lam, t, i) == Discounted(gamma * lam, xs)
    decreases |ro.rewards| - t
  {
    var rest := if ro.dones[t][i] || t + 1 == |ro.rewards| then [] else SegmentDeltas(ro, n, gamma, t + 1, i);
    AdvantageUnfolds(ro, n, gamma, lam, t, i);
    DiscountedCons(gamma * lam, Delta(ro, n, gamma, t, i), rest);
    SegmentDeltasCons(ro, n, gamma, t, i);
    if !ro.dones[t][i] && t + 1 < |ro.rewards| {
      AdvantageIsForwardSum(ro, n, gamma, lam, t + 1, i);
    }
  }

  /** The two rollouts agree on column `i` from `t` to the end of the segment there. */
  predicate SameSegment(a: Rollout, b: Rollout, n: nat, t: nat, i: nat)
    requires Rectangular(a, n) && Rectangular(b, n) && t < |a.rewards| == |b.rewards| && i < n
  {
    forall u :: t <= u < SegmentEnd(a, n, t, i) ==>
      a.rewards[u][i] == b.rewards[u][i] && a.values[u][i] == b.values[u][i] && a.dones[u][i] == b.dones[u][i]
  }

  /** Nothing after a done, and no other column, influences the rows before it. */
  lemma {:induction false} DoneSeparates(a: Rollout, b: Rollout, n: nat, gamma: real, lam: real, t: nat, i: nat)
    requires Rectangular(a, n) && Rectangular(b, n) && t < |a.rewards| == |b.rewards| && i < n
    requires SameSegment(a, b, n, t, i)
    ensures Advantage(a, n, gamma, lam, t, i) == Advantage(b, n, gamma, lam, t, i)
    decreases |a.rewards| - t
  {
    if !a.dones[t][i] && t + 1 < |a.rewards| {
      assert a.values[t + 1][i] == b.values[t + 1][i];
      DoneSeparates(a, b, n, gamma, lam, t + 1, i);
    }
  }

  function SegmentRewards(ro: Rollout, n: nat, t: nat, i: nat): (xs: Vector)
    requires Rectangular(ro, n) && t < |ro.rewards| && i < n
    ensures |xs| == SegmentEnd(ro, n, t, i) - t
  {
    var e := SegmentEnd(ro, n, t, i);
    seq(e - t, l requires 0 <= l < e - t => ro.rewards[t + l][i])
  }

  lemma SegmentRewardsCons(ro: Rollout, n: nat, t: nat, i: nat)
    requires Rectangular(ro, n) && t < |ro.rewards| && i < n
    ensures SegmentRewards(ro, n, t, i) == [ro.rewards[t][i]] +
      if ro.dones[t][i] || t + 1 == |ro.rewards| then [] else SegmentRewards(ro, n, t + 1, i)
  {
    var all := SegmentRewards(ro, n, t, i);
    assert all == [all[0]] + all[1..];
    if !ro.dones[t][i] && t + 1 < |ro.rewards| {
      assert SegmentEnd(ro, n, t, i) == SegmentEnd(ro, n, t + 1, i);
      hide SegmentEnd, Rectangular;
      assert all[1..] == SegmentRewards(ro, n, t + 1, i);
    }
  }

  lemma ReturnStep(r: real, v: real, gamma: real, done: bool, nextV: real, nextA: real)
    ensures
      var m := Mask(done);
      (r + gamma * nextV * m - v) + gamma * 1.0 * m * nextA + v == r + gamma * (if done then 0.0 else nextA + nextV)
  {
  }

  /** With `lam == 1` advantage plus value steps like a discounted reward sum. */
  lemma ReturnUnfolds(ro: Rollout, n: nat, gamma: real, t: nat, i: nat)
    requires Rectangular(ro, n) && t < |ro.rewards| && i < n
    ensures Advantage(ro, n, gamma, 1.0, t, i) + ro.values[t][i] ==
      ro.rewards[t][i] + gamma * if ro.dones[t][i] || t + 1 == |ro.rewards| then 0.0
                                 else Advantage(ro, n, gamma, 1.0, t + 1, i) + ro.values[t + 1][i]
  {
    ReturnStep(ro.rewards[t][i], ro.values[t][i], gamma, ro.dones[t][i],
               ValueAt(ro, n, t + 1, i), Advantage(ro, n, gamma, 1.0, t + 1, i));
  }

  /** With `lam == 1` the return is the discounted reward of the segment. */
  lemma {:induction false} MonteCarloReturn(ro: Rollout, n: nat, gamma: real, t: nat, i: nat)
    requires Rectangular(ro, n) && t < |ro.rewards| && i < n
    ensures
      var xs := SegmentRewards(ro, n, t, i);
      Advantage(ro, n, gamma, 1.0, t, i) + ro.values[t][i] == Discounted(gamma, xs)
    decreases |ro.rewards| - t
  {
    var rest := if ro.dones[t][i] || t + 1 == |ro.rewards| then [] else SegmentRewards(ro, n, t + 1, i);
    ReturnUnfolds(ro, n, gamma, t, i);
    DiscountedCons(gamma, ro.rewards[t][i], rest);
    SegmentRewardsCons(ro, n, t, i);
    if !ro.dones[t][i] && t + 1 < |ro.rewards| {
      MonteCarloReturn(ro, n, gamma, t + 1, i);
    }
  }
}
