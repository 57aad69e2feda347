/**
 Temporal ensembling: the stateless reference, the ring-buffer runtime and the fixed-window
 graph compute one function, and the runtime is safe under every schedule of pushes.
 */
module TemporalEnsemble {
  import opened Outcomes
  import opened RealFacts
  import opened RealVectors

  type Action = Vector
  type Chunk = seq<Action>

  predicate Shaped(k: nat, act: nat, c: Chunk) {
    |c| == k && forall i :: 0 <= i < k ==> |c[i]| == act
  }

  /** A chunk and the step it was pushed at. */
  datatype Issued = Issued(step: nat, chunk: Chunk)

  /** `age => exp(-m * age)`, of which only positivity matters. */
  ghost predicate Positive(weight: nat -> real) {
    forall age :: weight(age) > 0.0
  }

  predicate Covers(k: nat, act: nat, t: nat, e: Issued) {
    Shaped(k, act, e.chunk) && e.step <= t && t - e.step < k
  }

  predicate AllCover(k: nat, act: nat, t: nat, es: seq<Issued>) {
    forall i :: 0 <= i < |es| ==> Covers(k, act, t, es[i])
  }

  /** What the chunk says about step `t`. */
  function Opinion(k: nat, act: nat, t: nat, e: Issued): (a: Action)
    requires Covers(k, act, t, e)
    ensures |a| == act
  {
    e.chunk[t - e.step]
  }

  /** The weights of the first `n` entries. */
  function WeightSum(weight: nat -> real, k: nat, act: nat, t: nat, es: seq<Issued>, n: nat): real
    requires AllCover(k, act, t, es) && n <= |es|
  {
    if n == 0 then 0.0
    else WeightSum(weight, k, act, t, es, n - 1) + weight(t - es[n - 1].step)
  }

  function WeightedSum(weight: nat -> real, k: nat, act: nat, t: nat, es: seq<Issued>, n: nat): (a: Action)
    requires AllCover(k, act, t, es) && n <= |es|
    ensures |a| == act
  {
    if n == 0 then Zeros(act)
    else
      Plus(WeightedSum(weight, k, act, t, es, n - 1),
           Times(weight(t - es[n - 1].step), Opinion(k, act, t, es[n - 1])))
  }

  lemma {:induction false} WeightSumPositive(weight: nat -> real, k: nat, act: nat, t: nat, es: seq<Issued>, n: nat)
    requires Positive(weight) && AllCover(k, act, t, es) && n <= |es|
    ensures WeightSum(weight, k, act, t, es, n) >= 0.0
    ensures n > 0 ==> WeightSum(weight, k, act, t, es, n) > 0.0
  {
    if n > 0 {
      WeightSumPositive(weight, k, act, t, es, n - 1);
      assert weight(t - es[n - 1].step) > 0.0;
    }
  }

  /** The weighted average of the opinions about step `t`. */
  ghost function Blend(weight: nat -> real, k: nat, act: nat, t: nat, es: seq<Issued>): (a: Action)
    requires Positive(weight) && AllCover(k, act, t, es) && es != []
    ensures |a| == act
  {
    WeightSumPositive(weight, k, act, t, es, |es|);
    Over(WeightedSum(weight, k, act, t, es, |es|), WeightSum(weight, k, act, t, es, |es|))
  }

  // ----- Blending is a convex combination -----

  /** The average with weights normalised by `total` beforehand. */
  function ShareSum(weight: nat -> real, total: real, k: nat, act: nat, t: nat, es: seq<Issued>, n: nat): (a: Action)
    requires AllCover(k, act, t, es) && n <= |es| && total != 0.0
    ensures |a| == act
  {
    if n == 0 then Zeros(act)
    else
      Plus(ShareSum(weight, total, k, act, t, es, n - 1),
           Times(weight(t - es[n - 1].step) / total, Opinion(k, act, t, es[n - 1])))
  }

  lemma OverPlus(x: Vector, w: real, a: Vector, d: real)
    requires |x| == |a| && d != 0.0
    ensures Plus(Over(x, d), Times(w / d, a)) == Over(Plus(x, Times(w, a)), d)
  {
    var left, right := Plus(Over(x, d), Times(w / d, a)), Over(Plus(x, Times(w, a)), d);
    forall j | 0 <= j < |x| ensures left[j] == right[j] {
      ScaledQuotient(w, d, a[j]);
      SumOfQuotients(x[j], w * a[j], d);
    }
    assert left == right;
  }

  lemma {:induction false} ShareSumIsQuotient(weight: nat -> real, total: real, k: nat, act: nat, t: nat,
                                               es: seq<Issued>, n: nat)
    requires AllCover(k, act, t, es) && n <= |es| && total != 0.0
    ensures ShareSum(weight, total, k, act, t, es, n) == Over(WeightedSum(weight, k, act, t, es, n), total)
  {
    if n > 0 {
      ShareSumIsQuotient(weight, total, k, act, t, es, n - 1);
      OverPlus(WeightedSum(weight, k, act, t, es, n - 1), weight(t - es[n - 1].step), Opinion(k, act, t, es[n - 1]), total);
    }
  }

  function ShareTotal(weight: nat -> real, total: real, k: nat, act: nat, t: nat, es: seq<Issued>, n: nat): real
    requires AllCover(k, act, t, es) && n <= |es| && total != 0.0
  {
    if n == 0 then 0.0
    else ShareTotal(weight, total, k, act, t, es, n - 1) + weight(t - es[n - 1].step) / total
  }

  lemma {:induction false} ShareTotalIsQuotient(weight: nat -> real, total: real, k: nat, act: nat, t: nat,
                                                 es: seq<Issued>, n: nat)
    requires AllCover(k, act, t, es) && n <= |es| && total != 0.0
    ensures ShareTotal(weight, total, k, act, t, es, n) == WeightSum(weight, k, act, t, es, n) / total
  {
    if n > 0 {
      ShareTotalIsQuotient(weight, total, k, act, t, es, n - 1);
      SumOfQuotients(WeightSum(weight, k, act, t, es, n - 1), weight(t - es[n - 1].step), total);
    }
  }

  /** A blend is a sum of opinions with positive shares that add up to one. */
  lemma BlendIsConvex(weight: nat -> real, k: nat, act: nat, t: nat, es: seq<Issued>)
    requires Positive(weight) && AllCover(k, act, t, es) && es != []
    ensures
      var total := WeightSum(weight, k, act, t, es, |es|);
      && total > 0.0
      && Blend(weight, k, act, t, es) == ShareSum(weight, total, k, act, t, es, |es|)
      && ShareTotal(weight, total, k, act, t, es, |es|) == 1.0
      && forall i :: 0 <= i < |es| ==> weight(t - es[i].step) / total > 0.0
  {
    WeightSumPositive(weight, k, act, t, es, |es|);
    var total := WeightSum(weight, k, act, t, es, |es|);
    ShareSumIsQuotient(weight, total, k, act, t, es, |es|);
    ShareTotalIsQuotient(weight, total, k, act, t, es, |es|);
    QuotientUnique(total, total, 1.0);
    forall i | 0 <= i < |es| ensures weight(t - es[i].step) / total > 0.0 {
      assert weight(t - es[i].step) > 0.0;
    }
  }

  predicate Within(k: nat, act: nat, t: nat, es: seq<Issued>, j: nat, lo: real, hi: real)
    requires AllCover(k, act, t, es) && j < act
  {
    forall i :: 0 <= i < |es| ==> lo <= Opinion(k, act, t, es[i])[j] <= hi
  }

  predicate Averages(lo: real, total: real, sum: real, hi: real) {
    lo * total <= sum <= hi * total
  }

  lemma AddBounds(lo: real, total: real, sum: real, hi: real, w: real, x: real, total': real, sum': real)
    requires Averages(lo, total, sum, hi) && w > 0.0 && lo <= x <= hi && total' == total + w && sum' == sum + w * x
    ensures Averages(lo, total', sum', hi)
  {
    ScaleBounds(w, lo, x, hi);
    assert lo * (total + w) == lo * total + lo * w;
    assert hi * (total + w) == hi * total + hi * w;
  }

  lemma NothingAverages(lo: real, hi: real)
    ensures Averages(lo, 0.0, 0.0, hi)
  {
  }

  lemma SumsStep(weight: nat -> real, k: nat, act: nat, t: nat, es: seq<Issued>, n: nat, j: nat)
    requires AllCover(k, act, t, es) && 0 < n <= |es| && j < act
    ensures WeightedSum(weight, k, act, t, es, n)[j] ==
      WeightedSum(weight, k, act, t, es, n - 1)[j] + weight(t - es[n - 1].step) * Opinion(k, act, t, es[n - 1])[j]
    ensures WeightSum(weight, k, act, t, es, n) == WeightSum(weight, k, act, t, es, n - 1) + weight(t - es[n - 1].step)
  {
  }

  lemma {:induction false} WeightedSumWithin(weight: nat -> real, k: nat, act: nat, t: nat, es: seq<Issued>, n: nat,
                                              j: nat, lo: real, hi: real)
    requires Positive(weight) && AllCover(k, act, t, es) && n <= |es|
    requires j < act && Within(k, act, t, es, j, lo, hi)
    ensures Averages(lo, WeightSum(weight, k, act, t, es, n), WeightedSum(weight, k, act, t, es, n)[j], hi)
  {
    hide Averages;
    if n == 0 {
      NothingAverages(lo, hi);
    } else {
      WeightedSumWithin(weight, k, act, t, es, n - 1, j, lo, hi);
      SumsStep(weight, k, act, t, es, n, j);
      hide WeightSum, WeightedSum, Opinion;
      var total, sum := WeightSum(weight, k, act, t, es, n - 1), WeightedSum(weight, k, act, t, es, n - 1)[j];
      AddBounds(lo, total, sum, hi, weight(t - es[n - 1].step), Opinion(k, act, t, es[n - 1])[j],
                WeightSum(weight, k, act, t, es, n), WeightedSum(weight, k, act, t, es, n)[j]);
    }
  }

  /** A blend stays within whatever bounds its opinions keep, [-1, 1] among them. */
  lemma BlendWithin(weight: nat -> real, k: nat, act: nat, t: nat, es: seq<Issued>, j: nat, lo: real, hi: real)
    requires Positive(weight) && AllCover(k, act, t, es) && es != []
    requires j < act && Within(k, act, t, es, j, lo, hi)
    ensures lo <= Blend(weight, k, act, t, es)[j] <= hi
  {
    WeightSumPositive(weight, k, act, t, es, |es|);
    WeightedSumWithin(weight, k, act, t, es, |es|, j, lo, hi);
    QuotientWithin(lo, WeightedSum(weight, k, act, t, es, |es|)[j], hi, WeightSum(weight, k, act, t, es, |es|));
  }

  // ----- The reference -----

  /** The chunks issued at steps `lo` to `hi - 1`. */
  function Issues(chunks: seq<Chunk>, lo: nat, hi: nat): (es: seq<Issued>)
    requires lo <= hi <= |chunks|
    ensures |es| == hi - lo && forall i :: 0 <= i < |es| ==> es[i] == Issued(lo + i, chunks[lo + i])
  {
    seq(hi - lo, i requires 0 <= i < hi - lo => Issued(lo + i, chunks[lo + i]))
  }

  function First(k: nat, t: nat): nat {
    if t + 1 >= k then t + 1 - k else 0
  }

  predicate AllShaped(k: nat, act: nat, chunks: seq<Chunk>) {
    forall s :: 0 <= s < |chunks| ==> Shaped(k, act, chunks[s])
  }

  /** Row `t` of `ensemble_predictions`: the average of the opinions of the last `k` chunks. */
  ghost function Row(weight: nat -> real, k: nat, act: nat, chunks: seq<Chunk>, t: nat): (a: Action)
    requires Positive(weight) && AllShaped(k, act, chunks) && t < |chunks| && k > 0
    ensures |a| == act
  {
    Blend(weight, k, act, t, Issues(chunks, First(k, t), t + 1))
  }

  method EnsemblePredictions(chunks: seq<Chunk>, k: nat, act: nat, weight: nat -> real) returns (out: seq<Action>)
    requires Positive(weight) && AllShaped(k, act, chunks)
    ensures |out| == |chunks|
    ensures forall t :: 0 <= t < |chunks| ==>
      out[t] == if k == 0 then Zeros(act) else Row(weight, k, act, chunks, t)
  {
    out := seq(|chunks|, _ => Zeros(act));
    for t := 0 to |chunks|
      invariant |out| == |chunks|
      invariant forall u :: 0 <= u < t ==>
        out[u] == if k == 0 then Zeros(act) else Row(weight, k, act, chunks, u)
      invariant forall u :: t <= u < |chunks| ==> out[u] == Zeros(act)
    {
      var row := BlendRow(chunks, k, act, weight, t);
      out := out[t := row];
    }
  }

  /** One pass of the outer loop: normalise the weights, then accumulate. */
  method BlendRow(chunks: seq<Chunk>, k: nat, act: nat, weight: nat -> real, t: nat) returns (row: Action)
    requires Positive(weight) && AllShaped(k, act, chunks) && t < |chunks|
    ensures row == if k == 0 then Zeros(act) else Row(weight, k, act, chunks, t)
  {
    var es := Issues(chunks, First(k, t), t + 1);
    if k == 0 { return Zeros(act); }
    BlendIsConvex(weight, k, act, t, es);
    row := AddShares(weight, WeightSum(weight, k, act, t, es, |es|), k, act, t, es);
  }

  method AddShares(weight: nat -> real, total: real, k: nat, act: nat, t: nat, es: seq<Issued>) returns (row: Action)
    requires AllCover(k, act, t, es) && total != 0.0
    ensures row == ShareSum(weight, total, k, act, t, es, |es|)
  {
    row := Zeros(act);
    for offset := 0 to |es|
      invariant row == ShareSum(weight, total, k, act, t, es, offset)
    {
      var age := t - es[offset].step;
      row := Plus(row, Times(weight(age) / total, es[offset].chunk[age]));
    }
  }

  // ----- The runtime, as a state machine -----

  datatype State = State(ring: seq<Issued>, t: nat)

  const START := State([], 0)

  function Pushed(k: nat, st: State, c: Chunk): State {
    var ring := st.ring + [Issued(st.t, c)];
    st.(ring := if |ring| > k then ring[1..] else ring)
  }

  /** The entries whose horizon still covers step `t`. */
  function Live(k: nat, t: nat, ring: seq<Issued>): seq<Issued> {
    if ring == [] then []
    else
      var rest := Live(k, t, ring[1..]);
      if ring[0].step <= t && t - ring[0].step < k then [ring[0]] + rest else rest
  }

  function Stepped(k: nat, st: State): State {
    var live := Live(k, st.t, st.ring);
    State(live, if live == [] then st.t else st.t + 1)
  }

  predicate ShapedRing(k: nat, act: nat, ring: seq<Issued>) {
    forall i :: 0 <= i < |ring| ==> Shaped(k, act, ring[i].chunk)
  }

  lemma {:induction false} LiveCovers(k: nat, act: nat, t: nat, ring: seq<Issued>)
    requires ShapedRing(k, act, ring)
    ensures AllCover(k, act, t, Live(k, t, ring)) && ShapedRing(k, act, Live(k, t, ring))
    ensures |Live(k, t, ring)| <= |ring|
  {
    if ring != [] { LiveCovers(k, act, t, ring[1..]); }
  }

  /** `None` is the exception for a step that no chunk covers. */
  ghost function Output(weight: nat -> real, k: nat, act: nat, st: State): Option<Action>
    requires Positive(weight) && ShapedRing(k, act, st.ring)
  {
    LiveCovers(k, act, st.t, st.ring);
    var live := Live(k, st.t, st.ring);
    if live == [] then None else Some(Blend(weight, k, act, st.t, live))
  }

  class IncrementalEnsembler {
    const k: nat
    const act: nat
    const weight: nat -> real
    var ring: seq<Issued>
    var t: nat

    ghost predicate Valid()
      reads this
    {
      k > 0 && Positive(weight) && |ring| <= k && ShapedRing(k, act, ring)
    }

    function Current(): State
      reads this
    {
      State(ring, t)
    }

    constructor (k: nat, act: nat, weight: nat -> real)
      requires k > 0 && Positive(weight)
      ensures Valid() && Current() == START
      ensures this.k == k && this.act == act && this.weight == weight
    {
      this.k, this.act, this.weight := k, act, weight;
      ring, t := [], 0;
    }

    /** A chunk of the wrong shape is refused and changes nothing. */
    method Push(c: Chunk) returns (ok: bool)
      requires Valid()
      modifies this`ring
      ensures Valid()
      ensures ok == Shaped(k, act, c)
      ensures Current() == if ok then Pushed(k, old(Current()), c) else old(Current())
    {
      ok := Shaped(k, act, c);
      if !ok { return; }
      ring := ring + [Issued(t, c)];
      if |ring| > k {
        ring := ring[1..];
      }
    }

    method Step() returns (action: Option<Action>)
      requires Valid()
      modifies this
      ensures Valid()
      ensures action == Output(weight, k, act, old(Current()))
      ensures Current() == Stepped(k, old(Current()))
    {
      LiveCovers(k, act, t, ring);
      ring := Live(k, t, ring);
      if ring == [] {
        return None;
      }
      WeightSumPositive(weight, k, act, t, ring, |ring|);
      var blended, weightSum := Zeros(act), 0.0;
      var i := 0;
      while i < |ring|
        invariant 0 <= i <= |ring|
        invariant weightSum == WeightSum(weight, k, act, t, ring, i)
        invariant blended == WeightedSum(weight, k, act, t, ring, i)
      {
        var age := t - ring[i].step;
        blended := Plus(blended, Times(weight(age), ring[i].chunk[age]));
        weightSum := weightSum + weight(age);
        i := i + 1;
      }
      t := t + 1;
      return Some(Over(blended, weightSum));
    }
  }

  method NewEnsembler(chunk: int, act: nat, weight: nat -> real) returns (e: Option<IncrementalEnsembler>)
    requires Positive(weight)
    ensures e.None? <==> chunk <= 0
    ensures e.Some? ==> fresh(e.value) && e.value.Valid() && e.value.Current() == START && e.value.k == chunk
  {
    if chunk <= 0 { return None; }
    var made := new IncrementalEnsembler(chunk, act, weight);
    return Some(made);
  }

  // ----- Pushing before every step -----

  predicate Recent(k: nat, t: nat, e: Issued) {
    e.step <= t && t - e.step < k
  }

  lemma {:induction false} AllAlive(k: nat, t: nat, ring: seq<Issued>)
    requires forall i :: 0 <= i < |ring| ==> Recent(k, t, ring[i])
    ensures Live(k, t, ring) == ring
  {
    if ring != [] {
      assert forall i :: 0 <= i < |ring[1..]| ==> ring[1..][i] == ring[i + 1];
      AllAlive(k, t, ring[1..]);
    }
  }

  /** The state after `n` rounds of one push and one step. */
  function FullRate(k: nat, chunks: seq<Chunk>, n: nat): State
    requires n <= |chunks|
  {
    if n == 0 then START else Stepped(k, Pushed(k, FullRate(k, chunks, n - 1), chunks[n - 1]))
  }

  lemma {:induction false} FullRateKeepsLast(k: nat, act: nat, chunks: seq<Chunk>, n: nat)
    requires k > 0 && AllShaped(k, act, chunks) && n <= |chunks|
    ensures FullRate(k, chunks, n) == State(Issues(chunks, if n >= k then n - k else 0, n), n)
  {
    hide Live, Pushed, AllCover, AllShaped;
    if n > 0 {
      FullRateKeepsLast(k, act, chunks, n - 1);
      PushKeepsWindow(k, act, chunks, n - 1);
    }
  }

  /** After the push of round `t` the ring holds exactly the chunks the reference averages. */
  lemma PushKeepsWindow(k: nat, act: nat, chunks: seq<Chunk>, t: nat)
    requires k > 0 && AllShaped(k, act, chunks) && t < |chunks|
    requires FullRate(k, chunks, t) == State(Issues(chunks, if t >= k then t - k else 0, t), t)
    ensures Pushed(k, FullRate(k, chunks, t), chunks[t]) == State(Issues(chunks, First(k, t), t + 1), t)
    ensures AllCover(k, act, t, Issues(chunks, First(k, t), t + 1))
    ensures Live(k, t, Issues(chunks, First(k, t), t + 1)) == Issues(chunks, First(k, t), t + 1)
  {
    WindowGrows(k, chunks, t);
    WindowCovers(k, act, chunks, t);
    hide Live, AllCover, Shaped, AllShaped, FullRate;
    AllAlive(k, t, Issues(chunks, First(k, t), t + 1));
  }

  lemma WindowCovers(k: nat, act: nat, chunks: seq<Chunk>, t: nat)
    requires k > 0 && AllShaped(k, act, chunks) && t < |chunks|
    ensures AllCover(k, act, t, Issues(chunks, First(k, t), t + 1))
  {
    hide Shaped;
  }

  lemma WindowGrows(k: nat, chunks: seq<Chunk>, t: nat)
    requires k > 0 && t < |chunks|
    ensures
      var from := if t >= k then t - k else 0;
      var ring := Issues(chunks, from, t) + [Issued(t, chunks[t])];
      (if |ring| > k then ring[1..] else ring) == Issues(chunks, First(k, t), t + 1)
  {
  }

  /** The runtime, pushed before every step, yields the reference row for row. */
  lemma FullRateIsReference(weight: nat -> real, k: nat, act: nat, chunks: seq<Chunk>, t: nat)
    requires Positive(weight) && k > 0 && AllShaped(k, act, chunks) && t < |chunks|
    ensures
      var st := Pushed(k, FullRate(k, chunks, t), chunks[t]);
      ShapedRing(k, act, st.ring) && Output(weight, k, act, st) == Some(Row(weight, k, act, chunks, t))
  {
    FullRateKeepsLast(k, act, chunks, t);
    PushKeepsWindow(k, act, chunks, t);
  }

  // ----- Any schedule of pushes and steps -----

  datatype Call = Push(chunk: Chunk) | Step

  /** The runtime's state, with every push so far on record. */
  datatype Trace = Trace(state: State, pushes: seq<Issued>)

  function After(k: nat, tr: Trace, c: Call): Trace {
    match c
    case Push(chunk) => Trace(Pushed(k, tr.state, chunk), tr.pushes + [Issued(tr.state.t, chunk)])
    case Step => tr.(state := Stepped(k, tr.state))
  }

  function Run(k: nat, calls: seq<Call>): Trace {
    if calls == [] then Trace(START, []) else After(k, Run(k, calls[..|calls| - 1]), calls[|calls| - 1])
  }

  predicate IsSuffix(end: seq<Issued>, all: seq<Issued>) {
    |end| <= |all| && forall i :: 0 <= i < |end| ==> end[i] == all[|all| - |end| + i]
  }

  /** The ring is the end of the record, and it is not empty while the last push is recent. */
  predicate Traced(k: nat, act: nat, tr: Trace) {
    var ring, pushes := tr.state.ring, tr.pushes;
    && |ring| <= k && IsSuffix(ring, pushes)
    && ShapedRing(k, act, pushes)
    && (forall i :: 0 <= i < |pushes| ==> pushes[i].step <= tr.state.t)
    && InOrder(pushes)
    && (pushes != [] && Recent(k, tr.state.t, pushes[|pushes| - 1]) ==> ring != [])
  }

  predicate InOrder(es: seq<Issued>) {
    forall i, j :: 0 <= i < j < |es| ==> es[i].step <= es[j].step
  }

  lemma SuffixOfTail(end: seq<Issued>, all: seq<Issued>)
    requires all != [] && IsSuffix(end, all[1..])
    ensures IsSuffix(end, all)
  {
  }

  lemma SuffixGrows(end: seq<Issued>, all: seq<Issued>, e: Issued)
    requires IsSuffix(end, all)
    ensures IsSuffix(end + [e], all + [e])
    ensures end != [] ==> IsSuffix((end + [e])[1..], all + [e])
  {
  }

  /** Entries leave in the order they came: the live ones are the end of the ring. */
  lemma {:induction false} LiveIsSuffix(k: nat, t: nat, ring: seq<Issued>)
    requires InOrder(ring) && forall i :: 0 <= i < |ring| ==> ring[i].step <= t
    ensures IsSuffix(Live(k, t, ring), ring)
    ensures Live(k, t, ring) == [] <==> forall i :: 0 <= i < |ring| ==> !Recent(k, t, ring[i])
  {
    if ring == [] {
    } else if Recent(k, t, ring[0]) {
      AllAlive(k, t, ring);
    } else {
      assert forall i :: 0 <= i < |ring[1..]| ==> ring[1..][i] == ring[i + 1];
      LiveIsSuffix(k, t, ring[1..]);
      SuffixOfTail(Live(k, t, ring), ring);
      assert forall i :: 0 < i < |ring| ==> ring[i] == ring[1..][i - 1];
    }
  }

  lemma PushTraced(k: nat, act: nat, tr: Trace, c: Chunk)
    requires k > 0 && Traced(k, act, tr) && Shaped(k, act, c)
    ensures Traced(k, act, After(k, tr, Push(c)))
  {
    var e := Issued(tr.state.t, c);
    SuffixGrows(tr.state.ring, tr.pushes, e);
    RecordGrows(k, act, tr.pushes, e);
  }

  lemma RecordGrows(k: nat, act: nat, pushes: seq<Issued>, e: Issued)
    requires InOrder(pushes) && ShapedRing(k, act, pushes) && Shaped(k, act, e.chunk)
    requires forall i :: 0 <= i < |pushes| ==> pushes[i].step <= e.step
    ensures InOrder(pushes + [e]) && ShapedRing(k, act, pushes + [e])
    ensures forall i :: 0 <= i < |pushes + [e]| ==> (pushes + [e])[i].step <= e.step
  {
    var all := pushes + [e];
    forall i | 0 <= i < |all| ensures all[i].step <= e.step && Shaped(k, act, all[i].chunk) {
      if i < |pushes| { assert all[i] == pushes[i]; }
    }
    forall i, j | 0 <= i < j < |all| ensures all[i].step <= all[j].step {
      if j < |pushes| { assert all[i] == pushes[i] && all[j] == pushes[j]; }
    }
  }

  /** What a step averages, in terms of the record of pushes. */
  lemma LiveFromRecord(k: nat, act: nat, tr: Trace)
    requires k > 0 && Traced(k, act, tr)
    ensures
      var live := Live(k, tr.state.t, tr.state.ring);
      && IsSuffix(live, tr.pushes) && |live| <= k
      && ShapedRing(k, act, tr.state.ring) && AllCover(k, act, tr.state.t, live)
      && (live == [] <==> forall i :: 0 <= i < |tr.pushes| ==> !Recent(k, tr.state.t, tr.pushes[i]))
  {
    hide Live, Shaped;
    var ring, pushes, t := tr.state.ring, tr.pushes, tr.state.t;
    LiveIsSuffix(k, t, ring);
    LiveCovers(k, act, t, ring);
    var live := Live(k, t, ring);
    if live != [] {
      assert Covers(k, act, t, live[0]);
      assert Recent(k, t, pushes[|pushes| - |live|]);
    } else if pushes != [] {
      var last := |pushes| - 1;
      assert !Recent(k, t, pushes[last]) by {
        if ring != [] { assert ring[|ring| - 1] == pushes[last]; }
      }
      forall i | 0 <= i < |pushes| ensures !Recent(k, t, pushes[i]) {
        assert i < last ==> pushes[i].step <= pushes[last].step;
      }
    }
  }

  lemma StepTraced(k: nat, act: nat, tr: Trace)
    requires k > 0 && Traced(k, act, tr)
    ensures Traced(k, act, After(k, tr, Step))
  {
    LiveFromRecord(k, act, tr);
    var pushes := tr.pushes;
    if pushes != [] && Recent(k, Stepped(k, tr.state).t, pushes[|pushes| - 1]) {
      assert Recent(k, tr.state.t, pushes[|pushes| - 1]);
    }
  }

  predicate AllCallsShaped(k: nat, act: nat, calls: seq<Call>) {
    forall i :: 0 <= i < |calls| && calls[i].Push? ==> Shaped(k, act, calls[i].chunk)
  }

  lemma {:induction false} RunTraced(k: nat, act: nat, calls: seq<Call>)
    requires k > 0 && AllCallsShaped(k, act, calls)
    ensures Traced(k, act, Run(k, calls))
  {
    if calls != [] {
      RunTraced(k, act, calls[..|calls| - 1]);
      match calls[|calls| - 1]
      case Push(c) => PushTraced(k, act, Run(k, calls[..|calls| - 1]), c);
      case Step => StepTraced(k, act, Run(k, calls[..|calls| - 1]));
    }
  }

  /** After any schedule the ring is bounded, and a step fails exactly when no push is recent. */
  lemma AnyScheduleIsSafe(weight: nat -> real, k: nat, act: nat, calls: seq<Call>)
    requires Positive(weight) && k > 0 && AllCallsShaped(k, act, calls)
    ensures
      var tr := Run(k, calls);
      && |tr.state.ring| <= k && ShapedRing(k, act, tr.state.ring)
      && (Output(weight, k, act, tr.state).None? <==>
          forall i :: 0 <= i < |tr.pushes| ==> !Recent(k, tr.state.t, tr.pushes[i]))
  {
    RunTraced(k, act, calls);
    LiveFromRecord(k, act, Run(k, calls));
  }

  /** Every recent chunk of the right shape has coordinate `j` of its opinion between the bounds. */
  predicate PushesWithin(k: nat, act: nat, tr: Trace, j: nat, lo: real, hi: real)
    requires j < act
  {
    forall i :: 0 <= i < |tr.pushes| && Covers(k, act, tr.state.t, tr.pushes[i]) ==>
      lo <= Opinion(k, act, tr.state.t, tr.pushes[i])[j] <= hi
  }

  /** Each output of any schedule averages recent pushes and keeps any bounds they keep. */
  lemma AnyScheduleStaysWithin(weight: nat -> real, k: nat, act: nat, calls: seq<Call>, j: nat, lo: real, hi: real)
    requires Positive(weight) && k > 0 && AllCallsShaped(k, act, calls) && j < act
    requires PushesWithin(k, act, Run(k, calls), j, lo, hi)
    ensures ShapedRing(k, act, Run(k, calls).state.ring)
    ensures
      var action := Output(weight, k, act, Run(k, calls).state);
      action.Some? ==> lo <= action.value[j] <= hi
  {
    RunTraced(k, act, calls);
    LiveFromRecord(k, act, Run(k, calls));
    LiveWithin(weight, k, act, Run(k, calls), j, lo, hi);
  }

  lemma LiveWithin(weight: nat -> real, k: nat, act: nat, tr: Trace, j: nat, lo: real, hi: real)
    requires Positive(weight) && j < act && ShapedRing(k, act, tr.state.ring)
    requires AllCover(k, act, tr.state.t, Live(k, tr.state.t, tr.state.ring))
    requires IsSuffix(Live(k, tr.state.t, tr.state.ring), tr.pushes)
    requires PushesWithin(k, act, tr, j, lo, hi)
    ensures Output(weight, k, act, tr.state).Some? ==> lo <= Output(weight, k, act, tr.state).value[j] <= hi
  {
    var live, t := Live(k, tr.state.t, tr.state.ring), tr.state.t;
    if live != [] {
      forall i | 0 <= i < |live| ensures lo <= Opinion(k, act, t, live[i])[j] <= hi {
        assert Covers(k, act, t, live[i]);
        assert live[i] == tr.pushes[|tr.pushes| - |live| + i];
      }
      BlendWithin(weight, k, act, t, live, j, lo, hi);
    }
  }

  // ----- Pushing every k steps -----

  lemma SingleOpinion(weight: nat -> real, k: nat, act: nat, t: nat, e: Issued)
    requires Positive(weight) && Covers(k, act, t, e)
    ensures Blend(weight, k, act, t, [e]) == Opinion(k, act, t, e)
  {
    var w, a := weight(t - e.step), Opinion(k, act, t, e);
    WeightSumPositive(weight, k, act, t, [e], 1);
    var blend := Blend(weight, k, act, t, [e]);
    assert WeightSum(weight, k, act, t, [e], 0) == 0.0;
    assert WeightedSum(weight, k, act, t, [e], 0) == Zeros(act);
    forall j | 0 <= j < act ensures blend[j] == a[j] {
      SumsStep(weight, k, act, t, [e], 1, j);
      hide WeightSum, WeightedSum, Opinion;
      QuotientUnique(w * a[j], w, a[j]);
    }
    assert blend == a;
  }

  /** The state just before step `r` of round `q`, when round `q` starts with a push of chunk `q`. */
  function OpenLoop(k: nat, chunks: seq<Chunk>, q: nat, r: nat): State
    requires q < |chunks| && r < k
    decreases q, r
  {
    if r > 0 then Stepped(k, OpenLoop(k, chunks, q, r - 1))
    else if q > 0 then Pushed(k, Stepped(k, OpenLoop(k, chunks, q - 1, k - 1)), chunks[q])
    else Pushed(k, START, chunks[q])
  }

  lemma {:induction false} OpenLoopHoldsLatest(k: nat, chunks: seq<Chunk>, q: nat, r: nat)
    requires q < |chunks| && r < k
    ensures OpenLoop(k, chunks, q, r).t == q * k + r
    ensures Live(k, q * k + r, OpenLoop(k, chunks, q, r).ring) == [Issued(q * k, chunks[q])]
    decreases q, r
  {
    hide Live, Stepped, Pushed;
    if r > 0 {
      OpenLoopHoldsLatest(k, chunks, q, r - 1);
      StepHolds(k, OpenLoop(k, chunks, q, r - 1), Issued(q * k, chunks[q]));
    } else if q > 0 {
      OpenLoopHoldsLatest(k, chunks, q - 1, k - 1);
      assert (q - 1) * k + k == q * k;
      PushReplaces(k, OpenLoop(k, chunks, q - 1, k - 1), Issued((q - 1) * k, chunks[q - 1]), chunks[q]);
    } else {
      FirstPush(k, chunks[0]);
    }
  }

  lemma StepHolds(k: nat, st: State, latest: Issued)
    requires Live(k, st.t, st.ring) == [latest] && latest.step <= st.t < latest.step + k - 1
    ensures Stepped(k, st) == State([latest], st.t + 1) && Live(k, st.t + 1, [latest]) == [latest]
  {
    AllAlive(k, st.t + 1, [latest]);
  }

  lemma PushReplaces(k: nat, st: State, latest: Issued, c: Chunk)
    requires k > 0 && Live(k, st.t, st.ring) == [latest] && st.t + 1 == latest.step + k
    ensures
      var pushed := Pushed(k, Stepped(k, st), c);
      pushed.t == st.t + 1 && Live(k, st.t + 1, pushed.ring) == [Issued(st.t + 1, c)]
  {
    hide Live, Pushed;
    assert Stepped(k, st) == State([latest], st.t + 1);
    ReplacesExpired(k, st.t + 1, latest, c);
    PushKeepsTime(k, State([latest], st.t + 1), c);
  }

  lemma PushKeepsTime(k: nat, st: State, c: Chunk)
    ensures Pushed(k, st, c).t == st.t
  {
  }

  lemma FirstPush(k: nat, c: Chunk)
    requires k > 0
    ensures Pushed(k, START, c).t == 0 && Live(k, 0, Pushed(k, START, c).ring) == [Issued(0, c)]
  {
    assert Pushed(k, START, c).ring == [Issued(0, c)];
    AllAlive(k, 0, [Issued(0, c)]);
  }

  /** A chunk that is `k` steps old no longer counts beside a new one. */
  lemma ReplacesExpired(k: nat, t: nat, expired: Issued, c: Chunk)
    requires k > 0 && expired.step + k == t
    ensures
      var ring := Pushed(k, State([expired], t), c).ring;
      Live(k, t, ring) == [Issued(t, c)]
  {
    var latest := [Issued(t, c)];
    AllAlive(k, t, latest);
    var both := [expired] + latest;
    assert both[1..] == latest;
  }

  lemma {:induction false} OpenLoopShaped(k: nat, act: nat, chunks: seq<Chunk>, q: nat, r: nat)
    requires AllShaped(k, act, chunks) && q < |chunks| && r < k
    ensures ShapedRing(k, act, OpenLoop(k, chunks, q, r).ring)
    decreases q, r
  {
    if r > 0 {
      OpenLoopShaped(k, act, chunks, q, r - 1);
      var before := OpenLoop(k, chunks, q, r - 1);
      LiveCovers(k, act, before.t, before.ring);
    } else if q > 0 {
      OpenLoopShaped(k, act, chunks, q - 1, k - 1);
      var before := OpenLoop(k, chunks, q - 1, k - 1);
      LiveCovers(k, act, before.t, before.ring);
    }
  }

  /** Pushed every `k` steps, the runtime replays each chunk in order. */
  lemma OpenLoopReplays(weight: nat -> real, k: nat, act: nat, chunks: seq<Chunk>, q: nat, r: nat)
    requires Positive(weight) && AllShaped(k, act, chunks) && q < |chunks| && r < k
    ensures ShapedRing(k, act, OpenLoop(k, chunks, q, r).ring)
    ensures Output(weight, k, act, OpenLoop(k, chunks, q, r)) == Some(chunks[q][r])
  {
    OpenLoopShaped(k, act, chunks, q, r);
    OpenLoopHoldsLatest(k, chunks, q, r);
    SingleOpinion(weight, k, act, q * k + r, Issued(q * k, chunks[q]));
  }

  // ----- The fixed window in the exported graph -----

  /** The weights of the ages below `n`. */
  function AgeTotal(weight: nat -> real, n: nat): real {
    if n == 0 then 0.0 else AgeTotal(weight, n - 1) + weight(n - 1)
  }

  lemma {:induction false} AgesPositive(weight: nat -> real, n: nat)
    requires Positive(weight)
    ensures AgeTotal(weight, n) >= 0.0 && (n > 0 ==> AgeTotal(weight, n) > 0.0)
  {
    if n > 0 {
      AgesPositive(weight, n - 1);
      assert weight(n - 1) > 0.0;
    }
  }

  /** The buffer `blend_weights` at window position `p`, whose chunk is `k - 1 - p` steps old. */
  ghost function BlendWeight(weight: nat -> real, k: nat, p: nat): real
    requires Positive(weight) && p < k
  {
    AgesPositive(weight, k);
    weight(k - 1 - p) / AgeTotal(weight, k)
  }

  /** The reference adds the same weights from the oldest age down. */
  lemma {:induction false} WindowAges(weight: nat -> real, k: nat, act: nat, chunks: seq<Chunk>, n: nat)
    requires n <= k == |chunks| && k > 0 && AllShaped(k, act, chunks)
    ensures WeightSum(weight, k, act, k - 1, Issues(chunks, 0, k), n) + AgeTotal(weight, k - n) == AgeTotal(weight, k)
  {
    if n > 0 { WindowAges(weight, k, act, chunks, n - 1); }
  }

  /** `reshape(-1, obs_size)`: the windows of a batch one after the other. */
  function Flat<T>(windows: seq<seq<T>>): seq<T> {
    if windows == [] then [] else Flat(windows[..|windows| - 1]) + windows[|windows| - 1]
  }

  function Each<T, U>(f: T -> U, xs: seq<T>): (ys: seq<U>)
    ensures |ys| == |xs| && forall i :: 0 <= i < |xs| ==> ys[i] == f(xs[i])
  {
    seq(|xs|, i requires 0 <= i < |xs| => f(xs[i]))
  }

  predicate Windows<T>(k: nat, windows: seq<seq<T>>) {
    forall b :: 0 <= b < |windows| ==> |windows[b]| == k
  }

  /** The row at which window `b` starts, after `b` windows of `k` rows. */
  function Offset(k: nat, b: nat): nat {
    if b == 0 then 0 else Offset(k, b - 1) + k
  }

  lemma {:induction false} OffsetFits(k: nat, b: nat, n: nat)
    requires b < n
    ensures Offset(k, b) + k <= Offset(k, n)
  {
    if b < n - 1 { OffsetFits(k, b, n - 1); }
  }

  lemma {:induction false} FlatSize<T>(k: nat, windows: seq<seq<T>>)
    requires Windows(k, windows)
    ensures |Flat(windows)| == Offset(k, |windows|)
  {
    if windows != [] { FlatSize(k, windows[..|windows| - 1]); }
  }

  /** Where the reshaped batch holds position `p` of window `b`. */
  lemma {:induction false} FlatAt<T>(k: nat, windows: seq<seq<T>>, b: nat, p: nat)
    requires Windows(k, windows) && b < |windows| && p < k
    ensures Offset(k, b) + p < |Flat(windows)| && Flat(windows)[Offset(k, b) + p] == windows[b][p]
  {
    var n := |windows| - 1;
    FlatSize(k, windows[..n]);
    if b < n { FlatAt(k, windows[..n], b, p); }
  }

  /** The sum over the first `n` positions of window `b` of the weighted `(k - 1 - p)`-th actions. */
  ghost function WindowSum(weight: nat -> real, k: nat, act: nat, chunks: seq<Chunk>, b: nat, n: nat): (a: Action)
    requires Positive(weight) && AllShaped(k, act, chunks) && n <= k && Offset(k, b) + n <= |chunks|
    ensures |a| == act
  {
    if n == 0 then Zeros(act)
    else
      Plus(WindowSum(weight, k, act, chunks, b, n - 1),
           Times(BlendWeight(weight, k, n - 1), chunks[Offset(k, b) + n - 1][k - n]))
  }

  lemma {:induction false} WindowSumIsShareSum(weight: nat -> real, k: nat, act: nat, chunks: seq<Chunk>, b: nat,
                                                own: seq<Chunk>, n: nat)
    requires Positive(weight) && k > 0 && |own| == k && AllShaped(k, act, own) && AllShaped(k, act, chunks) && n <= k
    requires Offset(k, b) + k <= |chunks| && forall p :: 0 <= p < k ==> own[p] == chunks[Offset(k, b) + p]
    ensures AgeTotal(weight, k) > 0.0
    ensures WindowSum(weight, k, act, chunks, b, n)
            == ShareSum(weight, AgeTotal(weight, k), k, act, k - 1, Issues(own, 0, k), n)
  {
    hide Offset, AgeTotal, Shaped;
    AgesPositive(weight, k);
    if n > 0 {
      WindowSumIsShareSum(weight, k, act, chunks, b, own, n - 1);
      assert own[n - 1] == chunks[Offset(k, b) + (n - 1)];
      SharesAt(weight, k, act, own, n);
      hide ShareSum, AllShaped, AllCover;
    }
  }

  lemma SharesAt(weight: nat -> real, k: nat, act: nat, own: seq<Chunk>, n: nat)
    requires Positive(weight) && |own| == k && AllShaped(k, act, own) && 0 < n <= k && AgeTotal(weight, k) > 0.0
    ensures ShareSum(weight, AgeTotal(weight, k), k, act, k - 1, Issues(own, 0, k), n)
            == Plus(ShareSum(weight, AgeTotal(weight, k), k, act, k - 1, Issues(own, 0, k), n - 1),
                    Times(BlendWeight(weight, k, n - 1), own[n - 1][k - n]))
  {
    hide AgeTotal, Shaped;
    assert Shaped(k, act, own[n - 1]);
  }

  /** The forward pass on a batch of windows: decode all observations at once, then blend window by window. */
  ghost function Forward<Obs(!new)>(weight: nat -> real, k: nat, act: nat, actor: Obs -> Chunk, windows: seq<seq<Obs>>)
    : (out: seq<Action>)
    requires Positive(weight) && k > 0 && Windows(k, windows) && forall o :: Shaped(k, act, actor(o))
    ensures |out| == |windows|
  {
    var chunks := Each(actor, Flat(windows));
    seq(|windows|, b requires 0 <= b < |windows| =>
      FlatSize(k, windows);
      OffsetFits(k, b, |windows|);
      WindowSum(weight, k, act, chunks, b, k))
  }

  /** On every window of a batch the graph gives the last row of the reference on that window's own chunks. */
  lemma WindowIsLastRow<Obs(!new)>(weight: nat -> real, k: nat, act: nat, actor: Obs -> Chunk, windows: seq<seq<Obs>>, b: nat)
    requires Positive(weight) && k > 0 && Windows(k, windows) && b < |windows|
    requires forall o :: Shaped(k, act, actor(o))
    ensures Forward(weight, k, act, actor, windows)[b] == Row(weight, k, act, Each(actor, windows[b]), k - 1)
  {
    hide WindowSum, ShareSum, Blend, WeightSum, AgeTotal, Flat, Offset;
    var chunks, own := Each(actor, Flat(windows)), Each(actor, windows[b]);
    FlatSize(k, windows);
    OffsetFits(k, b, |windows|);
    forall p | 0 <= p < k ensures own[p] == chunks[Offset(k, b) + p] {
      FlatAt(k, windows, b, p);
    }
    WindowSumIsShareSum(weight, k, act, chunks, b, own, k);
    WindowAges(weight, k, act, own, k);
    NoAges(weight);
    BlendIsConvex(weight, k, act, k - 1, Issues(own, 0, k));
  }

  lemma NoAges(weight: nat -> real)
    ensures AgeTotal(weight, 0) == 0.0
  {
  }
}
