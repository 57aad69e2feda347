/**
 The vectorised reward evaluator simulates the scalar one: column by column, over whole runs
 with full and partial resets.
 */
module RewardVector {
  import opened Outcomes
  import opened RealVectors
  import opened RewardRuns
  import opened RewardVocabulary

  /** One array for each term, one entry for each environment. */
  type Columns = map<string, Vector>

  predicate Sized(m: Columns, n: nat) {
    forall t :: t in m ==> |m[t]| == n
  }

  /** Environment `i`; arrays of another size read as absent. */
  function Column(m: Columns, n: nat, i: nat): map<string, real>
    requires i < n
  {
    map t | t in m && |m[t]| == n :: m[t][i]
  }

  function Minus(a: Vector, b: Vector): (v: Vector)
    requires |a| == |b|
    ensures |v| == |a| && forall i :: 0 <= i < |a| ==> v[i] == a[i] - b[i]
  {
    seq(|a|, i requires 0 <= i < |a| => a[i] - b[i])
  }

  function Negated(a: Vector): (v: Vector)
    ensures |v| == |a| && forall i :: 0 <= i < |a| ==> v[i] == -a[i]
  {
    seq(|a|, i requires 0 <= i < |a| => -a[i])
  }

  function AbsAll(a: Vector): (v: Vector)
    ensures |v| == |a| && forall i :: 0 <= i < |a| ==> v[i] == Abs(a[i])
  {
    seq(|a|, i requires 0 <= i < |a| => Abs(a[i]))
  }

  function Product(a: Vector, b: Vector): (v: Vector)
    requires |a| == |b|
    ensures |v| == |a| && forall i :: 0 <= i < |a| ==> v[i] == a[i] * b[i]
  {
    seq(|a|, i requires 0 <= i < |a| => a[i] * b[i])
  }

  /** `np.minimum(value, current + RATE_LIMIT_SLEW)` */
  function Slewed(value: Vector, current: Vector): (v: Vector)
    requires |value| == |current|
    ensures |v| == |value| && forall i :: 0 <= i < |value| ==> v[i] == Min(value[i], current[i] + RATE_LIMIT_SLEW)
  {
    seq(|value|, i requires 0 <= i < |value| => Min(value[i], current[i] + RATE_LIMIT_SLEW))
  }

  // ----- The vectorised evaluator -----

  datatype VectorTally = VectorTally(raised: bool, total: Vector, contributions: Columns, targets: Columns)

  /** The stored target, or zeros when there is none of the right size. */
  function TargetOf(targets: Columns, term: string, n: nat): (v: Vector)
    ensures |v| == n
  {
    if term in targets && |targets[term]| == n then targets[term] else Zeros(n)
  }

  predicate TallySized(vt: VectorTally, n: nat) {
    |vt.total| == n && Sized(vt.contributions, n)
  }

  function VectorCredit(vt: VectorTally, n: nat, term: string, c: Vector): (r: VectorTally)
    requires TallySized(vt, n) && |c| == n
    ensures TallySized(r, n)
  {
    var before := if term in vt.contributions then vt.contributions[term] else Zeros(n);
    vt.(total := Plus(vt.total, c), contributions := vt.contributions[term := Plus(before, c)])
  }

  datatype VectorPayment = VectorSkip | VectorRaise | VectorPay(amount: Vector) | VectorRelease(target: Vector, amount: Vector)

  predicate PaymentSized(p: VectorPayment, n: nat) {
    match p
    case VectorPay(amount) => |amount| == n
    case VectorRelease(target, amount) => |target| == n && |amount| == n
    case _ => true
  }

  predicate GivenSized(v: Option<Vector>, n: nat) {
    v.Some? ==> |v.value| == n
  }

  function VectorPaymentFor(e: Entry, value: Option<Vector>, before: Option<Vector>, tracked: bool, current: Vector,
                            iteration: int): (p: VectorPayment)
    requires GivenSized(value, |current|) && GivenSized(before, |current|)
    ensures PaymentSized(p, |current|)
  {
    if value.None? then VectorSkip
    else
      var v := value.value;
      match e.op
      case Potential | Shaping =>
        if before.None? then VectorSkip
        else if e.improves == Undeclared then VectorRaise
        else
          var delta := Minus(v, before.value);
          VectorPay(Times(e.weight, if e.improves == Rises then delta else Negated(delta)))
      case Penalty => VectorPay(Times(-e.weight, AbsAll(v)))
      case Bonus => VectorPay(Times(e.weight, v))
      case Smoothness =>
        if before.None? then VectorSkip
        else if e.curriculum.Some? && iteration < e.curriculum.value then VectorSkip
        else
          var delta := Minus(v, before.value);
          VectorPay(Product(Times(-e.weight, delta), delta))
      case RateLimit =>
        if !tracked then VectorRaise
        else
          var target := Slewed(v, current);
          VectorRelease(target, Times(e.weight, Minus(target, current)))
      case Unknown => VectorRaise
  }

  function VectorTake(e: Entry, features: Columns, previous: Columns, tracked: bool, iteration: int, n: nat,
                      vt: VectorTally): (r: VectorTally)
    requires Sized(features, n) && Sized(previous, n) && TallySized(vt, n)
    ensures TallySized(r, n)
  {
    if vt.raised then vt
    else
      match VectorPaymentFor(e, Get(features, e.term), Get(previous, e.term), tracked, TargetOf(vt.targets, e.term, n), iteration)
      case VectorSkip => vt
      case VectorRaise => vt.(raised := true)
      case VectorPay(amount) => VectorCredit(vt, n, e.term, amount)
      case VectorRelease(target, amount) => VectorCredit(vt.(targets := vt.targets[e.term := target]), n, e.term, amount)
  }

  function VectorEvaluate(formula: seq<Entry>, features: Columns, previous: Columns, tracked: bool, iteration: int,
                          n: nat, targets: Columns, k: nat): (vt: VectorTally)
    requires Sized(features, n) && Sized(previous, n) && k <= |formula|
    ensures TallySized(vt, n)
  {
    if k == 0 then VectorTally(false, Zeros(n), map[], targets)
    else
      VectorTake(formula[k - 1], features, previous, tracked, iteration, n,
                 VectorEvaluate(formula, features, previous, tracked, iteration, n, targets, k - 1))
  }

  class VectorRewardTracker {
    var rateTargets: Columns

    constructor ()
      ensures rateTargets == map[]
    {
      rateTargets := map[];
    }

    /** Keeps the arrays and zeroes them, whole or at the given indices. */
    method Reset(indices: Option<set<nat>>)
      modifies this
      ensures rateTargets.Keys == old(rateTargets.Keys)
      ensures forall t :: t in rateTargets ==> |rateTargets[t]| == old(|rateTargets[t]|)
      ensures forall t, i :: t in rateTargets && 0 <= i < |rateTargets[t]| ==>
        rateTargets[t][i] == if Gone(indices, i) then 0.0 else old(rateTargets[t][i])
    {
      rateTargets := Cleared(rateTargets, indices);
    }
  }

  function Cleared(targets: Columns, indices: Option<set<nat>>): Columns {
    map t | t in targets :: seq(|targets[t]|, i requires 0 <= i < |targets[t]| =>
      if Gone(indices, i) then 0.0 else targets[t][i])
  }

  datatype VectorOutcome = VectorRaised | VectorPaid(total: Vector, contributions: Columns)

  function VectorOutcomeOf(vt: VectorTally): VectorOutcome {
    if vt.raised then VectorRaised else VectorPaid(vt.total, vt.contributions)
  }

  /** The number of environments: the given one, else the size of a feature array, else one. */
  ghost function EnvCount(features: Columns, numEnvs: Option<nat>): nat {
    if numEnvs.Some? then numEnvs.value
    else if features == map[] then 1
    else var t :| t in features; |features[t]|
  }

  method EvaluateFormulaVector(formula: seq<Entry>, features: Columns, previous: Option<Columns>,
                               tracker: VectorRewardTracker?, iteration: int, numEnvs: Option<nat>)
    returns (r: VectorOutcome)
    requires Sized(features, EnvCount(features, numEnvs))
    requires previous.Some? ==> Sized(previous.value, EnvCount(features, numEnvs))
    modifies tracker
    ensures
      var n := EnvCount(features, numEnvs);
      var vt := VectorEvaluate(formula, features, if previous.Some? then previous.value else map[], tracker != null,
                               iteration, n, old(if tracker == null then map[] else tracker.rateTargets), |formula|);
      r == VectorOutcomeOf(vt) && (tracker != null ==> tracker.rateTargets == vt.targets)
  {
    hide VectorTake;
    var prev := if previous.Some? then previous.value else map[];
    var n := 1;
    if numEnvs.Some? {
      n := numEnvs.value;
    } else if features != map[] {
      var t :| t in features;
      n := |features[t]|;
    }
    assert n == EnvCount(features, numEnvs);
    var tally := VectorTally(false, Zeros(n), map[], if tracker == null then map[] else tracker.rateTargets);
    ghost var start := tally.targets;
    for k := 0 to |formula|
      invariant TallySized(tally, n)
      invariant tally == VectorEvaluate(formula, features, prev, tracker != null, iteration, n, start, k)
    {
      tally := VectorTake(formula[k], features, prev, tracker != null, iteration, n, tally);
    }
    if tracker != null {
      tracker.rateTargets := tally.targets;
    }
    return VectorOutcomeOf(tally);
  }

  // ----- Column i of the vector is environment i -----

  ghost predicate SameSlew(a: map<string, real>, b: map<string, real>) {
    forall t :: Look(a, t) == Look(b, t)
  }

  ghost predicate Matches(vt: VectorTally, n: nat, i: nat, t: Tally)
    requires i < n
  {
    && TallySized(vt, n)
    && vt.raised == t.raised && vt.total[i] == t.total
    && Column(vt.contributions, n, i) == t.contributions
    && SameSlew(Column(vt.targets, n, i), t.slew)
  }

  lemma ColumnOfUpdate(m: Columns, n: nat, i: nat, term: string, v: Vector)
    requires i < n && |v| == n
    ensures Column(m[term := v], n, i) == Column(m, n, i)[term := v[i]]
  {
    assert Column(m[term := v], n, i).Keys == Column(m, n, i).Keys + {term};
  }

  lemma CreditMatches(vt: VectorTally, n: nat, i: nat, t: Tally, term: string, c: Vector)
    requires i < n && |c| == n && Matches(vt, n, i, t)
    ensures Matches(VectorCredit(vt, n, term, c), n, i, Credit(t, term, c[i]))
  {
    var before := if term in vt.contributions then vt.contributions[term] else Zeros(n);
    ColumnOfUpdate(vt.contributions, n, i, term, Plus(before, c));
  }

  function At(v: Option<Vector>, n: nat, i: nat): Option<real>
    requires GivenSized(v, n) && i < n
  {
    if v.None? then None else Some(v.value[i])
  }

  predicate PaysAt(arrays: VectorPayment, n: nat, i: nat, payment: Payment)
    requires i < n && PaymentSized(arrays, n)
  {
    payment ==
    match arrays
    case VectorSkip => Skip
    case VectorRaise => Raise
    case VectorPay(amount) => Pay(amount[i])
    case VectorRelease(target, amount) => Release(target[i], amount[i])
  }

  lemma PotentialAgrees(e: Entry, v: Vector, before: Vector, tracked: bool, current: Vector, iteration: int, i: nat)
    requires |v| == |before| == |current| && i < |current| && e.op in {Potential, Shaping}
    ensures PaysAt(VectorPaymentFor(e, Some(v), Some(before), tracked, current, iteration), |current|, i,
                   PaymentFor(e, Some(v[i]), Some(before[i]), tracked, current[i], iteration))
  {
    hide Times, Minus, Negated;
    var delta, d := Minus(v, before), v[i] - before[i];
    TimesAt(e.weight, delta, i, d);
    TimesAt(e.weight, Negated(delta), i, -d);
  }

  lemma LimitAgrees(e: Entry, v: Vector, before: Option<Vector>, tracked: bool, current: Vector, iteration: int, i: nat)
    requires |v| == |current| && GivenSized(before, |current|) && i < |current| && e.op == RateLimit
    ensures PaysAt(VectorPaymentFor(e, Some(v), before, tracked, current, iteration), |current|, i,
                   PaymentFor(e, Some(v[i]), At(before, |current|, i), tracked, current[i], iteration))
  {
    hide Times, Minus, Slewed, Min;
    var target := Min(v[i], current[i] + RATE_LIMIT_SLEW);
    TimesAt(e.weight, Minus(Slewed(v, current), current), i, target - current[i]);
  }

  /** Element `i` of what the arrays pay is what environment `i` is paid. */
  lemma PaymentsAgree(e: Entry, value: Option<Vector>, before: Option<Vector>, tracked: bool, current: Vector, iteration: int,
                      i: nat)
    requires GivenSized(value, |current|) && GivenSized(before, |current|) && i < |current|
    ensures PaysAt(VectorPaymentFor(e, value, before, tracked, current, iteration), |current|, i,
                   PaymentFor(e, At(value, |current|, i), At(before, |current|, i), tracked, current[i], iteration))
  {
    hide Square, Abs, Min, Product, Times, Minus, Negated, AbsAll, Slewed;
    if value.Some? {
      var w, v, x := e.weight, value.value, value.value[i];
      match e.op
      case Potential | Shaping => if before.Some? { PotentialAgrees(e, v, before.value, tracked, current, iteration, i); }
      case Penalty => TimesAt(-w, AbsAll(v), i, Abs(x));
      case Bonus => TimesAt(w, v, i, x);
      case Smoothness => if before.Some? { SmoothnessAgrees(w, v, before.value, i); }
      case RateLimit => LimitAgrees(e, v, before, tracked, current, iteration, i);
      case Unknown =>
    }
  }

  lemma TimesAt(w: real, a: Vector, i: nat, x: real)
    requires i < |a| && a[i] == x
    ensures Times(w, a)[i] == w * x
  {
  }

  lemma SmoothnessAgrees(w: real, value: Vector, before: Vector, i: nat)
    requires |value| == |before| && i < |value|
    ensures
      var delta := Minus(value, before);
      Product(Times(-w, delta), delta)[i] == -w * Square(value[i] - before[i])
  {
    SquareShape(w, value[i] - before[i]);
  }

  lemma SquareShape(w: real, d: real)
    ensures (-w * d) * d == -w * Square(d)
  {
  }

  lemma MatchingState(vt: VectorTally, n: nat, i: nat, t: Tally, term: string)
    requires i < n && Matches(vt, n, i, t)
    ensures TallySized(vt, n) && vt.raised == t.raised && TargetOf(vt.targets, term, n)[i] == Look(t.slew, term)
    ensures Matches(vt.(raised := true), n, i, t.(raised := true))
  {
    assert TargetOf(vt.targets, term, n)[i] == Look(Column(vt.targets, n, i), term);
  }

  lemma TakeMatches(e: Entry, features: Columns, previous: Columns, tracked: bool, iteration: int, n: nat, i: nat,
                    vt: VectorTally, t: Tally)
    requires Sized(features, n) && Sized(previous, n) && i < n && Matches(vt, n, i, t)
    ensures Matches(VectorTake(e, features, previous, tracked, iteration, n, vt), n, i,
                    TakeEntry(e, Column(features, n, i), Column(previous, n, i), tracked, iteration, t))
  {
    hide VectorPaymentFor, PaymentFor, VectorCredit, Credit, Matches;
    MatchingState(vt, n, i, t, e.term);
    if !vt.raised {
      var value, before := Get(features, e.term), Get(previous, e.term);
      var current := TargetOf(vt.targets, e.term, n);
      assert At(value, n, i) == Get(Column(features, n, i), e.term);
      assert At(before, n, i) == Get(Column(previous, n, i), e.term);
      PaymentsAgree(e, value, before, tracked, current, iteration, i);
      match VectorPaymentFor(e, value, before, tracked, current, iteration)
      case VectorSkip =>
      case VectorRaise =>
      case VectorPay(amount) => CreditMatches(vt, n, i, t, e.term, amount);
      case VectorRelease(target, amount) => ReleaseMatches(e.term, n, i, vt, t, target, amount);
    }
  }

  lemma ReleaseMatches(term: string, n: nat, i: nat, vt: VectorTally, t: Tally, target: Vector, amount: Vector)
    requires i < n && |target| == n && |amount| == n && Matches(vt, n, i, t)
    ensures Matches(VectorCredit(vt.(targets := vt.targets[term := target]), n, term, amount), n, i,
                    Credit(t.(slew := t.slew[term := target[i]]), term, amount[i]))
  {
    var vt' := vt.(targets := vt.targets[term := target]);
    var t' := t.(slew := t.slew[term := target[i]]);
    ColumnOfUpdate(vt.targets, n, i, term, target);
    forall s ensures Look(Column(vt'.targets, n, i), s) == Look(t'.slew, s) {
      assert Look(Column(vt.targets, n, i), s) == Look(t.slew, s);
    }
    CreditMatches(vt', n, i, t', term, amount);
  }

  /** One evaluation: every column of the result is the scalar evaluation of its environment. */
  lemma {:induction false} ColumnsAreEnvironments(formula: seq<Entry>, features: Columns, previous: Columns, tracked: bool,
                                                   iteration: int, n: nat, targets: Columns, i: nat,
                                                   slew: map<string, real>, k: nat)
    requires Sized(features, n) && Sized(previous, n) && i < n && k <= |formula|
    requires SameSlew(Column(targets, n, i), slew)
    ensures Matches(VectorEvaluate(formula, features, previous, tracked, iteration, n, targets, k), n, i,
                    Evaluate(formula, Column(features, n, i), Column(previous, n, i), tracked, iteration, slew, k))
  {
    if k == 0 {
      assert Column(map[], n, i) == map[];
    } else {
      ColumnsAreEnvironments(formula, features, previous, tracked, iteration, n, targets, i, slew, k - 1);
      TakeMatches(formula[k - 1], features, previous, tracked, iteration, n, i,
                  VectorEvaluate(formula, features, previous, tracked, iteration, n, targets, k - 1),
                  Evaluate(formula, Column(features, n, i), Column(previous, n, i), tracked, iteration, slew, k - 1));
    }
  }

  // ----- Whole runs -----

  datatype Event = Step(features: Columns, previous: Option<Columns>, iteration: int) | Reset(indices: Option<set<nat>>)

  predicate EventsSized(events: seq<Event>, n: nat) {
    forall k :: 0 <= k < |events| && events[k].Step? ==> Sized(events[k].features, n) && Sized(PreviousOf(events[k]), n)
  }

  function PreviousOf(ev: Event): Columns
    requires ev.Step?
  {
    if ev.previous.Some? then ev.previous.value else map[]
  }

  datatype VectorState = VectorState(over: bool, targets: Columns, paid: seq<VectorOutcome>)

  function VectorStep(formula: seq<Entry>, n: nat, ev: Event, s: VectorState): VectorState
    requires EventsSized([ev], n)
  {
    if s.over then s
    else
      match ev
      case Reset(indices) => s.(targets := Cleared(s.targets, indices))
      case Step(features, _, iteration) =>
        assert ev == [ev][0];
        var vt := VectorEvaluate(formula, features, PreviousOf(ev), true, iteration, n, s.targets, |formula|);
        VectorState(vt.raised, vt.targets, s.paid + [VectorOutcomeOf(vt)])
  }

  function VectorRun(formula: seq<Entry>, n: nat, events: seq<Event>, k: nat): VectorState
    requires EventsSized(events, n) && k <= |events|
  {
    if k == 0 then VectorState(false, map[], [])
    else VectorStep(formula, n, events[k - 1], VectorRun(formula, n, events, k - 1))
  }

  /** The steps and the resets of environment `i`; a partial reset may pass it by. */
  function EventsOf(events: seq<Event>, n: nat, i: nat, k: nat): seq<EnvEvent>
    requires i < n && k <= |events|
  {
    if k == 0 then []
    else
      EventsOf(events, n, i, k - 1) +
      match events[k - 1]
      case Step(features, _, iteration) =>
        [Measured(Column(features, n, i), Column(PreviousOf(events[k - 1]), n, i), iteration)]
      case Reset(indices) => if Gone(indices, i) then [Restarted] else []
  }

  function OutcomeColumn(o: VectorOutcome, n: nat, i: nat): Outcome
    requires i < n && (o.VectorPaid? ==> |o.total| == n)
  {
    match o
    case VectorRaised => Raised
    case VectorPaid(total, contributions) => Paid(total[i], Column(contributions, n, i))
  }

  ghost predicate ColumnIs(v: VectorState, n: nat, i: nat, s: EnvState)
    requires i < n
  {
    && v.over == s.over
    && SameSlew(Column(v.targets, n, i), s.slew)
    && |v.paid| == |s.paid|
    && forall j :: 0 <= j < |v.paid| ==>
      (v.paid[j].VectorPaid? ==> |v.paid[j].total| == n) && OutcomeColumn(v.paid[j], n, i) == s.paid[j]
  }

  lemma ClearedColumn(targets: Columns, indices: Option<set<nat>>, n: nat, i: nat, slew: map<string, real>)
    requires i < n && SameSlew(Column(targets, n, i), slew)
    ensures SameSlew(Column(Cleared(targets, indices), n, i), if Gone(indices, i) then map[] else slew)
  {
    forall t ensures Look(Column(Cleared(targets, indices), n, i), t) == if Gone(indices, i) then 0.0 else Look(slew, t) {
      assert Look(Column(targets, n, i), t) == Look(slew, t);
    }
  }

  lemma StepColumn(formula: seq<Entry>, n: nat, i: nat, ev: Event, v: VectorState, s: EnvState)
    requires EventsSized([ev], n) && i < n && ev.Step? && ColumnIs(v, n, i, s)
    ensures ColumnIs(VectorStep(formula, n, ev, v), n, i,
                     EnvStep(formula, Measured(Column(ev.features, n, i), Column(PreviousOf(ev), n, i), ev.iteration), s))
  {
    hide VectorEvaluate, Evaluate, Column, Look;
    assert ev == [ev][0];
    if !v.over {
      ColumnsAreEnvironments(formula, ev.features, PreviousOf(ev), true, ev.iteration, n, v.targets, i, s.slew, |formula|);
    }
  }

  /**
   Over every run, with full and partial resets and repeated terms, column `i` of the vectorised
   evaluator is the scalar evaluator on the events of environment `i`: the payments, the slewed
   targets and the exception that ends the run.
   */
  lemma {:induction false} VectorSimulatesScalar(formula: seq<Entry>, n: nat, i: nat, events: seq<Event>, k: nat)
    requires EventsSized(events, n) && i < n && k <= |events|
    ensures
      var mine := EventsOf(events, n, i, k);
      ColumnIs(VectorRun(formula, n, events, k), n, i, EnvRun(formula, mine, |mine|))
  {
    hide EnvStep, VectorStep, ColumnIs;
    if k == 0 {
      StartColumn(formula, n, i);
    } else {
      VectorSimulatesScalar(formula, n, i, events, k - 1);
      var before, ev := EventsOf(events, n, i, k - 1), events[k - 1];
      var v, s := VectorRun(formula, n, events, k - 1), EnvRun(formula, before, |before|);
      assert ev == [ev][0];
      if ev.Step? {
        var mine := Measured(Column(ev.features, n, i), Column(PreviousOf(ev), n, i), ev.iteration);
        StepColumn(formula, n, i, ev, v, s);
        LaterEventsIrrelevant(formula, before, [mine], |before|);
      } else {
        ResetColumn(formula, n, i, ev, v, s);
        if Gone(ev.indices, i) {
          LaterEventsIrrelevant(formula, before, [Restarted], |before|);
        } else {
          assert before + [] == before;
        }
      }
    }
  }

  lemma StartColumn(formula: seq<Entry>, n: nat, i: nat)
    requires i < n
    ensures ColumnIs(VectorRun(formula, n, [], 0), n, i, EnvRun(formula, [], 0))
  {
    assert Column(map[], n, i) == map[];
  }

  lemma ResetColumn(formula: seq<Entry>, n: nat, i: nat, ev: Event, v: VectorState, s: EnvState)
    requires EventsSized([ev], n) && i < n && ev.Reset? && ColumnIs(v, n, i, s)
    ensures ColumnIs(VectorStep(formula, n, ev, v), n, i, if Gone(ev.indices, i) then EnvStep(formula, Restarted, s) else s)
  {
    hide Column, Look, Cleared;
    ClearedColumn(v.targets, ev.indices, n, i, s.slew);
  }
}
