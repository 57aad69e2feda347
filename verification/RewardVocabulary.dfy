/**
 The reward vocabulary: a scalar evaluator with a tracker shared by all environments, and a
 vectorised evaluator with one array per term.
 */
module RewardVocabulary {
  import opened Outcomes

  datatype Op = Potential | Shaping | Penalty | Bonus | Smoothness | RateLimit | Unknown

  datatype Direction = Rises | Falls | Undeclared

  /** `curriculum` is the iteration a smoothness term is introduced after. */
  datatype Entry = Entry(op: Op, term: string, weight: real, improves: Direction, curriculum: Option<int>)

  type Features = map<string, real>

  const RATE_LIMIT_SLEW: real := 0.1

  function Get<T>(m: map<string, T>, key: string): Option<T> {
    if key in m then Some(m[key]) else None
  }

  /** A missing target counts as zero. */
  function Look(m: map<string, real>, key: string): real {
    if key in m then m[key] else 0.0
  }

  function Abs(x: real): real {
    if x < 0.0 then -x else x
  }

  function Square(x: real): real {
    x * x
  }

  function Min(x: real, y: real): real {
    if x < y then x else y
  }

  // ----- One environment -----

  datatype Payment = Skip | Raise | Pay(amount: real) | Release(target: real, amount: real)

  /** What one entry pays for a value, the value before, and the released target so far. */
  function PaymentFor(e: Entry, value: Option<real>, before: Option<real>, tracked: bool, current: real, iteration: int): Payment {
    if value.None? then Skip
    else
      var v := value.value;
      match e.op
      case Potential | Shaping =>
        if before.None? then Skip
        else if e.improves == Undeclared then Raise
        else Pay(e.weight * if e.improves == Rises then v - before.value else -(v - before.value))
      case Penalty => Pay(-e.weight * Abs(v))
      case Bonus => Pay(e.weight * v)
      case Smoothness =>
        if before.None? then Skip
        else if e.curriculum.Some? && iteration < e.curriculum.value then Skip
        else Pay(-e.weight * Square(v - before.value))
      case RateLimit =>
        if !tracked then Raise
        else
          var target := Min(v, current + RATE_LIMIT_SLEW);
          Release(target, e.weight * (target - current))
      case Unknown => Raise
  }

  lemma ReleaseNeedsTracker(e: Entry, value: Option<real>, before: Option<real>, current: real, iteration: int)
    ensures !PaymentFor(e, value, before, false, current, iteration).Release?
  {
  }

  /** Running totals of one environment; `raised` is the exception that ends the evaluation. */
  datatype Tally = Tally(raised: bool, total: real, contributions: map<string, real>, slew: map<string, real>)

  function Credit(t: Tally, term: string, amount: real): Tally {
    t.(total := t.total + amount, contributions := t.contributions[term := Look(t.contributions, term) + amount])
  }

  function TakeEntry(e: Entry, features: Features, previous: Features, tracked: bool, iteration: int, t: Tally): Tally {
    if t.raised then t
    else
      match PaymentFor(e, Get(features, e.term), Get(previous, e.term), tracked, Look(t.slew, e.term), iteration)
      case Skip => t
      case Raise => t.(raised := true)
      case Pay(amount) => Credit(t, e.term, amount)
      case Release(target, amount) => Credit(t.(slew := t.slew[e.term := target]), e.term, amount)
  }

  /** The first `n` entries of the formula. */
  function Evaluate(formula: seq<Entry>, features: Features, previous: Features, tracked: bool, iteration: int,
                    slew: map<string, real>, n: nat): Tally
    requires n <= |formula|
  {
    if n == 0 then Tally(false, 0.0, map[], slew)
    else
      TakeEntry(formula[n - 1], features, previous, tracked, iteration,
                Evaluate(formula, features, previous, tracked, iteration, slew, n - 1))
  }

  // ----- The scalar evaluator and its shared tracker -----

  type Targets = map<string, map<nat, real>>

  /** The released targets of environment `i`. */
  function View(targets: Targets, i: nat): map<string, real> {
    map t | t in targets && i in targets[t] :: targets[t][i]
  }

  predicate Gone(envIndices: Option<set<nat>>, i: nat) {
    envIndices.None? || i in envIndices.value
  }

  class RewardTracker {
    var rateTargets: Targets

    constructor ()
      ensures rateTargets == map[]
    {
      rateTargets := map[];
    }

    /** `None` clears everything. */
    method Reset(envIndices: Option<set<nat>>)
      modifies this
      ensures forall i :: Gone(envIndices, i) ==> View(rateTargets, i) == map[]
      ensures forall i :: !Gone(envIndices, i) ==> View(rateTargets, i) == View(old(rateTargets), i)
    {
      if envIndices.None? {
        rateTargets := map[];
      } else {
        var gone := envIndices.value;
        rateTargets := map t | t in rateTargets :: rateTargets[t] - gone;
        forall i ensures Gone(envIndices, i) ==> View(rateTargets, i) == map[] {
          if i in gone { assert View(rateTargets, i).Keys == {}; }
        }
      }
    }

    /** `setdefault(name, {})[env_index] = target` */
    method Release(term: string, i: nat, target: real)
      modifies this
      ensures View(rateTargets, i) == View(old(rateTargets), i)[term := target]
      ensures forall j :: j != i ==> View(rateTargets, j) == View(old(rateTargets), j)
    {
      forall j: nat { ReleasedView(rateTargets, term, i, target, j); }
      rateTargets := Released(rateTargets, term, i, target);
    }
  }

  function Released(targets: Targets, term: string, i: nat, target: real): Targets {
    var row := if term in targets then targets[term] else map[];
    targets[term := row[i := target]]
  }

  lemma ReleasedView(targets: Targets, term: string, i: nat, target: real, j: nat)
    ensures View(Released(targets, term, i, target), j) ==
      if j == i then View(targets, i)[term := target] else View(targets, j)
  {
    var after := View(Released(targets, term, i, target), j);
    var expected := if j == i then View(targets, i)[term := target] else View(targets, j);
    assert after.Keys == expected.Keys;
    assert forall t :: t in after ==> after[t] == expected[t];
  }

  lemma CurrentInView(targets: Targets, term: string, i: nat)
    ensures Look(View(targets, i), term) == if term in targets && i in targets[term] then targets[term][i] else 0.0
  {
  }

  datatype Outcome = Raised | Paid(total: real, contributions: map<string, real>)

  function OutcomeOf(t: Tally): Outcome {
    if t.raised then Raised else Paid(t.total, t.contributions)
  }

  /** The released targets of one environment; without a tracker there are none. */
  function SlewOf(tracker: RewardTracker?, i: nat): map<string, real>
    reads tracker
  {
    if tracker == null then map[] else View(tracker.rateTargets, i)
  }

  /** One round of the loop: `t'` is the tally after the entry, its targets being those of the tracker. */
  method PayEntry(e: Entry, features: Features, previous: Features, tracker: RewardTracker?, envIndex: nat, iteration: int,
                  t: Tally)
    returns (t': Tally)
    requires !t.raised && t.slew == SlewOf(tracker, envIndex)
    modifies tracker
    ensures t' == TakeEntry(e, features, previous, tracker != null, iteration, t)
    ensures t'.slew == SlewOf(tracker, envIndex)
    ensures forall j :: j != envIndex ==> SlewOf(tracker, j) == old(SlewOf(tracker, j))
  {
    hide PaymentFor, View, Released;
    var value, before := Get(features, e.term), Get(previous, e.term);
    var current := 0.0;
    if tracker != null {
      CurrentInView(tracker.rateTargets, e.term, envIndex);
      if e.term in tracker.rateTargets && envIndex in tracker.rateTargets[e.term] {
        current := tracker.rateTargets[e.term][envIndex];
      }
    }
    ReleaseNeedsTracker(e, value, before, current, iteration);
    match PaymentFor(e, value, before, tracker != null, current, iteration)
    case Skip => t' := t;
    case Raise => t' := t.(raised := true);
    case Pay(amount) => t' := Credit(t, e.term, amount);
    case Release(target, amount) =>
      tracker.Release(e.term, envIndex, target);
      t' := Credit(t.(slew := t.slew[e.term := target]), e.term, amount);
  }

  /** Other environments keep their targets. */
  method EvaluateFormula(formula: seq<Entry>, features: Features, previous: Option<Features>,
                         tracker: RewardTracker?, envIndex: nat, iteration: int)
    returns (r: Outcome)
    modifies tracker
    ensures
      var t := Evaluate(formula, features, if previous.Some? then previous.value else map[], tracker != null, iteration,
                        old(SlewOf(tracker, envIndex)), |formula|);
      r == OutcomeOf(t) && SlewOf(tracker, envIndex) == t.slew
    ensures forall j :: j != envIndex ==> SlewOf(tracker, j) == old(SlewOf(tracker, j))
  {
    hide TakeEntry, SlewOf;
    var prev := if previous.Some? then previous.value else map[];
    ghost var start := SlewOf(tracker, envIndex);
    var t := Tally(false, 0.0, map[], SlewOf(tracker, envIndex));
    for k := 0 to |formula|
      invariant !t.raised && t == Evaluate(formula, features, prev, tracker != null, iteration, start, k)
      invariant t.slew == SlewOf(tracker, envIndex)
      invariant forall j :: j != envIndex ==> SlewOf(tracker, j) == old(SlewOf(tracker, j))
    {
      t := PayEntry(formula[k], features, prev, tracker, envIndex, iteration, t);
      if t.raised {
        RaisedStays(formula, features, prev, tracker != null, iteration, start, k + 1, |formula|);
        return Raised;
      }
    }
    return Paid(t.total, t.contributions);
  }

  lemma {:induction false} RaisedStays(formula: seq<Entry>, features: Features, previous: Features, tracked: bool,
                                        iteration: int, slew: map<string, real>, k: nat, n: nat)
    requires k <= n <= |formula|
    requires Evaluate(formula, features, previous, tracked, iteration, slew, k).raised
    ensures Evaluate(formula, features, previous, tracked, iteration, slew, n)
            == Evaluate(formula, features, previous, tracked, iteration, slew, k)
    decreases n - k
  {
    if k < n { RaisedStays(formula, features, previous, tracked, iteration, slew, k, n - 1); }
  }
}
