/**
 What penalty, bonus and smoothness entries pay over an episode, and when an evaluation raises, for
 every formula and every run.
 */
module RewardSums {
  import opened Outcomes
  import opened RewardEpisodes
  import opened RewardRuns
  import opened RewardVocabulary

  /** What an entry of each kind weighs in one step; an unmeasured term weighs nothing. */
  datatype Summand = Magnitude | Amount | SquaredChange

  function SummandOf(op: Op): Option<Summand> {
    match op
    case Penalty => Some(Magnitude)
    case Bonus => Some(Amount)
    case Smoothness => Some(SquaredChange)
    case _ => None
  }

  /** From the iteration a term is introduced at. */
  predicate Introduced(e: Entry, iteration: int) {
    e.curriculum.Some? ==> iteration >= e.curriculum.value
  }

  function StepSum(e: Entry, kind: Summand, ev: EnvEvent): real
    requires ev.Measured?
  {
    if e.term !in ev.features then 0.0
    else
      var now := ev.features[e.term];
      match kind
      case Magnitude => if now >= 0.0 then now else -now
      case Amount => now
      case SquaredChange =>
        if e.term in ev.previous && Introduced(e, ev.iteration)
        then (now - ev.previous[e.term]) * (now - ev.previous[e.term]) else 0.0
  }

  /** The sum over the measured steps since the last reset. */
  function EpisodeSum(e: Entry, kind: Summand, events: seq<EnvEvent>, k: nat): real
    requires k <= |events|
  {
    if k == 0 || events[k - 1].Restarted? then 0.0
    else EpisodeSum(e, kind, events, k - 1) + StepSum(e, kind, events[k - 1])
  }

  lemma {:induction false} SumIsNotNegative(e: Entry, kind: Summand, events: seq<EnvEvent>, k: nat)
    requires k <= |events| && kind != Amount
    ensures EpisodeSum(e, kind, events, k) >= 0.0
  {
    if k > 0 && events[k - 1].Measured? {
      SumIsNotNegative(e, kind, events, k - 1);
      if e.term in events[k - 1].features && e.term in events[k - 1].previous {
        SquareNotNegative(events[k - 1].features[e.term] - events[k - 1].previous[e.term]);
      }
    }
  }

  lemma SquareNotNegative(x: real)
    ensures x * x >= 0.0
  {
  }

  /** Bonuses are paid, penalties and jerks are charged. */
  function Charge(kind: Summand, w: real): real {
    if kind == Amount then w else -w
  }

  lemma StepAmount(e: Entry, kind: Summand, ev: EnvEvent, current: real)
    requires ev.Measured? && SummandOf(e.op) == Some(kind)
    ensures
      var payment := PaymentFor(e, Get(ev.features, e.term), Get(ev.previous, e.term), true, current, ev.iteration);
      AmountOf(payment) == Times(Charge(kind, e.weight), StepSum(e, kind, ev))
  {
    if e.term in ev.features && e.term in ev.previous {
      SquareOf(ev.features[e.term] - ev.previous[e.term]);
    }
    hide Square;
  }

  lemma SquareOf(x: real)
    ensures Square(x) == x * x
  {
  }

  lemma StepPays(formula: seq<Entry>, ev: EnvEvent, slew: map<string, real>, p: nat, kind: Summand)
    requires ev.Measured? && p < |formula| && SummandOf(formula[p].op) == Some(kind)
    ensures PaidBy(formula, ev, slew, p) == Times(Charge(kind, formula[p].weight), StepSum(formula[p], kind, ev))
  {
    hide Upto, Look, PaymentFor, AmountOf, Times, StepSum;
    StepAmount(formula[p], kind, ev, Look(Upto(formula, ev, slew, p).slew, formula[p].term));
  }

  lemma SumStep(w: real, sum: real, more: real, paid: real, paid': real)
    requires paid == Times(w, sum) && paid' == paid + Times(w, more)
    ensures paid' == Times(w, sum + more)
  {
  }

  lemma NothingTimes(w: real)
    ensures Times(w, 0.0) == 0.0
  {
  }

  /**
   In every run a penalty has charged its weight times the sum of magnitudes, a bonus has paid its
   weight times the sum of values, and a smoothness entry has charged its weight times the sum of
   squared changes over the steps with a previous value from its introduction on, and nothing before.
   */
  lemma {:induction false} EpisodePaysSum(formula: seq<Entry>, p: nat, events: seq<EnvEvent>, k: nat, kind: Summand)
    requires p < |formula| && k <= |events| && SummandOf(formula[p].op) == Some(kind)
    ensures EpisodePay(formula, p, events, k)
            == Times(Charge(kind, formula[p].weight), EpisodeSum(formula[p], kind, events, k))
  {
    hide EnvRun, PaidBy, StepSum, Times, Charge;
    NothingTimes(Charge(kind, formula[p].weight));
    if k > 0 && events[k - 1].Measured? {
      EpisodePaysSum(formula, p, events, k - 1, kind);
      StepPays(formula, events[k - 1], EnvRun(formula, events, k - 1).slew, p, kind);
      SumStep(Charge(kind, formula[p].weight), EpisodeSum(formula[p], kind, events, k - 1),
              StepSum(formula[p], kind, events[k - 1]),
              EpisodePay(formula, p, events, k - 1), EpisodePay(formula, p, events, k));
    }
  }

  /** With the weights a formula may have, a penalty or a jerk is never rewarded. */
  lemma NeverRewarded(formula: seq<Entry>, p: nat, events: seq<EnvEvent>, k: nat)
    requires p < |formula| && k <= |events| && formula[p].op in {Penalty, Smoothness} && formula[p].weight >= 0.0
    ensures EpisodePay(formula, p, events, k) <= 0.0
  {
    hide EpisodePay, EpisodeSum;
    var kind := SummandOf(formula[p].op).value;
    EpisodePaysSum(formula, p, events, k, kind);
    SumIsNotNegative(formula[p], kind, events, k);
    NotPositive(formula[p].weight, EpisodeSum(formula[p], kind, events, k));
  }

  lemma NotPositive(w: real, sum: real)
    requires w >= 0.0 && sum >= 0.0
    ensures Times(-w, sum) <= 0.0
  {
    assert (-w) * sum == -(w * sum);
  }

  // ----- When an evaluation raises -----

  /** An entry of an unknown kind, or an improvement in no declared direction, that has something to measure. */
  predicate CannotPay(e: Entry, ev: EnvEvent) {
    && ev.Measured? && e.term in ev.features
    && (e.op == Unknown || (e.op in {Potential, Shaping} && e.improves == Undeclared && e.term in ev.previous))
  }

  predicate SomeCannotPay(formula: seq<Entry>, ev: EnvEvent, n: nat)
    requires n <= |formula|
  {
    exists q :: 0 <= q < n && CannotPay(formula[q], ev)
  }

  lemma {:induction false} RaisesExactly(formula: seq<Entry>, ev: EnvEvent, slew: map<string, real>, n: nat)
    requires ev.Measured? && n <= |formula|
    ensures Upto(formula, ev, slew, n).raised <==> SomeCannotPay(formula, ev, n)
  {
    hide Look, CannotPay, TakeEntry;
    if n > 0 {
      RaisesExactly(formula, ev, slew, n - 1);
      TakeRaises(formula[n - 1], ev, Upto(formula, ev, slew, n - 1));
      assert SomeCannotPay(formula, ev, n) <==> SomeCannotPay(formula, ev, n - 1) || CannotPay(formula[n - 1], ev);
    }
  }

  lemma TakeRaises(e: Entry, ev: EnvEvent, t: Tally)
    requires ev.Measured?
    ensures TakeEntry(e, ev.features, ev.previous, true, ev.iteration, t).raised <==> t.raised || CannotPay(e, ev)
  {
    hide Look;
  }

  /** A run is over exactly when some step so far had an entry that cannot be paid. */
  lemma {:induction false} OverExactly(formula: seq<Entry>, events: seq<EnvEvent>, k: nat)
    requires k <= |events|
    ensures EnvRun(formula, events, k).over <==> exists j :: 0 <= j < k && SomeCannotPay(formula, events[j], |formula|)
  {
    hide Upto, SomeCannotPay;
    if k > 0 {
      OverExactly(formula, events, k - 1);
      var s, ev := EnvRun(formula, events, k - 1), events[k - 1];
      if ev.Measured? {
        RaisesExactly(formula, ev, s.slew, |formula|);
        UptoIsTally(formula, ev, s.slew);
      } else {
        ResetPays(formula, ev);
      }
    }
  }

  lemma UptoIsTally(formula: seq<Entry>, ev: EnvEvent, slew: map<string, real>)
    requires ev.Measured?
    ensures TallyOf(formula, ev.features, ev.previous, ev.iteration, slew) == Upto(formula, ev, slew, |formula|)
  {
  }

  lemma ResetPays(formula: seq<Entry>, ev: EnvEvent)
    requires ev.Restarted?
    ensures !SomeCannotPay(formula, ev, |formula|)
  {
  }
}
