/**
 Whole runs of the scalar reward evaluator, one environment at a time on a shared tracker.
 */
module RewardRuns {
  import opened Outcomes
  import opened RewardVocabulary

  /** What happens to one environment: a measured step, or a reset of its targets. */
  datatype EnvEvent = Measured(features: Features, previous: Features, iteration: int) | Restarted

  /** `paid` lists the evaluations so far; an exception ends the run. */
  datatype EnvState = EnvState(over: bool, slew: map<string, real>, paid: seq<Outcome>)

  function TallyOf(formula: seq<Entry>, features: Features, previous: Features, iteration: int, slew: map<string, real>): Tally {
    Evaluate(formula, features, previous, true, iteration, slew, |formula|)
  }

  function EnvStep(formula: seq<Entry>, ev: EnvEvent, s: EnvState): EnvState {
    if s.over then s
    else
      match ev
      case Restarted => s.(slew := map[])
      case Measured(features, previous, iteration) =>
        var t := TallyOf(formula, features, previous, iteration, s.slew);
        EnvState(t.raised, t.slew, s.paid + [OutcomeOf(t)])
  }

  /** The first `k` events, from an empty tracker. */
  function EnvRun(formula: seq<Entry>, events: seq<EnvEvent>, k: nat): EnvState
    requires k <= |events|
  {
    if k == 0 then EnvState(false, map[], [])
    else EnvStep(formula, events[k - 1], EnvRun(formula, events, k - 1))
  }

  /**
   One control step of every environment on one shared tracker, up to the first exception. Each
   environment is paid as if it had the tracker to itself.
   */
  method EvaluateEach(formula: seq<Entry>, features: seq<Features>, previous: seq<Features>, tracker: RewardTracker,
                      iteration: int)
    returns (paid: seq<Outcome>)
    requires |features| == |previous|
    modifies tracker
    ensures |paid| <= |features|
    ensures |paid| == |features| || (paid != [] && paid[|paid| - 1] == Raised)
    ensures forall i :: 0 <= i < |paid| ==>
      var t := TallyOf(formula, features[i], previous[i], iteration, old(SlewOf(tracker, i)));
      paid[i] == OutcomeOf(t) && SlewOf(tracker, i) == t.slew
    ensures forall i :: i >= |paid| ==> SlewOf(tracker, i) == old(SlewOf(tracker, i))
  {
    hide SlewOf, Evaluate;
    paid := [];
    while |paid| < |features|
      invariant |paid| <= |features|
      invariant forall i :: 0 <= i < |paid| ==>
        var t := TallyOf(formula, features[i], previous[i], iteration, old(SlewOf(tracker, i)));
        paid[i] == OutcomeOf(t) && SlewOf(tracker, i) == t.slew
      invariant forall i :: i >= |paid| ==> SlewOf(tracker, i) == old(SlewOf(tracker, i))
    {
      var i := |paid|;
      var r := EvaluateFormula(formula, features[i], Some(previous[i]), tracker, i, iteration);
      paid := paid + [r];
      if r == Raised { return; }
    }
  }

  lemma {:induction false} LaterEventsIrrelevant(formula: seq<Entry>, events: seq<EnvEvent>, more: seq<EnvEvent>, k: nat)
    requires k <= |events|
    ensures EnvRun(formula, events + more, k) == EnvRun(formula, events, k)
  {
    if k > 0 { LaterEventsIrrelevant(formula, events, more, k - 1); }
  }
}
