/**
 The historical fixed-key reward and the formula it expands to: what they pay for a step and for an
 episode, and exactly when they agree.
 */
module LegacyReward {
  import opened Outcomes
  import opened RewardEpisodes
  import opened RewardRuns
  import opened RewardVocabulary

  /** The fixed keys of the legacy map. */
  datatype Legacy = Legacy(progress: Option<real>, goal: Option<real>, collision: Option<real>, actionPenalty: Option<real>,
                           dwell: Option<real>, fallPenalty: Option<real>)

  const MAX_WEIGHT: real := 1000.0

  function Or(x: Option<real>, default: real): real {
    if x.None? then default else x.value
  }

  // ----- The historical formula -----

  /** What one step measures. */
  datatype StepFacts = StepFacts(previous: real, distance: real, action: real, success: bool, collided: bool)

  function HistoricalReward(cfg: Legacy, s: StepFacts, goalEps: real, fallPenalty: Option<real>, fallen: bool): real {
    var base := Or(cfg.progress, 0.0) * (s.previous - s.distance)
                + Or(cfg.actionPenalty, 0.0) * s.action
                + (if s.success then Or(cfg.goal, 0.0) else 0.0)
                + (if s.collided then Or(cfg.collision, 0.0) else 0.0);
    var held := if cfg.dwell.Some? && s.distance < goalEps * 1.5 then base + cfg.dwell.value else base;
    if fallPenalty.Some? && fallen then held - fallPenalty.value else held
  }

  // ----- The expansion -----

  function Penalties(value: Option<real>, term: string): seq<Entry> {
    if Or(value, 0.0) == 0.0 then [] else [Entry(Penalty, term, Abs(value.value), Falls, None)]
  }

  function Magnitude(value: Option<real>, op: Op, term: string, improves: Direction): seq<Entry> {
    if Or(value, 0.0) == 0.0 then [] else [Entry(op, term, Abs(value.value), improves, None)]
  }

  function Bonuses(value: Option<real>, term: string): seq<Entry> {
    if Or(value, 0.0) == 0.0 then [] else [Entry(Bonus, term, value.value, Rises, None)]
  }

  /** Signs that contradict a penalty or a bonus are refused; those of progress and goal are not looked at. */
  predicate SignsAccepted(cfg: Legacy) {
    && Or(cfg.collision, 0.0) <= 0.0 && Or(cfg.actionPenalty, 0.0) <= 0.0 && Or(cfg.fallPenalty, 0.0) <= 0.0
    && Or(cfg.dwell, 0.0) >= 0.0
  }

  /** The terms in the order they are pushed. */
  function Terms(cfg: Legacy): seq<Entry> {
    Magnitude(cfg.progress, Potential, "progress", Falls)
    + (Magnitude(cfg.goal, RateLimit, "goal_reach", Rises)
    + (Penalties(cfg.collision, "collision")
    + (Penalties(cfg.actionPenalty, "action_magnitude")
    + (Bonuses(cfg.dwell, "goal_hold")
    + Penalties(cfg.fallPenalty, "collision")))))
  }

  /** `None` is a refused map. */
  function Expand(cfg: Legacy): Option<seq<Entry>> {
    if SignsAccepted(cfg) && forall k :: 0 <= k < |Terms(cfg)| ==> Terms(cfg)[k].weight <= MAX_WEIGHT then Some(Terms(cfg))
    else None
  }

  function Indicator(b: bool): real {
    if b then 1.0 else 0.0
  }

  /** The measurements the formula is given for a step. */
  function FeaturesOf(s: StepFacts, goalEps: real): Features {
    map["progress" := s.distance, "goal_reach" := Indicator(s.success), "collision" := Indicator(s.collided),
        "action_magnitude" := s.action, "goal_hold" := Indicator(s.distance < goalEps * 1.5)]
  }

  function EventOf(s: StepFacts, goalEps: real): EnvEvent {
    Measured(FeaturesOf(s, goalEps), map["progress" := s.previous], 0)
  }

  // ----- What a formula pays when no two entries slew the same term -----

  predicate Declared(e: Entry) {
    e.op != Unknown && e.improves != Undeclared
  }

  lemma {:induction false} DeclaredNeverRaises(formula: seq<Entry>, ev: EnvEvent, slew: map<string, real>, n: nat)
    requires ev.Measured? && n <= |formula| && forall k :: 0 <= k < |formula| ==> Declared(formula[k])
    ensures !Upto(formula, ev, slew, n).raised
  {
    hide TakeEntry, Declared;
    if n > 0 {
      DeclaredNeverRaises(formula, ev, slew, n - 1);
      DeclaredPays(formula[n - 1], ev.features, ev.previous, ev.iteration, Upto(formula, ev, slew, n - 1));
    }
  }

  lemma DeclaredPays(e: Entry, features: Features, previous: Features, iteration: int, t: Tally)
    requires Declared(e) && !t.raised
    ensures !TakeEntry(e, features, previous, true, iteration, t).raised
  {
    hide Look;
  }

  lemma OthersIgnoreTarget(e: Entry, value: Option<real>, before: Option<real>, a: real, b: real, iteration: int)
    requires e.op != RateLimit
    ensures PaymentFor(e, value, before, true, a, iteration) == PaymentFor(e, value, before, true, b, iteration)
  {
  }

  /** What an entry pays when nothing before it has slewed its term. */
  function Amount(e: Entry, ev: EnvEvent, slew: map<string, real>): real
    requires ev.Measured?
  {
    AmountOf(PaymentFor(e, Get(ev.features, e.term), Get(ev.previous, e.term), true, Look(slew, e.term), ev.iteration))
  }

  function Total(formula: seq<Entry>, ev: EnvEvent, slew: map<string, real>, n: nat): real
    requires ev.Measured? && n <= |formula|
  {
    if n == 0 then 0.0 else Total(formula, ev, slew, n - 1) + Amount(formula[n - 1], ev, slew)
  }

  predicate SlewsOnce(formula: seq<Entry>) {
    forall p :: 0 <= p < |formula| && formula[p].op == RateLimit ==> Limits(formula, formula[p].term, p) == 0
  }

  lemma PaidByIsAmount(formula: seq<Entry>, ev: EnvEvent, slew: map<string, real>, p: nat)
    requires ev.Measured? && p < |formula| && SlewsOnce(formula) && !Upto(formula, ev, slew, p).raised
    ensures PaidBy(formula, ev, slew, p) == Amount(formula[p], ev, slew)
  {
    hide Upto, Reached, Limits, PaymentFor;
    var e := formula[p];
    SlewsOncePerEntry(formula, ev, slew, e.term, p);
    NothingReached(Look(slew, e.term), Look(ev.features, e.term));
    if e.op != RateLimit {
      OthersIgnoreTarget(e, Get(ev.features, e.term), Get(ev.previous, e.term),
                         Look(Upto(formula, ev, slew, p).slew, e.term), Look(slew, e.term), ev.iteration);
    }
  }

  lemma {:induction false} SumPaidIsTotal(formula: seq<Entry>, ev: EnvEvent, slew: map<string, real>, n: nat)
    requires ev.Measured? && n <= |formula| && SlewsOnce(formula) && forall k :: 0 <= k < |formula| ==> Declared(formula[k])
    ensures SumPaid(formula, ev, slew, n) == Total(formula, ev, slew, n)
  {
    hide PaidBy, Amount, Upto, SlewsOnce;
    if n > 0 {
      SumPaidIsTotal(formula, ev, slew, n - 1);
      DeclaredNeverRaises(formula, ev, slew, n - 1);
      PaidByIsAmount(formula, ev, slew, n - 1);
    }
  }

  lemma {:induction false} TotalSplits(a: seq<Entry>, b: seq<Entry>, ev: EnvEvent, slew: map<string, real>, n: nat)
    requires ev.Measured? && n <= |b|
    ensures Total(a + b, ev, slew, |a| + n) == Total(a, ev, slew, |a|) + Total(b, ev, slew, n)
  {
    hide Amount;
    if n > 0 {
      TotalSplits(a, b, ev, slew, n - 1);
    } else {
      TotalOfPrefix(a, b, ev, slew, |a|);
    }
  }

  lemma {:induction false} TotalOfPrefix(a: seq<Entry>, b: seq<Entry>, ev: EnvEvent, slew: map<string, real>, n: nat)
    requires ev.Measured? && n <= |a|
    ensures Total(a + b, ev, slew, n) == Total(a, ev, slew, n)
  {
    hide Amount;
    if n > 0 { TotalOfPrefix(a, b, ev, slew, n - 1); }
  }

  // ----- Term by term -----

  /** A weight for the distance closed. */
  function Closed(w: real, s: StepFacts): real {
    w * (s.previous - s.distance)
  }

  /** What a goal of weight `w` is paid after `released` of it has been paid before. */
  function GoalPaid(w: real, success: bool, released: real): real {
    Times(w, Min(Indicator(success), released + RATE_LIMIT_SLEW) - released)
  }

  function Whole(part: seq<Entry>, s: StepFacts, goalEps: real, slew: map<string, real>): real {
    Total(part, EventOf(s, goalEps), slew, |part|)
  }

  lemma OneEntry(part: seq<Entry>, s: StepFacts, goalEps: real, slew: map<string, real>)
    requires |part| <= 1
    ensures Whole(part, s, goalEps, slew) == if part == [] then 0.0 else Amount(part[0], EventOf(s, goalEps), slew)
  {
    hide Amount;
    var ev := EventOf(s, goalEps);
    assert Total(part, ev, slew, 0) == 0.0;
    if |part| == 1 { assert Total(part, ev, slew, 1) == Total(part, ev, slew, 0) + Amount(part[0], ev, slew); }
  }

  lemma ProgressPays(cfg: Legacy, s: StepFacts, goalEps: real, slew: map<string, real>)
    ensures Whole(Magnitude(cfg.progress, Potential, "progress", Falls), s, goalEps, slew)
            == Closed(Abs(Or(cfg.progress, 0.0)), s)
  {
    var part := Magnitude(cfg.progress, Potential, "progress", Falls);
    OneEntry(part, s, goalEps, slew);
    hide Whole;
    if part != [] {
      assert Amount(part[0], EventOf(s, goalEps), slew) == Abs(cfg.progress.value) * -(s.distance - s.previous);
      assert -(s.distance - s.previous) == s.previous - s.distance;
    }
  }

  lemma GoalEntryPays(w: real, s: StepFacts, goalEps: real, slew: map<string, real>)
    ensures Amount(Entry(RateLimit, "goal_reach", w, Rises, None), EventOf(s, goalEps), slew)
            == GoalPaid(w, s.success, Look(slew, "goal_reach"))
  {
    var features, before := FeaturesOf(s, goalEps), Get(EventOf(s, goalEps).previous, "goal_reach");
    assert Get(features, "goal_reach") == Some(Indicator(s.success));
    hide Look, Min, Times, PaymentFor, AmountOf, FeaturesOf;
    ReleasePays(w, Indicator(s.success), before, Look(slew, "goal_reach"), 0);
  }

  lemma ReleasePays(w: real, value: real, before: Option<real>, current: real, iteration: int)
    ensures AmountOf(PaymentFor(Entry(RateLimit, "goal_reach", w, Rises, None), Some(value), before, true, current, iteration))
            == Times(w, Min(value, current + RATE_LIMIT_SLEW) - current)
  {
    hide Min;
  }

  lemma GoalPays(cfg: Legacy, s: StepFacts, goalEps: real, slew: map<string, real>)
    ensures Whole(Magnitude(cfg.goal, RateLimit, "goal_reach", Rises), s, goalEps, slew)
            == GoalPaid(Abs(Or(cfg.goal, 0.0)), s.success, Look(slew, "goal_reach"))
  {
    OneEntry(Magnitude(cfg.goal, RateLimit, "goal_reach", Rises), s, goalEps, slew);
    if Or(cfg.goal, 0.0) == 0.0 {
      hide Whole, Amount, Look, Min;
    } else {
      hide Whole, GoalPaid, Amount, Abs, Look;
      GoalEntryPays(Abs(cfg.goal.value), s, goalEps, slew);
    }
  }

  lemma PenaltyPays(value: Option<real>, term: string, s: StepFacts, goalEps: real, slew: map<string, real>)
    requires term in FeaturesOf(s, goalEps) && FeaturesOf(s, goalEps)[term] >= 0.0 && Or(value, 0.0) <= 0.0
    ensures Whole(Penalties(value, term), s, goalEps, slew) == Or(value, 0.0) * FeaturesOf(s, goalEps)[term]
  {
    OneEntry(Penalties(value, term), s, goalEps, slew);
    hide Whole, Look;
    if Penalties(value, term) != [] {
      var e := Penalties(value, term)[0];
      assert Amount(e, EventOf(s, goalEps), slew) == -e.weight * Abs(FeaturesOf(s, goalEps)[term]);
      assert -e.weight == value.value;
    }
  }

  lemma BonusPays(value: Option<real>, term: string, s: StepFacts, goalEps: real, slew: map<string, real>)
    requires term in FeaturesOf(s, goalEps)
    ensures Whole(Bonuses(value, term), s, goalEps, slew) == Or(value, 0.0) * FeaturesOf(s, goalEps)[term]
  {
    OneEntry(Bonuses(value, term), s, goalEps, slew);
    hide Whole, Look;
  }

  /** What collision, action and dwell pay in both formulas. */
  function Rest(cfg: Legacy, s: StepFacts, goalEps: real): real {
    Or(cfg.collision, 0.0) * Indicator(s.collided)
    + (Or(cfg.actionPenalty, 0.0) * s.action + Or(cfg.dwell, 0.0) * Indicator(s.distance < goalEps * 1.5))
  }

  function FallPaid(cfg: Legacy, s: StepFacts): real {
    Or(cfg.fallPenalty, 0.0) * Indicator(s.collided)
  }

  lemma SixParts(p: seq<Entry>, g: seq<Entry>, c: seq<Entry>, a: seq<Entry>, d: seq<Entry>, f: seq<Entry>,
                 s: StepFacts, goalEps: real, slew: map<string, real>)
    ensures Whole(p + (g + (c + (a + (d + f)))), s, goalEps, slew)
      == Whole(p, s, goalEps, slew) + (Whole(g, s, goalEps, slew) + (Whole(c, s, goalEps, slew)
         + (Whole(a, s, goalEps, slew) + (Whole(d, s, goalEps, slew) + Whole(f, s, goalEps, slew)))))
  {
    hide Total;
    var ev := EventOf(s, goalEps);
    TotalSplits(d, f, ev, slew, |f|);
    TotalSplits(a, d + f, ev, slew, |d + f|);
    TotalSplits(c, a + (d + f), ev, slew, |a + (d + f)|);
    TotalSplits(g, c + (a + (d + f)), ev, slew, |c + (a + (d + f))|);
    TotalSplits(p, g + (c + (a + (d + f))), ev, slew, |g + (c + (a + (d + f)))|);
  }

  lemma RestPays(cfg: Legacy, s: StepFacts, goalEps: real, slew: map<string, real>)
    requires SignsAccepted(cfg) && s.action >= 0.0
    ensures Rest(cfg, s, goalEps) == Whole(Penalties(cfg.collision, "collision"), s, goalEps, slew)
      + (Whole(Penalties(cfg.actionPenalty, "action_magnitude"), s, goalEps, slew)
         + Whole(Bonuses(cfg.dwell, "goal_hold"), s, goalEps, slew))
    ensures FallPaid(cfg, s) == Whole(Penalties(cfg.fallPenalty, "collision"), s, goalEps, slew)
  {
    hide Whole, Penalties, Bonuses, FeaturesOf, Indicator;
    FeatureValues(s, goalEps);
    PenaltyPays(cfg.collision, "collision", s, goalEps, slew);
    PenaltyPays(cfg.actionPenalty, "action_magnitude", s, goalEps, slew);
    BonusPays(cfg.dwell, "goal_hold", s, goalEps, slew);
    PenaltyPays(cfg.fallPenalty, "collision", s, goalEps, slew);
  }

  lemma FeatureValues(s: StepFacts, goalEps: real)
    ensures
      var f := FeaturesOf(s, goalEps);
      && "collision" in f && f["collision"] == Indicator(s.collided) >= 0.0
      && "action_magnitude" in f && f["action_magnitude"] == s.action
      && "goal_hold" in f && f["goal_hold"] == Indicator(s.distance < goalEps * 1.5)
  {
  }

  /** What the expanded terms pay, term by term. */
  lemma TermsPay(cfg: Legacy, s: StepFacts, goalEps: real, slew: map<string, real>)
    requires SignsAccepted(cfg) && s.action >= 0.0
    ensures Whole(Terms(cfg), s, goalEps, slew)
            == Closed(Abs(Or(cfg.progress, 0.0)), s) + GoalPaid(Abs(Or(cfg.goal, 0.0)), s.success, Look(slew, "goal_reach"))
               + Rest(cfg, s, goalEps) + FallPaid(cfg, s)
  {
    hide Whole, Penalties, Bonuses, Magnitude, Rest, FeaturesOf, SignsAccepted, Abs, Closed, GoalPaid, FallPaid, Look;
    ProgressPays(cfg, s, goalEps, slew);
    GoalPays(cfg, s, goalEps, slew);
    RestPays(cfg, s, goalEps, slew);
    SixParts(Magnitude(cfg.progress, Potential, "progress", Falls), Magnitude(cfg.goal, RateLimit, "goal_reach", Rises),
             Penalties(cfg.collision, "collision"), Penalties(cfg.actionPenalty, "action_magnitude"),
             Bonuses(cfg.dwell, "goal_hold"), Penalties(cfg.fallPenalty, "collision"), s, goalEps, slew);
  }

  predicate Unlimited(part: seq<Entry>) {
    forall k :: 0 <= k < |part| ==> Declared(part[k]) && part[k].op != RateLimit
  }

  lemma UnlimitedJoins(a: seq<Entry>, b: seq<Entry>)
    requires Unlimited(a) && Unlimited(b)
    ensures Unlimited(a + b)
  {
    hide Declared;
  }

  lemma PartsUnlimited(cfg: Legacy)
    ensures Unlimited(Magnitude(cfg.progress, Potential, "progress", Falls))
    ensures Unlimited(Penalties(cfg.collision, "collision")) && Unlimited(Penalties(cfg.actionPenalty, "action_magnitude"))
    ensures Unlimited(Bonuses(cfg.dwell, "goal_hold")) && Unlimited(Penalties(cfg.fallPenalty, "collision"))
  {
    hide Abs;
  }

  lemma TermsShape(cfg: Legacy)
    ensures forall k :: 0 <= k < |Terms(cfg)| ==> Declared(Terms(cfg)[k])
    ensures forall k :: 0 <= k < |Terms(cfg)| && Terms(cfg)[k].op == RateLimit ==>
      k == |Magnitude(cfg.progress, Potential, "progress", Falls)|
  {
    PartsUnlimited(cfg);
    var p, g := Magnitude(cfg.progress, Potential, "progress", Falls), Magnitude(cfg.goal, RateLimit, "goal_reach", Rises);
    var c, a := Penalties(cfg.collision, "collision"), Penalties(cfg.actionPenalty, "action_magnitude");
    var d, f := Bonuses(cfg.dwell, "goal_hold"), Penalties(cfg.fallPenalty, "collision");
    assert |g| <= 1 && (g != [] ==> Declared(g[0]));
    hide Magnitude, Penalties, Bonuses, Declared;
    UnlimitedJoins(d, f);
    UnlimitedJoins(a, d + f);
    UnlimitedJoins(c, a + (d + f));
    ShapeOfThree(p, g, c + (a + (d + f)));
  }

  lemma ShapeOfThree(p: seq<Entry>, g: seq<Entry>, tail: seq<Entry>)
    requires Unlimited(p) && |g| <= 1 && (g != [] ==> Declared(g[0])) && Unlimited(tail)
    ensures
      var all := p + (g + tail);
      && (forall k :: 0 <= k < |all| ==> Declared(all[k]))
      && forall k :: 0 <= k < |all| && all[k].op == RateLimit ==> k == |p|
  {
    hide Declared;
  }

  lemma {:induction false} NoLimitBefore(formula: seq<Entry>, term: string, n: nat)
    requires n <= |formula| && forall k :: 0 <= k < n ==> formula[k].op != RateLimit
    ensures Limits(formula, term, n) == 0
  {
    if n > 0 { NoLimitBefore(formula, term, n - 1); }
  }

  lemma TermsSlewOnce(cfg: Legacy)
    ensures SlewsOnce(Terms(cfg))
  {
    TermsShape(cfg);
    hide Terms;
    forall p | 0 <= p < |Terms(cfg)| && Terms(cfg)[p].op == RateLimit
      ensures Limits(Terms(cfg), Terms(cfg)[p].term, p) == 0
    {
      NoLimitBefore(Terms(cfg), Terms(cfg)[p].term, p);
    }
  }

  /** The evaluation of the expansion on one step, whatever has been released before. */
  lemma ExpansionPays(cfg: Legacy, s: StepFacts, goalEps: real, slew: map<string, real>)
    requires Expand(cfg).Some? && s.action >= 0.0
    ensures
      var t := Upto(Expand(cfg).value, EventOf(s, goalEps), slew, |Expand(cfg).value|);
      && !t.raised
      && t.total == Closed(Abs(Or(cfg.progress, 0.0)), s) + GoalPaid(Abs(Or(cfg.goal, 0.0)), s.success, Look(slew, "goal_reach"))
                    + Rest(cfg, s, goalEps) + FallPaid(cfg, s)
  {
    var formula, ev := Terms(cfg), EventOf(s, goalEps);
    assert SignsAccepted(cfg) && Expand(cfg).value == formula;
    TermsShape(cfg);
    TermsSlewOnce(cfg);
    TermsPay(cfg, s, goalEps, slew);
    hide Terms, Upto, Total, SumPaid, Closed, GoalPaid, Rest, FallPaid, Abs, Look, SlewsOnce, FeaturesOf;
    DeclaredNeverRaises(formula, ev, slew, |formula|);
    TallyAddsUp(formula, ev, slew, |formula|);
    SumPaidIsTotal(formula, ev, slew, |formula|);
  }

  lemma HistoryPays(cfg: Legacy, s: StepFacts, goalEps: real, fallPenalty: Option<real>, fallen: bool)
    ensures HistoricalReward(cfg, s, goalEps, fallPenalty, fallen)
            == Closed(Or(cfg.progress, 0.0), s) + (if s.success then Or(cfg.goal, 0.0) else 0.0) + Rest(cfg, s, goalEps)
               - (if fallPenalty.Some? && fallen then fallPenalty.value else 0.0)
  {
    hide Closed;
    ClosedIs(Or(cfg.progress, 0.0), s);
  }

  lemma ClosedIs(w: real, s: StepFacts)
    ensures Closed(w, s) == w * (s.previous - s.distance)
  {
  }

  // ----- When the two agree -----

  /** By how much the expansion pays more: the sign of progress and the pace of the goal. */
  function ProgressShift(cfg: Legacy, s: StepFacts): real {
    Closed(Abs(Or(cfg.progress, 0.0)), s) - Closed(Or(cfg.progress, 0.0), s)
  }

  function GoalShift(cfg: Legacy, s: StepFacts, released: real): real {
    GoalPaid(Abs(Or(cfg.goal, 0.0)), s.success, released) - if s.success then Or(cfg.goal, 0.0) else 0.0
  }

  /** A fall is measured as a collision and its penalty is the magnitude of the configured one. */
  function FallOf(cfg: Legacy): Option<real> {
    if cfg.fallPenalty.None? then None else Some(-cfg.fallPenalty.value)
  }

  lemma ExpansionDiffersBy(cfg: Legacy, s: StepFacts, goalEps: real, slew: map<string, real>)
    requires Expand(cfg).Some? && s.action >= 0.0
    ensures
      var t := Upto(Expand(cfg).value, EventOf(s, goalEps), slew, |Expand(cfg).value|);
      && !t.raised
      && t.total == HistoricalReward(cfg, s, goalEps, FallOf(cfg), s.collided)
                    + ProgressShift(cfg, s) + GoalShift(cfg, s, Look(slew, "goal_reach"))
  {
    ExpansionPays(cfg, s, goalEps, slew);
    HistoryPays(cfg, s, goalEps, FallOf(cfg), s.collided);
    hide Upto, Expand, HistoricalReward, Rest, Closed, GoalPaid, Abs, Look, FeaturesOf;
  }

  /** Before any success the goal is paid alike; on the first success a goal is paid a tenth of its magnitude. */
  predicate Agrees(progress: real, goal: real, closed: real, success: bool) {
    if !success then progress >= 0.0 || closed == 0.0
    else if progress >= 0.0 || closed == 0.0 then goal == 0.0
    else -2.0 * progress * closed == if goal >= 0.0 then 0.9 * goal else 1.1 * goal
  }

  /**
   For every accepted map and every step of an episode up to its first success, the expansion pays what
   the historical formula paid exactly under `Agrees`.
   */
  lemma ExpansionMatchesHistory(cfg: Legacy, s: StepFacts, goalEps: real, slew: map<string, real>)
    requires Expand(cfg).Some? && s.action >= 0.0 && Look(slew, "goal_reach") == 0.0
    ensures
      var t := Upto(Expand(cfg).value, EventOf(s, goalEps), slew, |Expand(cfg).value|);
      && !t.raised
      && (t.total == HistoricalReward(cfg, s, goalEps, FallOf(cfg), s.collided) <==>
          Agrees(Or(cfg.progress, 0.0), Or(cfg.goal, 0.0), s.previous - s.distance, s.success))
  {
    ExpansionDiffersBy(cfg, s, goalEps, slew);
    hide Upto, Expand, HistoricalReward, ProgressShift, GoalShift, Look, Agrees;
    ShiftsCancel(cfg, s);
  }

  lemma ShiftsCancel(cfg: Legacy, s: StepFacts)
    ensures ProgressShift(cfg, s) + GoalShift(cfg, s, 0.0) == 0.0 <==>
      Agrees(Or(cfg.progress, 0.0), Or(cfg.goal, 0.0), s.previous - s.distance, s.success)
  {
    var p, g, d := Or(cfg.progress, 0.0), Or(cfg.goal, 0.0), s.previous - s.distance;
    assert ProgressShift(cfg, s) == if p >= 0.0 then 0.0 else -2.0 * p * d;
    assert GoalShift(cfg, s, 0.0) == if !s.success then 0.0 else if g >= 0.0 then -0.9 * g else -1.1 * g;
    ProductIsZero(p, d);
  }

  lemma ProductIsZero(p: real, d: real)
    ensures -2.0 * p * d == 0.0 <==> p == 0.0 || d == 0.0
  {
  }

  // ----- The inputs on which they differ -----

  function Only(progress: real, goal: real): Legacy {
    Legacy(Some(progress), Some(goal), None, None, None, None)
  }

  const HALF_WAY: StepFacts := StepFacts(1.0, 0.5, 0.0, true, false)

  lemma SmallMapIsAccepted(progress: real, goal: real)
    requires Abs(progress) <= MAX_WEIGHT && Abs(goal) <= MAX_WEIGHT
    ensures Expand(Only(progress, goal)).Some?
  {
  }

  /** A success that closes half a unit: a goal of 10 pays 1, and the signs of goal and progress are dropped. */
  lemma SuccessDiffers(goalEps: real)
    ensures
      var t := Upto(Terms(Only(1.0, 10.0)), EventOf(HALF_WAY, goalEps), map[], |Terms(Only(1.0, 10.0))|);
      t.total == 1.5 && HistoricalReward(Only(1.0, 10.0), HALF_WAY, goalEps, None, false) == 10.5
    ensures
      var t := Upto(Terms(Only(1.0, -5.0)), EventOf(HALF_WAY, goalEps), map[], |Terms(Only(1.0, -5.0))|);
      t.total == 1.0 && HistoricalReward(Only(1.0, -5.0), HALF_WAY, goalEps, None, false) == -4.5
    ensures
      var t := Upto(Terms(Only(-1.0, 0.0)), EventOf(HALF_WAY, goalEps), map[], |Terms(Only(-1.0, 0.0))|);
      t.total == 0.5 && HistoricalReward(Only(-1.0, 0.0), HALF_WAY, goalEps, None, false) == -0.5
  {
    OnlyPays(1.0, 10.0, goalEps);
    OnlyPays(1.0, -5.0, goalEps);
    OnlyPays(-1.0, 0.0, goalEps);
  }

  lemma OnlyPays(progress: real, goal: real, goalEps: real)
    requires Abs(progress) <= MAX_WEIGHT && Abs(goal) <= MAX_WEIGHT
    ensures
      var formula := Terms(Only(progress, goal));
      Upto(formula, EventOf(HALF_WAY, goalEps), map[], |formula|).total == Abs(progress) * 0.5 + Abs(goal) * 0.1
    ensures HistoricalReward(Only(progress, goal), HALF_WAY, goalEps, None, false) == progress * 0.5 + goal
  {
    var cfg := Only(progress, goal);
    SmallMapIsAccepted(progress, goal);
    ExpansionPays(cfg, HALF_WAY, goalEps, map[]);
    HistoryPays(cfg, HALF_WAY, goalEps, None, false);
    assert Expand(cfg).value == Terms(cfg) && Rest(cfg, HALF_WAY, goalEps) == 0.0 && FallPaid(cfg, HALF_WAY) == 0.0;
    hide Upto, Terms, Expand, HistoricalReward, Rest, FallPaid, FeaturesOf;
    assert Look(map[], "goal_reach") == 0.0;
  }

  // ----- The goal over an episode -----

  /** A step that reaches the goal measures one, any other zero. */
  predicate Indicators(values: seq<real>) {
    forall i :: 0 <= i < |values| ==> values[i] == 0.0 || values[i] == 1.0
  }

  /** The number of steps since the goal was last missed. */
  function Held(values: seq<real>): nat {
    if values == [] || values[|values| - 1] == 0.0 then 0 else Held(values[..|values| - 1]) + 1
  }

  /** A miss takes back all that was released; what counts is how long the goal has been held. */
  lemma {:induction false} HoldingChases(values: seq<real>)
    requires Indicators(values)
    ensures Chase(1, values) == Min(1.0, Held(values) as real * RATE_LIMIT_SLEW)
  {
    if values != [] {
      var n := |values| - 1;
      HoldingChases(values[..n]);
      assert values == values[..n] + [values[n]];
      ChaseExtends(1, values[..n], values[n]);
    }
  }

  lemma {:induction false} OnlyEntryPays(formula: seq<Entry>, p: nat, events: seq<EnvEvent>, k: nat, n: nat)
    requires p < |formula| && n <= |formula| && k <= |events|
    requires forall q :: 0 <= q < |formula| && q != p ==> formula[q].term != formula[p].term
    ensures EntriesPay(formula, formula[p].term, events, k, n) == if n <= p then 0.0 else EpisodePay(formula, p, events, k)
  {
    hide EpisodePay;
    if n > 0 { OnlyEntryPays(formula, p, events, k, n - 1); }
  }

  /** Where the goal stands in the expansion, and that it stands alone. */
  lemma GoalStandsAlone(cfg: Legacy) returns (p: nat)
    requires Or(cfg.goal, 0.0) != 0.0
    ensures p < |Terms(cfg)| && Terms(cfg)[p] == Entry(RateLimit, "goal_reach", Abs(cfg.goal.value), Rises, None)
    ensures forall q :: 0 <= q < |Terms(cfg)| && q != p ==> Terms(cfg)[q].term != "goal_reach"
  {
    p := |Magnitude(cfg.progress, Potential, "progress", Falls)|;
  }

  lemma {:induction false} LimitsOfLoner(formula: seq<Entry>, p: nat, n: nat)
    requires p < |formula| && n <= |formula| && formula[p].op == RateLimit
    requires forall q :: 0 <= q < |formula| && q != p ==> formula[q].term != formula[p].term
    ensures Limits(formula, formula[p].term, n) == if n <= p then 0 else 1
  {
    if n > 0 { LimitsOfLoner(formula, p, n - 1); }
  }

  /** A term's only entry pays its weight times the chased target. */
  lemma LonerChases(formula: seq<Entry>, p: nat, term: string, w: real, events: seq<EnvEvent>, k: nat, target: real)
    requires p < |formula| && formula[p].op == RateLimit && formula[p].term == term && formula[p].weight == w
    requires forall q :: 0 <= q < |formula| && q != p ==> formula[q].term != term
    requires k <= |events| && !EnvRun(formula, events, k).over && target == Chase(1, EpisodeValues(term, events, k))
    ensures TermPay(formula, term, events, k) == Times(w, target)
  {
    hide EnvRun, TermPay, EntriesPay, EpisodePay, EpisodeValues, Limits, Chase;
    LimitsOfLoner(formula, p, |formula|);
    TermPaysEntries(formula, term, events, k);
    OnlyEntryPays(formula, p, events, k, |formula|);
    EpisodePaysTarget(formula, p, events, k);
  }

  /**
   An episode that ends with `Held` steps at the goal has been paid a tenth of the goal's magnitude for
   each of them, up to ten, where the historical formula paid the whole goal for every step at it: the
   goal is paid once exactly when it is positive and the episode ends with at least ten steps at it.
   */
  lemma GoalOverEpisode(cfg: Legacy, events: seq<EnvEvent>, k: nat)
    requires Expand(cfg).Some? && Or(cfg.goal, 0.0) != 0.0 && k <= |events|
    requires !EnvRun(Expand(cfg).value, events, k).over && Indicators(EpisodeValues("goal_reach", events, k))
    ensures
      var paid := TermPay(Expand(cfg).value, "goal_reach", events, k);
      var hits := Held(EpisodeValues("goal_reach", events, k));
      && paid == Times(Abs(cfg.goal.value), Min(1.0, hits as real * RATE_LIMIT_SLEW))
      && (paid == cfg.goal.value <==> cfg.goal.value > 0.0 && hits >= 10)
  {
    assert Expand(cfg).value == Terms(cfg);
    hide Terms, Expand, EnvRun, TermPay, EpisodeValues, Chase, Held, Indicators, Abs, Min, Times;
    var values := EpisodeValues("goal_reach", events, k);
    var p := GoalStandsAlone(cfg);
    HoldingChases(values);
    LonerChases(Terms(cfg), p, "goal_reach", Abs(cfg.goal.value), events, k, Min(1.0, Held(values) as real * RATE_LIMIT_SLEW));
    OneShot(cfg.goal.value, Held(values));
  }

  /** Ten successes and then a miss have paid nothing; a success, a miss and a success pay a tenth. */
  lemma MissTakesBack()
    ensures
      var ten := seq(10, _ => 1.0);
      && Chase(1, ten) == 1.0 && Chase(1, ten + [0.0]) == 0.0 && Chase(1, [1.0, 0.0, 1.0]) == RATE_LIMIT_SLEW
  {
    var ten := seq(10, _ => 1.0);
    OnesHeld(10);
    HoldingChases(ten);
    HoldingChases(ten + [0.0]);
    HoldingChases([1.0, 0.0, 1.0]);
    assert [1.0, 0.0, 1.0][..2] == [1.0, 0.0];
  }

  lemma {:induction false} OnesHeld(n: nat)
    ensures Held(seq(n, _ => 1.0)) == n
  {
    if n > 0 {
      OnesHeld(n - 1);
      assert seq(n, _ => 1.0)[..n - 1] == seq(n - 1, _ => 1.0);
    }
  }

  lemma OneShot(goal: real, hits: nat)
    requires goal != 0.0
    ensures Times(Abs(goal), Min(1.0, hits as real * RATE_LIMIT_SLEW)) == goal <==> goal > 0.0 && hits >= 10
  {
    var released := Min(1.0, hits as real * RATE_LIMIT_SLEW);
    assert released == 1.0 <==> hits >= 10;
    if goal > 0.0 {
      assert goal * released == goal <==> goal * (released - 1.0) == 0.0;
    } else {
      assert 0.0 <= released && Abs(goal) * released >= 0.0;
    }
  }
}
