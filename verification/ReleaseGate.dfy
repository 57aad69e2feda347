/**
 `validateTaskPackEvalForRelease`: the checks, each pushing onto a list of errors, and what a
 report that passes them guarantees about the true rates behind its counts.
 */
module ReleaseGate {
  import opened Outcomes
  import opened RealFacts
  import opened Wilson

  /**
   A field of an untyped report.  `Other` is any value of another type; `coerced` is what
   `Number(value)` makes of it, with NaN and infinities as `None`.
   */
  datatype Raw = Absent | Number(x: real) | NotFinite | Other(coerced: Option<real>)

  datatype Envelope = Envelope(
    successRate: Raw, collisionRate: Raw, successRateCiLow: Raw, collisionRateCiHigh: Raw,
    episodes: Raw, actionChangeRms: Raw)

  datatype Ablation = Ablation(requireBaseline: bool, minSuccessRateDelta: Raw)

  /** `gateOn` is present only when it is a string; absent records are `None`. */
  datatype Criteria = Criteria(
    minSuccessRate: Raw, maxCollisionRate: Raw, gateOn: Option<string>,
    maxActionChangeRms: Raw, ablation: Option<Ablation>)

  datatype Report = Report(
    taskId: string, criteria: Criteria, confidenceLevel: Raw,
    nominal: Option<Envelope>, baseline: Option<Envelope>)

  datatype GateError =
    | ReportMissing | TaskMismatch | UnknownGateOn | BadConfidence
    | BadCriterion | BadMetric | BadEpisodes | BoundsMissing | FloorMismatch | CeilingMismatch
    | MetricsMissing | JudgeMissing | BelowGate | AboveGate
    | RmsMissing | RmsAbove | BaselineMissing | RateMissing | DeltaBelow

  const NO_ENVELOPE := Envelope(Absent, Absent, Absent, Absent, Absent, Absent)

  function EnvelopeOf(e: Option<Envelope>): Envelope {
    if e.Some? then e.value else NO_ENVELOPE
  }

  // ----- Reading fields -----

  function Rate(raw: Raw): Option<real> {
    if raw.Number? && 0.0 <= raw.x <= 1.0 then Some(raw.x) else None
  }

  function Episodes(raw: Raw): Option<real> {
    if raw.Number? && IsSafeInteger(raw.x) && raw.x >= 1.0 then Some(raw.x) else None
  }

  function NonNegative(raw: Raw): Option<real> {
    if raw.Number? && 0.0 <= raw.x <= 1_000_000.0 then Some(raw.x) else None
  }

  function Finite(raw: Raw): Option<real> {
    if raw.Number? then Some(raw.x) else None
  }

  function Confidence(raw: Raw): Option<real> {
    match raw
    case Absent => Some(0.95)
    case Number(x) => Some(x)
    case NotFinite => None
    case Other(coerced) => coerced
  }

  predicate Supported(confidence: Option<real>) {
    confidence == Some(0.9) || confidence == Some(0.95) || confidence == Some(0.99)
  }

  function Distance(a: real, b: real): real {
    if a < b then b - a else a - b
  }

  predicate OnInterval(c: Criteria) {
    c.gateOn == Some("ciLowerBound")
  }

  // ----- When a report conforms -----

  predicate Declared(raw: Raw, read: Option<real>) {
    raw != Absent ==> read.Some?
  }

  predicate WellFormed(r: Report) {
    var c, e := r.criteria, EnvelopeOf(r.nominal);
    && (c.gateOn.None? || c.gateOn.value == "point" || c.gateOn.value == "ciLowerBound")
    && (r.confidenceLevel == Absent || Supported(Confidence(r.confidenceLevel)))
    && Declared(c.minSuccessRate, Rate(c.minSuccessRate))
    && Declared(c.maxCollisionRate, Rate(c.maxCollisionRate))
    && Declared(e.successRate, Rate(e.successRate)) && Declared(e.collisionRate, Rate(e.collisionRate))
    && Declared(e.successRateCiLow, Rate(e.successRateCiLow))
    && Declared(e.collisionRateCiHigh, Rate(e.collisionRateCiHigh))
    && Declared(e.episodes, Episodes(e.episodes))
  }

  /** The recomputed bound is within 0.01 of the reported one, unless it cannot be recomputed. */
  predicate FloorAgrees(sqrt: real -> real, rate: real, episodes: real, confidence: Option<real>, reported: real) {
    Supported(confidence) ==>
      var b := WilsonBounds(sqrt, Round(rate * episodes) as real, episodes, confidence.value);
      b.Some? ==> Distance(b.value.low, reported) <= 0.01
  }

  predicate CeilingAgrees(sqrt: real -> real, rate: real, episodes: real, confidence: Option<real>, reported: real) {
    Supported(confidence) ==>
      var b := WilsonBounds(sqrt, Round(rate * episodes) as real, episodes, confidence.value);
      b.Some? ==> Distance(b.value.high, reported) <= 0.01
  }

  predicate IntervalChecks(sqrt: real -> real, r: Report) {
    var e, confidence := EnvelopeOf(r.nominal), Confidence(r.confidenceLevel);
    var low, high := Rate(e.successRateCiLow), Rate(e.collisionRateCiHigh);
    var success, collision, episodes := Rate(e.successRate), Rate(e.collisionRate), Episodes(e.episodes);
    && low.Some? && high.Some?
    && (episodes.Some? && success.Some? ==>
          && FloorAgrees(sqrt, success.value, episodes.value, confidence, low.value)
          && (collision.Some? ==> CeilingAgrees(sqrt, collision.value, episodes.value, confidence, high.value)))
  }

  predicate ThresholdsMet(r: Report) {
    var c, e := r.criteria, EnvelopeOf(r.nominal);
    var floor := Rate(if OnInterval(c) then e.successRateCiLow else e.successRate);
    var ceiling := Rate(if OnInterval(c) then e.collisionRateCiHigh else e.collisionRate);
    && (Rate(c.minSuccessRate).Some? ==> floor.Some? && floor.value >= Rate(c.minSuccessRate).value)
    && (Rate(c.maxCollisionRate).Some? ==> ceiling.Some? && ceiling.value <= Rate(c.maxCollisionRate).value)
  }

  predicate SmoothEnough(r: Report) {
    var limit, rms := Finite(r.criteria.maxActionChangeRms), NonNegative(EnvelopeOf(r.nominal).actionChangeRms);
    && Declared(r.criteria.maxActionChangeRms, limit)
    && (limit.Some? ==> rms.Some? && rms.value <= limit.value)
  }

  predicate BeatsBaseline(r: Report) {
    r.criteria.ablation.Some? ==>
      var a := r.criteria.ablation.value;
      var delta := Finite(a.minSuccessRateDelta);
      var trained, baseline := Rate(EnvelopeOf(r.nominal).successRate), Rate(EnvelopeOf(r.baseline).successRate);
      && Declared(a.minSuccessRateDelta, delta)
      && (a.requireBaseline ==> r.baseline.Some?)
      && (delta.Some? ==> trained.Some? && baseline.Some? && trained.value - baseline.value >= delta.value)
  }

  predicate Releasable(sqrt: real -> real, r: Report, taskId: string) {
    var e := EnvelopeOf(r.nominal);
    && r.taskId == taskId && WellFormed(r)
    && (OnInterval(r.criteria) ==> IntervalChecks(sqrt, r))
    && Rate(e.successRate).Some? && Rate(e.collisionRate).Some?
    && ThresholdsMet(r) && SmoothEnough(r) && BeatsBaseline(r)
  }

  // ----- The checks, in their order -----

  method CheckFields(r: Report) returns (errors: seq<GateError>)
    ensures errors == [] <==> WellFormed(r)
  {
    var c, e := r.criteria, EnvelopeOf(r.nominal);
    errors := [];
    var gateOn := if c.gateOn.Some? then c.gateOn.value else "point";
    if gateOn != "point" && gateOn != "ciLowerBound" { errors := errors + [UnknownGateOn]; }
    if r.confidenceLevel != Absent && !Supported(Confidence(r.confidenceLevel)) { errors := errors + [BadConfidence]; }
    if c.minSuccessRate != Absent && Rate(c.minSuccessRate).None? { errors := errors + [BadCriterion]; }
    if c.maxCollisionRate != Absent && Rate(c.maxCollisionRate).None? { errors := errors + [BadCriterion]; }
    var metrics := [e.successRate, e.collisionRate, e.successRateCiLow, e.collisionRateCiHigh];
    var before := errors;
    for i := 0 to |metrics|
      invariant errors == [] <==> before == [] && forall j :: 0 <= j < i ==> Declared(metrics[j], Rate(metrics[j]))
    {
      if metrics[i] != Absent && Rate(metrics[i]).None? { errors := errors + [BadMetric]; }
    }
    assert forall j :: 0 <= j < |metrics| ==> metrics[j] in metrics;
    assert metrics[0] == e.successRate && metrics[1] == e.collisionRate;
    assert metrics[2] == e.successRateCiLow && metrics[3] == e.collisionRateCiHigh;
    if e.episodes != Absent && Episodes(e.episodes).None? { errors := errors + [BadEpisodes]; }
  }

  method CheckInterval(sqrt: real -> real, r: Report) returns (errors: seq<GateError>)
    ensures errors == [] <==> IntervalChecks(sqrt, r)
  {
    var e, confidence := EnvelopeOf(r.nominal), Confidence(r.confidenceLevel);
    var low, high := Rate(e.successRateCiLow), Rate(e.collisionRateCiHigh);
    var success, collision, episodes := Rate(e.successRate), Rate(e.collisionRate), Episodes(e.episodes);
    errors := [];
    if low.None? || high.None? {
      errors := errors + [BoundsMissing];
    } else if episodes.Some? && success.Some? {
      if !FloorAgrees(sqrt, success.value, episodes.value, confidence, low.value) {
        errors := errors + [FloorMismatch];
      }
      if collision.Some? && !CeilingAgrees(sqrt, collision.value, episodes.value, confidence, high.value) {
        errors := errors + [CeilingMismatch];
      }
    }
  }

  method CheckThresholds(r: Report) returns (errors: seq<GateError>)
    ensures errors == [] <==> ThresholdsMet(r)
  {
    var c, e := r.criteria, EnvelopeOf(r.nominal);
    errors := [];
    if Rate(c.minSuccessRate).Some? {
      var judge := if OnInterval(c) then Rate(e.successRateCiLow) else Rate(e.successRate);
      if judge.None? { errors := errors + [JudgeMissing]; }
      else if judge.value < Rate(c.minSuccessRate).value { errors := errors + [BelowGate]; }
    }
    if Rate(c.maxCollisionRate).Some? {
      var judge := if OnInterval(c) then Rate(e.collisionRateCiHigh) else Rate(e.collisionRate);
      if judge.None? { errors := errors + [JudgeMissing]; }
      else if judge.value > Rate(c.maxCollisionRate).value { errors := errors + [AboveGate]; }
    }
  }

  method CheckSmoothness(r: Report) returns (errors: seq<GateError>)
    ensures errors == [] <==> SmoothEnough(r)
  {
    var limit, rms := Finite(r.criteria.maxActionChangeRms), NonNegative(EnvelopeOf(r.nominal).actionChangeRms);
    errors := [];
    if r.criteria.maxActionChangeRms != Absent && limit.None? { errors := errors + [BadCriterion]; }
    if limit.Some? {
      if rms.None? { errors := errors + [RmsMissing]; }
      else if rms.value > limit.value { errors := errors + [RmsAbove]; }
    }
  }

  method CheckAblation(r: Report) returns (errors: seq<GateError>)
    ensures errors == [] <==> BeatsBaseline(r)
  {
    errors := [];
    if r.criteria.ablation.None? { return; }
    var a := r.criteria.ablation.value;
    var delta := Finite(a.minSuccessRateDelta);
    if a.minSuccessRateDelta != Absent && delta.None? { errors := errors + [BadCriterion]; }
    var trained, baseline := Rate(EnvelopeOf(r.nominal).successRate), Rate(EnvelopeOf(r.baseline).successRate);
    if a.requireBaseline && r.baseline.None? {
      errors := errors + [BaselineMissing];
    } else if delta.Some? {
      if trained.None? { errors := errors + [RateMissing]; }
      else if baseline.None? { errors := errors + [RateMissing]; }
      else if trained.value - baseline.value < delta.value { errors := errors + [DeltaBelow]; }
    }
  }

  method ValidateForRelease(sqrt: real -> real, report: Option<Report>, taskId: string)
    returns (passed: bool, errors: seq<GateError>)
    ensures passed <==> errors == []
    ensures passed <==> report.Some? && Releasable(sqrt, report.value, taskId)
  {
    if report.None? { return false, [ReportMissing]; }
    var r := report.value;
    var e := EnvelopeOf(r.nominal);
    errors := if r.taskId != taskId then [TaskMismatch] else [];
    var found := CheckFields(r);
    errors := errors + found;
    if OnInterval(r.criteria) {
      found := CheckInterval(sqrt, r);
      errors := errors + found;
    }
    if Rate(e.successRate).None? || Rate(e.collisionRate).None? { errors := errors + [MetricsMissing]; }
    found := CheckThresholds(r);
    errors := errors + found;
    found := CheckSmoothness(r);
    errors := errors + found;
    found := CheckAblation(r);
    errors := errors + found;
    passed := errors == [];
  }

  // ----- What passing guarantees -----

  lemma IntegersOrdered(a: int, b: int)
    requires (a as real) < b as real + 1.0
    ensures a <= b && a as real <= b as real
  {
  }

  lemma RoundWithin(y: real, n: real)
    requires 0.0 <= y <= n && IsInteger(n)
    ensures 0.0 <= Round(y) as real <= n
    ensures Distance(Round(y) as real, y) <= 0.5
  {
    var m, k := (y + 0.5).Floor, n.Floor;
    assert m as real <= y + 0.5 < m as real + 1.0;
    IntegersOrdered(m, k);
    IntegersOrdered(0, m);
  }

  /** A rate rounds to a count of the episodes. */
  lemma RoundedCount(rate: real, n: real)
    requires 0.0 <= rate <= 1.0 && IsInteger(n) && n >= 1.0
    ensures 0.0 <= rate * n <= n && 0.0 <= Round(rate * n) as real <= n
    ensures Distance(Round(rate * n) as real, rate * n) <= 0.5
  {
    PartOf(rate, n);
    var y := rate * n;
    RoundWithin(y, n);
  }

  lemma PartOf(rate: real, n: real)
    requires 0.0 <= rate <= 1.0 && n >= 1.0
    ensures 0.0 <= rate * n <= n
  {
    ScaleBounds(n, 0.0, rate, 1.0);
    assert n * rate == rate * n;
  }

  lemma SupportedHasZ(confidence: real)
    requires Supported(Some(confidence))
    ensures WilsonZ(confidence).Some? && WilsonZ(confidence).value > 0.0
  {
    assert confidence * 100.0 == 90.0 || confidence * 100.0 == 95.0 || confidence * 100.0 == 99.0;
  }

  /** Every rate the score test accepts on the rounded count is at most 0.01 below `least`. */
  ghost predicate FloorHolds(sqrt: real -> real, rate: real, n: real, confidence: real, least: real) {
    && WilsonZ(confidence).Some? && n >= 1.0
    && var z, s := WilsonZ(confidence).value, Round(rate * n) as real;
    && 0.0 <= s <= n && Low(sqrt, z, s, n) >= least - 0.01
    && forall x :: Accepts(z, s, n, x) ==> x >= least - 0.01
  }

  ghost predicate CeilingHolds(sqrt: real -> real, rate: real, n: real, confidence: real, most: real) {
    && WilsonZ(confidence).Some? && n >= 1.0
    && var z, s := WilsonZ(confidence).value, Round(rate * n) as real;
    && 0.0 <= s <= n && High(sqrt, z, s, n) <= most + 0.01
    && forall x :: Accepts(z, s, n, x) ==> x <= most + 0.01
  }

  lemma FloorFromAgreement(sqrt: real -> real, rate: real, n: real, confidence: real, reported: real, least: real)
    requires IsSqrt(sqrt) && Supported(Some(confidence)) && 0.0 <= rate <= 1.0 && IsSafeInteger(n) && n >= 1.0
    requires FloorAgrees(sqrt, rate, n, Some(confidence), reported) && reported >= least
    ensures FloorHolds(sqrt, rate, n, confidence, least)
  {
    SupportedHasZ(confidence);
    RoundedCount(rate, n);
    var z, s := WilsonZ(confidence).value, Round(rate * n) as real;
    forall x | Accepts(z, s, n, x) ensures x >= Low(sqrt, z, s, n) {
      IntervalInvertsTest(sqrt, z, s, n, x);
    }
  }

  lemma CeilingFromAgreement(sqrt: real -> real, rate: real, n: real, confidence: real, reported: real, most: real)
    requires IsSqrt(sqrt) && Supported(Some(confidence)) && 0.0 <= rate <= 1.0 && IsSafeInteger(n) && n >= 1.0
    requires CeilingAgrees(sqrt, rate, n, Some(confidence), reported) && reported <= most
    ensures CeilingHolds(sqrt, rate, n, confidence, most)
  {
    SupportedHasZ(confidence);
    RoundedCount(rate, n);
    var z, s := WilsonZ(confidence).value, Round(rate * n) as real;
    forall x | Accepts(z, s, n, x) ensures x <= High(sqrt, z, s, n) {
      IntervalInvertsTest(sqrt, z, s, n, x);
    }
  }

  /**
   A report that passes on its interval, with episodes given, has real Wilson bounds on its
   rounded counts: the true floor is at most 0.01 short of the declared minimum, and the true
   ceiling at most 0.01 above the declared maximum.
   */
  lemma PassedBoundsAreReal(sqrt: real -> real, r: Report, taskId: string)
    requires IsSqrt(sqrt) && Releasable(sqrt, r, taskId) && OnInterval(r.criteria)
    requires Episodes(EnvelopeOf(r.nominal).episodes).Some?
    ensures
      var e, c := EnvelopeOf(r.nominal), r.criteria;
      && Confidence(r.confidenceLevel).Some? && Rate(e.successRate).Some? && Rate(e.collisionRate).Some?
      && var n, confidence := Episodes(e.episodes).value, Confidence(r.confidenceLevel).value;
      && (c.minSuccessRate != Absent ==>
            (&& Rate(c.minSuccessRate).Some?
             && FloorHolds(sqrt, Rate(e.successRate).value, n, confidence, Rate(c.minSuccessRate).value)))
      && (c.maxCollisionRate != Absent ==>
            (&& Rate(c.maxCollisionRate).Some?
             && CeilingHolds(sqrt, Rate(e.collisionRate).value, n, confidence, Rate(c.maxCollisionRate).value)))
  {
    var e, c := EnvelopeOf(r.nominal), r.criteria;
    var n, confidence := Episodes(e.episodes).value, Confidence(r.confidenceLevel).value;
    if c.minSuccessRate != Absent {
      FloorFromAgreement(sqrt, Rate(e.successRate).value, n, confidence,
                         Rate(e.successRateCiLow).value, Rate(c.minSuccessRate).value);
    }
    if c.maxCollisionRate != Absent {
      CeilingFromAgreement(sqrt, Rate(e.collisionRate).value, n, confidence,
                           Rate(e.collisionRateCiHigh).value, Rate(c.maxCollisionRate).value);
    }
  }

  /** The whole number of episodes behind a rate. */
  function CountOf(rate: real, n: real): real {
    Round(rate * n) as real
  }

  lemma RoundedIsSafe(rate: real, n: real)
    requires 0.0 <= rate <= 1.0 && IsSafeInteger(n) && n >= 1.0
    ensures IsSafeInteger(Round(rate * n) as real) && 0.0 <= Round(rate * n) as real <= n
  {
    RoundedCount(rate, n);
    assert (Round(rate * n) as real).Floor == Round(rate * n);
  }

  lemma ReadingsAreBounded(e: Envelope)
    ensures Rate(e.successRate).Some? ==> 0.0 <= Rate(e.successRate).value <= 1.0
    ensures Rate(e.collisionRate).Some? ==> 0.0 <= Rate(e.collisionRate).value <= 1.0
    ensures Episodes(e.episodes).Some? ==> IsSafeInteger(Episodes(e.episodes).value) && Episodes(e.episodes).value >= 1.0
  {
  }

  lemma AgreesExactly(sqrt: real -> real, rate: real, n: real, confidence: real, reported: real)
    requires Supported(Some(confidence)) && 0.0 <= rate <= 1.0 && IsSafeInteger(n) && n >= 1.0
    ensures WilsonZ(confidence).Some?
    ensures
      var z, s := WilsonZ(confidence).value, CountOf(rate, n);
      && (FloorAgrees(sqrt, rate, n, Some(confidence), reported) <==> Distance(Low(sqrt, z, s, n), reported) <= 0.01)
      && (CeilingAgrees(sqrt, rate, n, Some(confidence), reported) <==> Distance(High(sqrt, z, s, n), reported) <= 0.01)
  {
    hide IsSafeInteger, Center, Spread, Round, Distance;
    SupportedHasZ(confidence);
    RoundedIsSafe(rate, n);
  }

  /** With counts the interval checks pass exactly if both reported bounds are within 0.01 of the true ones. */
  lemma IntervalChecksExactly(sqrt: real -> real, r: Report)
    requires IsSqrt(sqrt) && Supported(Confidence(r.confidenceLevel))
    requires Episodes(EnvelopeOf(r.nominal).episodes).Some?
    requires Rate(EnvelopeOf(r.nominal).successRate).Some? && Rate(EnvelopeOf(r.nominal).collisionRate).Some?
    ensures
      var e, n := EnvelopeOf(r.nominal), Episodes(EnvelopeOf(r.nominal).episodes).value;
      var low, high := Rate(e.successRateCiLow), Rate(e.collisionRateCiHigh);
      && WilsonZ(Confidence(r.confidenceLevel).value).Some?
      && var z := WilsonZ(Confidence(r.confidenceLevel).value).value;
      var successes, collisions := CountOf(Rate(e.successRate).value, n), CountOf(Rate(e.collisionRate).value, n);
      IntervalChecks(sqrt, r) <==>
        && low.Some? && Distance(Low(sqrt, z, successes, n), low.value) <= 0.01
        && high.Some? && Distance(High(sqrt, z, collisions, n), high.value) <= 0.01
  {
    var e, n := EnvelopeOf(r.nominal), Episodes(EnvelopeOf(r.nominal).episodes).value;
    var confidence := Confidence(r.confidenceLevel).value;
    SupportedHasZ(confidence);
    assert Confidence(r.confidenceLevel) == Some(confidence);
    ReadingsAreBounded(e);
    hide CountOf, FloorAgrees, CeilingAgrees, Low, High, IsSqrt, WilsonZ, Distance, Rate, Episodes, Supported, IsSafeInteger;
    var low, high := Rate(e.successRateCiLow), Rate(e.collisionRateCiHigh);
    if low.Some? && high.Some? {
      AgreesExactly(sqrt, Rate(e.successRate).value, n, confidence, low.value);
      AgreesExactly(sqrt, Rate(e.collisionRate).value, n, confidence, high.value);
    }
  }

  // ----- Which way the verdict turns -----

  predicate AtLeast(a: Option<real>, b: Option<real>) {
    b.Some? ==> a.Some? && a.value >= b.value
  }

  predicate AtMost(a: Option<real>, b: Option<real>) {
    b.Some? ==> a.Some? && a.value <= b.value
  }

  /** No fewer successes and no more collisions or jerks, against no stronger baseline. */
  predicate NoWorse(better: Report, r: Report) {
    var e, f := EnvelopeOf(better.nominal), EnvelopeOf(r.nominal);
    var bar, former := Rate(EnvelopeOf(better.baseline).successRate), Rate(EnvelopeOf(r.baseline).successRate);
    && AtLeast(Rate(e.successRate), Rate(f.successRate)) && AtLeast(Rate(e.successRateCiLow), Rate(f.successRateCiLow))
    && AtMost(Rate(e.collisionRate), Rate(f.collisionRate)) && AtMost(Rate(e.collisionRateCiHigh), Rate(f.collisionRateCiHigh))
    && AtMost(NonNegative(e.actionChangeRms), NonNegative(f.actionChangeRms))
    && (r.baseline.Some? ==> better.baseline.Some?) && AtMost(bar, former)
  }

  /** A released task pack stays released when its measurements improve. */
  lemma BetterReportPasses(sqrt: real -> real, r: Report, better: Report, taskId: string)
    requires Releasable(sqrt, r, taskId)
    requires better == r.(nominal := better.nominal, baseline := better.baseline) && WellFormed(better)
    requires OnInterval(r.criteria) ==> IntervalChecks(sqrt, better)
    requires NoWorse(better, r)
    ensures Releasable(sqrt, better, taskId)
  {
    hide WellFormed, IntervalChecks, Rate, NonNegative;
  }

  // ----- What passing does not guarantee -----

  /** The same report with other observed rates. */
  function Observing(r: Report, success: real, collision: real): Report
    requires r.nominal.Some?
  {
    r.(nominal := Some(r.nominal.value.(successRate := Number(success), collisionRate := Number(collision))))
  }

  /**
   Without `episodes` the interval answers to the thresholds alone: any two observed rates give the
   same verdict, apart from the comparison with a baseline.
   */
  lemma RatesIgnoredWithoutEpisodes(sqrt: real -> real, r: Report, taskId: string, success: real, collision: real)
    requires OnInterval(r.criteria) && r.nominal.Some? && Episodes(r.nominal.value.episodes).None?
    requires Rate(r.nominal.value.successRate).Some? && Rate(r.nominal.value.collisionRate).Some?
    requires 0.0 <= success <= 1.0 && 0.0 <= collision <= 1.0
    ensures
      var other := Observing(r, success, collision);
      Releasable(sqrt, other, taskId) && BeatsBaseline(r) <==> Releasable(sqrt, r, taskId) && BeatsBaseline(other)
  {
    hide BeatsBaseline;
    var e, other := r.nominal.value, EnvelopeOf(Observing(r, success, collision).nominal);
    assert other == e.(successRate := Number(success), collisionRate := Number(collision));
  }

  /** On the point gate the observed rates decide, each against its declared threshold. */
  lemma PointVerdict(sqrt: real -> real, r: Report, taskId: string, success: real, collision: real)
    requires Releasable(sqrt, r, taskId) && !OnInterval(r.criteria) && r.nominal.Some?
    requires 0.0 <= success <= 1.0 && 0.0 <= collision <= 1.0
    ensures
      var c, baseline := r.criteria, Rate(EnvelopeOf(r.baseline).successRate);
      Releasable(sqrt, Observing(r, success, collision), taskId) <==>
        && (c.minSuccessRate.Number? ==> success >= c.minSuccessRate.x)
        && (c.maxCollisionRate.Number? ==> collision <= c.maxCollisionRate.x)
        && (c.ablation.Some? && c.ablation.value.minSuccessRateDelta.Number? ==>
              baseline.Some? && success >= baseline.value + c.ablation.value.minSuccessRateDelta.x)
  {
    var e, other := r.nominal.value, EnvelopeOf(Observing(r, success, collision).nominal);
    assert other == e.(successRate := Number(success), collisionRate := Number(collision));
  }

  /** Nothing ever succeeded, everything collided, and the bounds say the opposite. */
  function Unsupported(taskId: string): Report {
    Report(taskId, Criteria(Number(1.0), Number(0.0), Some("ciLowerBound"), Absent, None), Absent,
           Some(Envelope(Number(0.0), Number(1.0), Number(1.0), Number(0.0), Absent, Absent)), None)
  }

  lemma UnsupportedIsReleasable(sqrt: real -> real, taskId: string)
    ensures Releasable(sqrt, Unsupported(taskId), taskId)
    ensures Rate(Unsupported(taskId).nominal.value.successRate) == Some(0.0)
    ensures Rate(Unsupported(taskId).nominal.value.collisionRate) == Some(1.0)
  {
    assert OnInterval(Unsupported(taskId).criteria);
  }
}
