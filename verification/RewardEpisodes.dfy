/**
 What the payments of an episode add up to, entry by entry, for every formula: repeated terms and
 repeated entries included.
 */
module RewardEpisodes {
  import opened Outcomes
  import opened RewardRuns
  import opened RewardVocabulary

  // ----- What each entry pays in one evaluation -----

  /** The first `n` entries on a measured step. */
  function Upto(formula: seq<Entry>, ev: EnvEvent, slew: map<string, real>, n: nat): Tally
    requires ev.Measured? && n <= |formula|
  {
    Evaluate(formula, ev.features, ev.previous, true, ev.iteration, slew, n)
  }

  /** The payment of entry `p`, after the entries before it have slewed its term. */
  function PaymentOf(formula: seq<Entry>, ev: EnvEvent, slew: map<string, real>, p: nat): Payment
    requires ev.Measured? && p < |formula|
  {
    var e := formula[p];
    PaymentFor(e, Get(ev.features, e.term), Get(ev.previous, e.term), true, Look(Upto(formula, ev, slew, p).slew, e.term),
               ev.iteration)
  }

  function AmountOf(payment: Payment): real {
    match payment
    case Pay(amount) => amount
    case Release(_, amount) => amount
    case _ => 0.0
  }

  function PaidBy(formula: seq<Entry>, ev: EnvEvent, slew: map<string, real>, p: nat): real
    requires ev.Measured? && p < |formula|
  {
    AmountOf(PaymentOf(formula, ev, slew, p))
  }

  function SumPaid(formula: seq<Entry>, ev: EnvEvent, slew: map<string, real>, n: nat): real
    requires ev.Measured? && n <= |formula|
  {
    if n == 0 then 0.0 else SumPaid(formula, ev, slew, n - 1) + PaidBy(formula, ev, slew, n - 1)
  }

  function SumPaidTo(formula: seq<Entry>, ev: EnvEvent, slew: map<string, real>, term: string, n: nat): real
    requires ev.Measured? && n <= |formula|
  {
    if n == 0 then 0.0
    else SumPaidTo(formula, ev, slew, term, n - 1) + if formula[n - 1].term == term then PaidBy(formula, ev, slew, n - 1) else 0.0
  }

  lemma EntryTaken(formula: seq<Entry>, ev: EnvEvent, slew: map<string, real>, n: nat)
    requires ev.Measured? && n < |formula| && !Upto(formula, ev, slew, n + 1).raised
    ensures !Upto(formula, ev, slew, n).raised && !PaymentOf(formula, ev, slew, n).Raise?
    ensures
      var before, after, payment := Upto(formula, ev, slew, n), Upto(formula, ev, slew, n + 1), PaymentOf(formula, ev, slew, n);
      after == match payment {
        case Pay(amount) => Credit(before, formula[n].term, amount)
        case Release(target, amount) =>
          Credit(before.(slew := before.slew[formula[n].term := target]), formula[n].term, amount)
        case _ => before
      }
  {
    hide PaymentFor, Credit, Look;
  }

  /** The total of an evaluation is the sum of what its entries pay. */
  lemma {:induction false} TallyAddsUp(formula: seq<Entry>, ev: EnvEvent, slew: map<string, real>, n: nat)
    requires ev.Measured? && n <= |formula| && !Upto(formula, ev, slew, n).raised
    ensures Upto(formula, ev, slew, n).total == SumPaid(formula, ev, slew, n)
  {
    hide PaymentOf, Upto, Look;
    if n > 0 {
      EntryTaken(formula, ev, slew, n - 1);
      TallyAddsUp(formula, ev, slew, n - 1);
    } else {
      NothingTaken(formula, ev, slew, "");
    }
  }

  lemma NothingTaken(formula: seq<Entry>, ev: EnvEvent, slew: map<string, real>, term: string)
    requires ev.Measured?
    ensures var t := Upto(formula, ev, slew, 0); t.total == 0.0 && Look(t.contributions, term) == 0.0 && t.slew == slew
  {
  }

  /** A term's contribution is the sum of what its entries pay. */
  lemma {:induction false} ContributionsAddUp(formula: seq<Entry>, ev: EnvEvent, slew: map<string, real>, term: string, n: nat)
    requires ev.Measured? && n <= |formula| && !Upto(formula, ev, slew, n).raised
    ensures Look(Upto(formula, ev, slew, n).contributions, term) == SumPaidTo(formula, ev, slew, term, n)
  {
    hide PaymentOf, Upto;
    if n > 0 {
      EntryTaken(formula, ev, slew, n - 1);
      ContributionsAddUp(formula, ev, slew, term, n - 1);
    } else {
      NothingTaken(formula, ev, slew, term);
    }
  }

  // ----- What each entry pays in an episode -----

  /** What entry `p` has paid since the last reset, after `k` events. */
  function EpisodePay(formula: seq<Entry>, p: nat, events: seq<EnvEvent>, k: nat): real
    requires p < |formula| && k <= |events|
  {
    if k == 0 || events[k - 1].Restarted? then 0.0
    else EpisodePay(formula, p, events, k - 1) + PaidBy(formula, events[k - 1], EnvRun(formula, events, k - 1).slew, p)
  }

  /** What the evaluator has reported for a term since the last reset. */
  function TermPay(formula: seq<Entry>, term: string, events: seq<EnvEvent>, k: nat): real
    requires k <= |events|
  {
    if k == 0 || events[k - 1].Restarted? then 0.0
    else
      TermPay(formula, term, events, k - 1)
      + Look(Upto(formula, events[k - 1], EnvRun(formula, events, k - 1).slew, |formula|).contributions, term)
  }

  function EntriesPay(formula: seq<Entry>, term: string, events: seq<EnvEvent>, k: nat, n: nat): real
    requires k <= |events| && n <= |formula|
  {
    if n == 0 then 0.0
    else EntriesPay(formula, term, events, k, n - 1) + if formula[n - 1].term == term then EpisodePay(formula, n - 1, events, k) else 0.0
  }

  lemma {:induction false} EntriesStep(formula: seq<Entry>, term: string, events: seq<EnvEvent>, k: nat, n: nat)
    requires 0 < k <= |events| && n <= |formula|
    ensures EntriesPay(formula, term, events, k, n) ==
      if events[k - 1].Restarted? then 0.0
      else
        EntriesPay(formula, term, events, k - 1, n)
        + SumPaidTo(formula, events[k - 1], EnvRun(formula, events, k - 1).slew, term, n)
  {
    hide PaidBy, EnvRun;
    if n > 0 { EntriesStep(formula, term, events, k, n - 1); }
  }

  lemma {:induction false} EntriesStart(formula: seq<Entry>, term: string, events: seq<EnvEvent>, n: nat)
    requires n <= |formula|
    ensures EntriesPay(formula, term, events, 0, n) == 0.0
  {
    if n > 0 { EntriesStart(formula, term, events, n - 1); }
  }

  lemma EventTaken(formula: seq<Entry>, events: seq<EnvEvent>, k: nat)
    requires 0 < k <= |events| && !EnvRun(formula, events, k).over
    ensures !EnvRun(formula, events, k - 1).over
    ensures
      var s, ev := EnvRun(formula, events, k - 1), events[k - 1];
      if ev.Restarted? then EnvRun(formula, events, k).slew == map[]
      else
        var t := Upto(formula, ev, s.slew, |formula|);
        !t.raised && EnvRun(formula, events, k).slew == t.slew
  {
    hide Evaluate;
  }

  /** In every episode the report for a term is the sum of what its entries pay. */
  lemma {:induction false} TermPaysEntries(formula: seq<Entry>, term: string, events: seq<EnvEvent>, k: nat)
    requires k <= |events| && !EnvRun(formula, events, k).over
    ensures TermPay(formula, term, events, k) == EntriesPay(formula, term, events, k, |formula|)
  {
    hide EnvRun, Upto, SumPaidTo, EntriesPay;
    if k == 0 {
      EntriesStart(formula, term, events, |formula|);
    } else {
      EventTaken(formula, events, k);
      TermPaysEntries(formula, term, events, k - 1);
      EntriesStep(formula, term, events, k, |formula|);
      if events[k - 1].Measured? {
        ContributionsAddUp(formula, events[k - 1], EnvRun(formula, events, k - 1).slew, term, |formula|);
      }
    }
  }

  // ----- Rate-limited entries of a term -----

  /** The rate-limited entries of a term among the first `n`. */
  function Limits(formula: seq<Entry>, term: string, n: nat): nat
    requires n <= |formula|
  {
    if n == 0 then 0
    else Limits(formula, term, n - 1) + if formula[n - 1].term == term && formula[n - 1].op == RateLimit then 1 else 0
  }

  lemma {:induction false} LimitsGrow(formula: seq<Entry>, term: string, p: nat, n: nat)
    requires p <= n <= |formula|
    ensures Limits(formula, term, p) <= Limits(formula, term, n)
  {
    if p < n { LimitsGrow(formula, term, p, n - 1); }
  }

  lemma LimitCounts(formula: seq<Entry>, p: nat)
    requires p < |formula| && formula[p].op == RateLimit
    ensures Limits(formula, formula[p].term, p) < Limits(formula, formula[p].term, |formula|)
  {
    LimitsGrow(formula, formula[p].term, p + 1, |formula|);
  }

  /** Where `r` of them take a target from `c` on a measured value. */
  function Reached(r: nat, c: real, value: real): real {
    if r == 0 then c else Min(value, c + r as real * RATE_LIMIT_SLEW)
  }

  lemma ReachedNext(r: nat, c: real, value: real)
    ensures Min(value, Reached(r, c, value) + RATE_LIMIT_SLEW) == Reached(r + 1, c, value)
  {
  }

  /** Each rate-limited entry slews once, so `r` of them slew `r` times in one step. */
  lemma {:induction false} SlewsOncePerEntry(formula: seq<Entry>, ev: EnvEvent, slew: map<string, real>, term: string, n: nat)
    requires ev.Measured? && n <= |formula| && !Upto(formula, ev, slew, n).raised
    ensures Look(Upto(formula, ev, slew, n).slew, term) ==
      if term in ev.features then Reached(Limits(formula, term, n), Look(slew, term), ev.features[term]) else Look(slew, term)
  {
    hide Upto, Reached;
    if n > 0 {
      EntryTaken(formula, ev, slew, n - 1);
      SlewsOncePerEntry(formula, ev, slew, term, n - 1);
      if term in ev.features { ReachedNext(Limits(formula, term, n - 1), Look(slew, term), ev.features[term]); }
    } else {
      NothingTaken(formula, ev, slew, term);
      NothingReached(Look(slew, term), Look(ev.features, term));
    }
  }

  lemma NothingReached(c: real, value: real)
    ensures Reached(0, c, value) == c
  {
  }

  /** The values of a term since the last reset. */
  function EpisodeValues(term: string, events: seq<EnvEvent>, k: nat): seq<real>
    requires k <= |events|
  {
    if k == 0 || events[k - 1].Restarted? then []
    else EpisodeValues(term, events, k - 1) + if term in events[k - 1].features then [events[k - 1].features[term]] else []
  }

  /** A target that follows the values, rising by at most `m` slews for each. */
  function Chase(m: nat, values: seq<real>): real {
    if values == [] then 0.0 else Reached(m, Chase(m, values[..|values| - 1]), values[|values| - 1])
  }

  /** `n` times `m` slews. */
  function Rise(m: nat, n: nat): real {
    if n == 0 then 0.0 else Rise(m, n - 1) + m as real * RATE_LIMIT_SLEW
  }

  function Reach(m: nat, values: seq<real>, j: nat): real
    requires j < |values|
  {
    values[j] + Rise(m, |values| - 1 - j)
  }

  lemma ChaseStep(m: nat, values: seq<real>)
    requires m > 0 && values != []
    ensures Chase(m, values) == Min(values[|values| - 1], Chase(m, values[..|values| - 1]) + m as real * RATE_LIMIT_SLEW)
  {
  }

  /** The closed form: the least of the full slew and every value plus the slew since. */
  lemma {:induction false} ChaseIsLeast(m: nat, values: seq<real>)
    requires m > 0
    ensures Chase(m, values) <= Rise(m, |values|)
    ensures forall j :: 0 <= j < |values| ==> Chase(m, values) <= Reach(m, values, j)
    ensures Chase(m, values) == Rise(m, |values|)
            || exists j :: 0 <= j < |values| && Chase(m, values) == Reach(m, values, j)
  {
    if values != [] {
      hide Chase;
      var n := |values| - 1;
      var before, slew := values[..n], m as real * RATE_LIMIT_SLEW;
      ChaseIsLeast(m, before);
      ChaseStep(m, values);
      forall j | 0 <= j < n ensures Reach(m, values, j) == Reach(m, before, j) + slew {
      }
      assert Reach(m, values, n) == values[n];
      if Chase(m, values) != values[n] && Chase(m, before) != Rise(m, n) {
        var j :| 0 <= j < n && Chase(m, before) == Reach(m, before, j);
        assert Chase(m, values) == Reach(m, values, j);
      }
    } else {
      assert Chase(m, values) == Rise(m, 0);
    }
  }

  lemma ChaseExtends(m: nat, values: seq<real>, v: real)
    ensures Chase(m, values + [v]) == Reached(m, Chase(m, values), v) && Chase(m, []) == 0.0
  {
    assert (values + [v])[..|values|] == values;
  }

  /** In every run the target of a term with `m` rate-limited entries chases the episode's values at `m` slews a step. */
  lemma {:induction false} EpisodeChases(formula: seq<Entry>, term: string, events: seq<EnvEvent>, k: nat)
    requires k <= |events| && !EnvRun(formula, events, k).over && Limits(formula, term, |formula|) > 0
    ensures Look(EnvRun(formula, events, k).slew, term)
            == Chase(Limits(formula, term, |formula|), EpisodeValues(term, events, k))
  {
    hide Upto, Limits, Chase, Reached;
    ChaseExtends(Limits(formula, term, |formula|), [], 0.0);
    if k > 0 {
      EventTaken(formula, events, k);
      if events[k - 1].Measured? {
        EpisodeChases(formula, term, events, k - 1);
        var ev, before := events[k - 1], EpisodeValues(term, events, k - 1);
        SlewsOncePerEntry(formula, ev, EnvRun(formula, events, k - 1).slew, term, |formula|);
        if term in ev.features {
          ChaseExtends(Limits(formula, term, |formula|), before, ev.features[term]);
        } else {
          assert before + [] == before;
        }
      }
    }
  }

  /** What the `r`th of `m` rate-limited entries adds to the target over the values. */
  function Share(m: nat, r: nat, values: seq<real>): real {
    if values == [] then 0.0
    else
      var n := |values| - 1;
      var c := Chase(m, values[..n]);
      Share(m, r, values[..n]) + (Reached(r + 1, c, values[n]) - Reached(r, c, values[n]))
  }

  function ShareSum(m: nat, n: nat, values: seq<real>): real {
    if n == 0 then 0.0 else ShareSum(m, n - 1, values) + Share(m, n - 1, values)
  }

  lemma {:induction false} SharesStep(m: nat, n: nat, values: seq<real>, v: real)
    ensures ShareSum(m, n, values + [v]) == ShareSum(m, n, values) + Reached(n, Chase(m, values), v) - Chase(m, values)
  {
    hide Reached, Chase;
    assert (values + [v])[..|values|] == values;
    NothingReached(Chase(m, values), v);
    if n > 0 { SharesStep(m, n - 1, values, v); }
  }

  lemma {:induction false} SharesOfNothing(m: nat, n: nat)
    ensures ShareSum(m, n, []) == 0.0
  {
    if n > 0 { SharesOfNothing(m, n - 1); }
  }

  /** The entries of a term split its target between them. */
  lemma {:induction false} SharesAddUp(m: nat, values: seq<real>)
    ensures ShareSum(m, m, values) == Chase(m, values)
  {
    if values == [] {
      SharesOfNothing(m, m);
    } else {
      var n := |values| - 1;
      SharesAddUp(m, values[..n]);
      SharesStep(m, m, values[..n], values[n]);
      assert values[..n] + [values[n]] == values;
    }
  }

  lemma ShareExtends(m: nat, r: nat, values: seq<real>, v: real)
    ensures Share(m, r, values + [v])
            == Share(m, r, values) + (Reached(r + 1, Chase(m, values), v) - Reached(r, Chase(m, values), v))
    ensures Share(m, r, []) == 0.0
  {
    hide Reached, Chase;
    assert (values + [v])[..|values|] == values;
  }

  /** A rate-limited entry pays its weight for what it moves the target. */
  lemma LimitPays(formula: seq<Entry>, ev: EnvEvent, slew: map<string, real>, p: nat)
    requires ev.Measured? && p < |formula| && formula[p].op == RateLimit && !Upto(formula, ev, slew, p).raised
    ensures
      var e := formula[p];
      var r, c := Limits(formula, e.term, p), Look(slew, e.term);
      PaidBy(formula, ev, slew, p) ==
      if e.term in ev.features then e.weight * (Reached(r + 1, c, ev.features[e.term]) - Reached(r, c, ev.features[e.term])) else 0.0
  {
    hide Upto, Reached, Limits, Min;
    var e := formula[p];
    SlewsOncePerEntry(formula, ev, slew, e.term, p);
    if e.term in ev.features { ReachedNext(Limits(formula, e.term, p), Look(slew, e.term), ev.features[e.term]); }
  }

  lemma {:induction false} EarlierNotRaised(formula: seq<Entry>, ev: EnvEvent, slew: map<string, real>, p: nat, n: nat)
    requires ev.Measured? && p <= n <= |formula| && !Upto(formula, ev, slew, n).raised
    ensures !Upto(formula, ev, slew, p).raised
  {
    if Upto(formula, ev, slew, p).raised {
      RaisedStays(formula, ev.features, ev.previous, true, ev.iteration, slew, p, n);
    }
  }

  lemma AddScaled(w: real, a: real, b: real, paid: real, paid': real)
    requires paid == w * a && paid' == paid + w * b
    ensures paid' == w * (a + b)
  {
  }

  /**
   In every run a rate-limited entry pays its weight times its share of the target, and the shares of
   the term's entries add up to the target: arriving early buys nothing.
   */
  lemma {:induction false} EpisodePaysShare(formula: seq<Entry>, p: nat, events: seq<EnvEvent>, k: nat)
    requires p < |formula| && formula[p].op == RateLimit && k <= |events| && !EnvRun(formula, events, k).over
    ensures
      var term := formula[p].term;
      EpisodePay(formula, p, events, k)
      == formula[p].weight * Share(Limits(formula, term, |formula|), Limits(formula, term, p), EpisodeValues(term, events, k))
  {
    hide EnvRun, Upto, PaidBy, Limits, Chase, Reached, Share;
    LimitCounts(formula, p);
    var e := formula[p];
    var m, r := Limits(formula, e.term, |formula|), Limits(formula, e.term, p);
    ShareExtends(m, r, [], 0.0);
    if k > 0 {
      EventTaken(formula, events, k);
      if events[k - 1].Measured? {
        EpisodePaysShare(formula, p, events, k - 1);
        EpisodeChases(formula, e.term, events, k - 1);
        var ev, s, before := events[k - 1], EnvRun(formula, events, k - 1), EpisodeValues(e.term, events, k - 1);
        EarlierNotRaised(formula, ev, s.slew, p, |formula|);
        LimitPays(formula, ev, s.slew, p);
        if e.term in ev.features {
          var v, c := ev.features[e.term], Look(s.slew, e.term);
          ShareExtends(m, r, before, v);
          AddScaled(e.weight, Share(m, r, before), Reached(r + 1, c, v) - Reached(r, c, v),
                    EpisodePay(formula, p, events, k - 1), EpisodePay(formula, p, events, k));
        } else {
          assert before + [] == before;
        }
      }
    }
  }

  /** A term's only rate-limited entry has paid its weight times the target. */
  lemma EpisodePaysTarget(formula: seq<Entry>, p: nat, events: seq<EnvEvent>, k: nat)
    requires p < |formula| && formula[p].op == RateLimit && k <= |events| && !EnvRun(formula, events, k).over
    requires Limits(formula, formula[p].term, |formula|) == 1
    ensures EpisodePay(formula, p, events, k) == formula[p].weight * Chase(1, EpisodeValues(formula[p].term, events, k))
  {
    hide EpisodePay, Share, Chase, EpisodeValues, EnvRun, Limits;
    LimitCounts(formula, p);
    EpisodePaysShare(formula, p, events, k);
    var values := EpisodeValues(formula[p].term, events, k);
    OneShare(values);
    SameScaled(formula[p].weight, Share(1, 0, values), Chase(1, values));
  }

  lemma SameScaled(w: real, a: real, b: real)
    requires a == b
    ensures w * a == w * b
  {
  }

  lemma OneShare(values: seq<real>)
    ensures Share(1, 0, values) == Chase(1, values)
  {
    hide Share, Chase;
    SharesAddUp(1, values);
    assert ShareSum(1, 0, values) == 0.0;
  }

  // ----- Potential entries -----

  /** The latest measurement of a term since the last reset. */
  function Latest(term: string, events: seq<EnvEvent>, k: nat): Option<real>
    requires k <= |events|
  {
    if k == 0 || events[k - 1].Restarted? then None
    else if term in events[k - 1].features then Some(events[k - 1].features[term])
    else Latest(term, events, k - 1)
  }

  /** What a measured step counts its improvement from; without a previous value there is none to count. */
  function Base(term: string, ev: EnvEvent): real
    requires ev.Measured? && term in ev.features
  {
    if term in ev.previous then ev.previous[term] else ev.features[term]
  }

  /** Where the first measured step of the episode counts from. */
  function EpisodeStart(term: string, events: seq<EnvEvent>, k: nat): Option<real>
    requires k <= |events|
  {
    if k == 0 || events[k - 1].Restarted? then None
    else if EpisodeStart(term, events, k - 1).Some? then EpisodeStart(term, events, k - 1)
    else if term in events[k - 1].features then Some(Base(term, events[k - 1]))
    else None
  }

  function Gain(e: Entry, from: real, to: real): real {
    if e.improves == Rises then to - from else from - to
  }

  function Times(w: real, x: real): real {
    w * x
  }

  /** The improvement that no step was paid for: from the latest measurement to what the next step counts from. */
  function Unpaid(e: Entry, events: seq<EnvEvent>, k: nat): real
    requires k <= |events|
  {
    if k == 0 || events[k - 1].Restarted? then 0.0
    else
      Unpaid(e, events, k - 1)
      + if e.term in events[k - 1].features && Latest(e.term, events, k - 1).Some?
        then Gain(e, Latest(e.term, events, k - 1).value, Base(e.term, events[k - 1])) else 0.0
  }

  lemma PotentialAmount(e: Entry, value: Option<real>, before: Option<real>, current: real, iteration: int)
    requires e.op in {Potential, Shaping} && !PaymentFor(e, value, before, true, current, iteration).Raise?
    ensures AmountOf(PaymentFor(e, value, before, true, current, iteration)) ==
      if value.None? then 0.0
      else Times(e.weight, Gain(e, if before.Some? then before.value else value.value, value.value))
  {
  }

  lemma PotentialPays(formula: seq<Entry>, ev: EnvEvent, slew: map<string, real>, p: nat)
    requires ev.Measured? && p < |formula| && formula[p].op in {Potential, Shaping} && !Upto(formula, ev, slew, |formula|).raised
    ensures
      var e := formula[p];
      PaidBy(formula, ev, slew, p) ==
      if e.term in ev.features then Times(e.weight, Gain(e, Base(e.term, ev), ev.features[e.term])) else 0.0
  {
    hide Upto, Look, PaymentFor, Gain, Times, AmountOf;
    EarlierNotRaised(formula, ev, slew, p + 1, |formula|);
    EntryTaken(formula, ev, slew, p);
    var e := formula[p];
    PotentialAmount(e, Get(ev.features, e.term), Get(ev.previous, e.term), Look(Upto(formula, ev, slew, p).slew, e.term),
                    ev.iteration);
  }

  lemma GainStep(e: Entry, start: real, latest: real, base: real, now: real, unpaid: real, paid: real, paid': real)
    requires paid == Times(e.weight, Gain(e, start, latest) - unpaid) && paid' == paid + Times(e.weight, Gain(e, base, now))
    ensures paid' == Times(e.weight, Gain(e, start, now) - (unpaid + Gain(e, latest, base)))
  {
    assert Gain(e, start, now) - Gain(e, latest, base) == Gain(e, start, latest) + Gain(e, base, now);
    Distributes(e.weight, Gain(e, start, latest) - unpaid, Gain(e, base, now));
  }

  lemma Distributes(w: real, a: real, b: real)
    ensures w * a + w * b == w * (a + b)
  {
  }

  /**
   In every run, with any steps unmeasured and any previous values given, a potential or shaping entry
   has paid its weight times the net improvement of the episode, less the part no step was paid for.
   */
  lemma {:induction false} PotentialPaysNet(formula: seq<Entry>, p: nat, events: seq<EnvEvent>, k: nat)
    requires p < |formula| && formula[p].op in {Potential, Shaping} && k <= |events| && !EnvRun(formula, events, k).over
    ensures
      var e := formula[p];
      var start, latest := EpisodeStart(e.term, events, k), Latest(e.term, events, k);
      && (start.Some? <==> latest.Some?)
      && (latest.None? ==> Unpaid(e, events, k) == 0.0)
      && EpisodePay(formula, p, events, k) ==
         if latest.None? then 0.0 else Times(e.weight, Gain(e, start.value, latest.value) - Unpaid(e, events, k))
  {
    hide EnvRun, PaidBy, Gain, Base, Times;
    if k > 0 && events[k - 1].Measured? {
      EventTaken(formula, events, k);
      PotentialPaysNet(formula, p, events, k - 1);
      var e, ev := formula[p], events[k - 1];
      PotentialPays(formula, ev, EnvRun(formula, events, k - 1).slew, p);
      if e.term in ev.features {
        var base, now := Base(e.term, ev), ev.features[e.term];
        if Latest(e.term, events, k - 1).Some? {
          GainStep(e, EpisodeStart(e.term, events, k - 1).value, Latest(e.term, events, k - 1).value, base, now,
                   Unpaid(e, events, k - 1), EpisodePay(formula, p, events, k - 1), EpisodePay(formula, p, events, k));
        }
      }
    }
  }

  /** Every step counts from the latest measurement, if there is one. */
  predicate Chained(term: string, events: seq<EnvEvent>) {
    forall k :: 0 <= k < |events| && events[k].Measured? && term in events[k].features && Latest(term, events, k).Some? ==>
      Base(term, events[k]) == Latest(term, events, k).value
  }

  lemma {:induction false} NothingUnpaid(e: Entry, events: seq<EnvEvent>, k: nat)
    requires k <= |events| && Chained(e.term, events)
    ensures Unpaid(e, events, k) == 0.0
  {
    hide Latest, Base;
    if k > 0 { NothingUnpaid(e, events, k - 1); }
  }

  /** Chained steps telescope: an episode pays the weight times its net improvement, so a return to its start pays nothing. */
  lemma PotentialTelescopes(formula: seq<Entry>, p: nat, events: seq<EnvEvent>, k: nat)
    requires p < |formula| && formula[p].op in {Potential, Shaping} && k <= |events|
    requires !EnvRun(formula, events, k).over && Chained(formula[p].term, events)
    ensures
      var e := formula[p];
      var start, latest := EpisodeStart(e.term, events, k), Latest(e.term, events, k);
      && (start.Some? <==> latest.Some?)
      && EpisodePay(formula, p, events, k) == if latest.None? then 0.0 else Times(e.weight, Gain(e, start.value, latest.value))
  {
    hide EnvRun, Gain, Times, EpisodeStart, EpisodePay, Latest, Unpaid;
    PotentialPaysNet(formula, p, events, k);
    NothingUnpaid(formula[p], events, k);
  }
}
