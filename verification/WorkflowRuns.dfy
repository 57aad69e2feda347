/**
 The step state machine and the ready-set scheduler: every run that keeps validating is finite,
 attempts are counted exactly, nothing starts before its dependencies, and nothing deadlocks.
 */
module WorkflowRuns {
  import opened Outcomes
  import opened WorkflowSpecs
  import opened WorkflowGraph

  // ----- Transitions -----

  function Successors(from: Status): set<Status> {
    match from
    case Pending => {Ready, Cancelled}
    case Ready => {Running, Skipped, Cancelled}
    case Running => {Succeeded, Failed, Cancelled}
    case Failed => {Ready, Cancelled}
    case _ => {}
  }

  predicate CanTransition(from: Status, to: Status) {
    from == to || to in Successors(from)
  }

  /** None stands for the exception `transition_invalid`. */
  function Transition(current: Step, next: Status): Option<Step> {
    if !CanTransition(current.status, next) then None
    else if next == Running then Some(current.(status := next, attempt := current.attempt + 1))
    else Some(current.(status := next))
  }

  /** What `validateWorkflowSpec` demands of the attempt counter. */
  predicate AttemptsOk(s: Step) {
    0 <= s.attempt <= s.maxAttempts
  }

  // ----- Every run is finite -----

  function Rank(s: Status): nat {
    match s
    case Pending => 2
    case Ready => 1
    case Running => 3
    case Failed => 2
    case _ => 0
  }

  function Measure(s: Step): nat
    requires AttemptsOk(s)
  {
    3 * (s.maxAttempts - s.attempt) + Rank(s.status)
  }

  /** A call that changes a step uses up some of its measure, `running` to `running` included. */
  lemma TransitionDecreases(s: Step, next: Status)
    requires AttemptsOk(s) && Transition(s, next).Some?
    requires AttemptsOk(Transition(s, next).value) && Transition(s, next).value != s
    ensures Measure(Transition(s, next).value) < Measure(s)
  {
  }

  /** The states of one step, each made from the one before by a call that changed it. */
  predicate IsHistory(h: seq<Step>) {
    && h != []
    && (forall i :: 0 <= i < |h| ==> AttemptsOk(h[i]))
    && forall i :: 0 <= i < |h| - 1 ==> h[i] != h[i + 1] && Transition(h[i], h[i + 1].status) == Some(h[i + 1])
  }

  function Starts(h: seq<Step>): nat {
    if |h| <= 1 then 0 else Starts(h[..|h| - 1]) + if h[|h| - 1].status == Running then 1 else 0
  }

  lemma {:induction false} HistoryBounded(h: seq<Step>)
    requires IsHistory(h)
    ensures |h| - 1 + Measure(h[|h| - 1]) <= Measure(h[0])
    ensures h[|h| - 1].attempt == h[0].attempt + Starts(h)
    ensures h[|h| - 1].maxAttempts == h[0].maxAttempts
  {
    if |h| > 1 {
      var shorter := h[..|h| - 1];
      HistoryBounded(shorter);
      assert Transition(h[|h| - 2], h[|h| - 1].status) == Some(h[|h| - 1]);
      TransitionDecreases(h[|h| - 2], h[|h| - 1].status);
    }
  }

  /** A freshly built step. */
  predicate IsFresh(s: Step) {
    && s.attempt == 0 && s.maxAttempts >= 1
    && s.status == if s.dependsOn == [] then Ready else Pending
  }

  /** A fresh step changes at most `3 * maxAttempts + 2` times; `attempt` counts its starts. */
  lemma FreshStepIsFinite(h: seq<Step>)
    requires IsHistory(h) && IsFresh(h[0])
    ensures |h| - 1 <= 3 * h[0].maxAttempts + 2
    ensures h[|h| - 1].attempt == Starts(h) <= h[0].maxAttempts
  {
    HistoryBounded(h);
  }

  /** From `ready`, each attempt left can be spent on running, failing and becoming ready again. */
  lemma {:induction false} SpendAttempts(s: Step) returns (h: seq<Step>)
    requires AttemptsOk(s) && s.status == Ready
    ensures IsHistory(h) && h[0] == s && |h| == 3 * (s.maxAttempts - s.attempt) + 1
    ensures h[|h| - 1].status == Ready
    decreases s.maxAttempts - s.attempt
  {
    if s.attempt == s.maxAttempts {
      h := [s];
    } else {
      var running := s.(status := Running, attempt := s.attempt + 1);
      var failed := running.(status := Failed);
      var ready := failed.(status := Ready);
      var rest := SpendAttempts(ready);
      h := [s, running, failed] + rest;
      forall i | 0 <= i < |h| - 1
        ensures h[i] != h[i + 1] && Transition(h[i], h[i + 1].status) == Some(h[i + 1])
      {
        if i >= 3 { assert h[i] == rest[i - 3] && h[i + 1] == rest[i - 2]; }
      }
    }
  }

  /** The bound is reached by a step that waits, fails every attempt and is skipped at the end. */
  lemma BoundIsReached(s: Step) returns (h: seq<Step>)
    requires IsFresh(s) && s.status == Pending
    ensures IsHistory(h) && h[0] == s && |h| - 1 == 3 * s.maxAttempts + 2
  {
    var spent := SpendAttempts(s.(status := Ready));
    var skipped := spent[|spent| - 1].(status := Skipped);
    h := [s] + spent + [skipped];
    forall i | 0 <= i < |h| - 1
      ensures h[i] != h[i + 1] && Transition(h[i], h[i + 1].status) == Some(h[i + 1])
    {
      if i == 0 {
        assert h[1] == spent[0];
      } else if i < |spent| {
        assert h[i] == spent[i - 1] && h[i + 1] == spent[i];
      } else {
        assert h[i] == spent[|spent| - 1] && h[i + 1] == skipped;
      }
    }
  }

  // ----- The scheduler -----

  predicate Waiting(s: Status) {
    s == Ready || s == Pending
  }

  predicate DependenciesSucceeded(g: Graph, s: Step) {
    forall d :: d in s.dependsOn ==> d in g && g[d].status == Succeeded
  }

  function FilterReady(g: Graph, steps: seq<Step>): seq<Key> {
    if steps == [] then []
    else
      var rest := FilterReady(g, steps[1..]);
      if Waiting(steps[0].status) && DependenciesSucceeded(g, steps[0]) then [steps[0].key] + rest else rest
  }

  /** `readyWorkflowSteps` on a spec that validates. */
  function ReadyKeys(steps: seq<Step>): seq<Key> {
    FilterReady(ByKey(steps), steps)
  }

  lemma {:induction false} FilterReadyExactly(g: Graph, steps: seq<Step>, k: Key)
    ensures k in FilterReady(g, steps) <==>
      exists i :: 0 <= i < |steps| && steps[i].key == k && Waiting(steps[i].status) && DependenciesSucceeded(g, steps[i])
  {
    if steps != [] {
      FilterReadyExactly(g, steps[1..], k);
      if i :| 0 <= i < |steps[1..]| && steps[1..][i].key == k && Waiting(steps[1..][i].status)
              && DependenciesSucceeded(g, steps[1..][i]) {
        assert steps[i + 1] == steps[1..][i];
      }
      if i :| 0 <= i < |steps| && steps[i].key == k && Waiting(steps[i].status) && DependenciesSucceeded(g, steps[i]) {
        if i > 0 { assert steps[1..][i - 1] == steps[i]; }
      }
    }
  }

  /** The part of a validated spec that scheduling rests on. */
  ghost predicate Schedulable(steps: seq<Step>) {
    UniqueKeys(steps) && Acyclic(ByKey(steps)) && Closed(ByKey(steps))
  }

  /** In a schedulable spec a waiting step is listed exactly when all it depends on has succeeded. */
  lemma ListedExactly(steps: seq<Step>, i: nat)
    requires Schedulable(steps) && i < |steps|
    ensures steps[i].key in ReadyKeys(steps) <==>
      Waiting(steps[i].status) && DependenciesSucceeded(ByKey(steps), steps[i])
  {
    FilterReadyExactly(ByKey(steps), steps, steps[i].key);
    if j :| 0 <= j < |steps| && steps[j].key == steps[i].key && Waiting(steps[j].status)
            && DependenciesSucceeded(ByKey(steps), steps[j]) {
      assert i == j;
    }
  }

  predicate NoRepeat(p: seq<Key>) {
    forall i, j :: 0 <= i < j < |p| ==> p[i] != p[j]
  }

  lemma {:induction false} NoRepeatFits(p: seq<Key>, keys: set<Key>)
    requires NoRepeat(p) && forall k :: k in p ==> k in keys
    ensures |p| <= |keys|
  {
    if p != [] {
      var init := p[..|p| - 1];
      var last := p[|p| - 1];
      forall k | k in init ensures k in keys - {last} {
        var i :| 0 <= i < |init| && init[i] == k;
        assert p[i] != p[|p| - 1] && p[i] in p;
      }
      assert last in p;
      NoRepeatFits(init, keys - {last});
    }
  }

  /** What keeps a step from being listed: unfinished work that is not itself waiting. */
  predicate Blocks(s: Status) {
    !Waiting(s) && s != Succeeded
  }

  /** `p` reaches a blocking step through waiting ones. */
  ghost predicate ReachesBlocker(g: Graph, p: seq<Key>) {
    IsPath(g, p) && p[|p| - 1] in g && Blocks(g[p[|p| - 1]].status)
  }

  /** A path without repeats that goes on does not come back to itself. */
  lemma AcyclicPathIsSimple(g: Graph, p: seq<Key>, d: Key)
    requires Acyclic(g) && NoRepeat(p) && p != [] && IsPath(g, p + [d])
    ensures NoRepeat(p + [d])
  {
    var q := p + [d];
    forall j | 0 <= j < |p| ensures p[j] != d {
      var loop := q[j..];
      forall n | 0 <= n < |loop| - 1 ensures loop[n] in g && loop[n + 1] in g[loop[n]].dependsOn {
        assert loop[n] == q[j + n] && loop[n + 1] == q[j + n + 1];
      }
      assert !IsCycle(g, loop);
    }
  }

  lemma {:induction false} FollowToBlocker(steps: seq<Step>, p: seq<Key>) returns (q: seq<Key>)
    requires Schedulable(steps) && ReadyKeys(steps) == []
    requires
      var g := ByKey(steps);
      && IsPath(g, p) && NoRepeat(p) && (forall k :: k in p ==> k in g)
      && Waiting(g[p[|p| - 1]].status)
    ensures q != [] && q[0] == p[0] && ReachesBlocker(ByKey(steps), q)
    decreases |ByKey(steps)| - |p|
  {
    hide ByKey, UniqueKeys, Acyclic, ReadyKeys, NoRepeat;
    var g := ByKey(steps);
    var last := p[|p| - 1];
    ByKeyMembers(steps);
    assert last in p;
    var i :| 0 <= i < |steps| && steps[i] == g[last];
    ListedExactly(steps, i);
    var d :| d in steps[i].dependsOn && g[d].status != Succeeded;
    q := p + [d];
    assert IsPath(g, q);
    if !Blocks(g[d].status) {
      AcyclicPathIsSimple(g, p, d);
      NoRepeatFits(q, g.Keys);
      q := FollowToBlocker(steps, q);
    }
  }

  /** When nothing is listed, every waiting step is behind work that is running or did not succeed. */
  lemma NothingListedMeansBlocked(steps: seq<Step>, i: nat) returns (p: seq<Key>)
    requires Schedulable(steps) && ReadyKeys(steps) == []
    requires i < |steps| && Waiting(steps[i].status)
    ensures p != [] && p[0] == steps[i].key && ReachesBlocker(ByKey(steps), p)
  {
    ByKeyUnique(steps);
    p := FollowToBlocker(steps, [steps[i].key]);
  }

  /** No deadlock: among waiting and succeeded steps, the list is empty only when all is done. */
  lemma EmptyListMeansDone(steps: seq<Step>)
    requires Schedulable(steps)
    requires forall i :: 0 <= i < |steps| ==> Waiting(steps[i].status) || steps[i].status == Succeeded
    ensures ReadyKeys(steps) == [] <==> forall i :: 0 <= i < |steps| ==> steps[i].status == Succeeded
  {
    var g := ByKey(steps);
    ByKeyMembers(steps);
    forall k | k in g ensures !Blocks(g[k].status) {
      var i :| 0 <= i < |steps| && steps[i] == g[k];
    }
    if ReadyKeys(steps) == [] {
      forall i | 0 <= i < |steps| ensures steps[i].status == Succeeded {
        if Waiting(steps[i].status) {
          var p := NothingListedMeansBlocked(steps, i);
          assert false;
        }
      }
    } else {
      FilterReadyExactly(ByKey(steps), steps, ReadyKeys(steps)[0]);
    }
  }

  // ----- Runs -----

  /**
   A call on step `i`.  A step that waits moves only when it is listed, except that with
   `freeCancel` it may also be cancelled at any time.
   */
  predicate Advances(before: seq<Step>, after: seq<Step>, i: nat, freeCancel: bool) {
    && i < |before| == |after|
    && Transition(before[i], after[i].status) == Some(after[i])
    && after == before[i := after[i]]
    && (Waiting(before[i].status) && !(freeCancel && after[i].status == Cancelled) ==>
          before[i].key in ReadyKeys(before))
  }

  ghost predicate AdvancesSomewhere(before: seq<Step>, after: seq<Step>, freeCancel: bool) {
    exists i :: Advances(before, after, i, freeCancel)
  }

  ghost predicate IsRun(run: seq<seq<Step>>, freeCancel: bool) {
    && run != []
    && Schedulable(run[0])
    && forall t :: 0 <= t < |run| - 1 ==> AdvancesSomewhere(run[t], run[t + 1], freeCancel)
  }

  predicate Settled(s: Status, freeCancel: bool) {
    !Waiting(s) && !(freeCancel && s == Cancelled)
  }

  /** Whatever has been started or finished had all its dependencies succeed. */
  predicate DependenciesFirst(steps: seq<Step>, freeCancel: bool) {
    forall i :: 0 <= i < |steps| && Settled(steps[i].status, freeCancel) ==>
      DependenciesSucceeded(ByKey(steps), steps[i])
  }

  /** Keys and dependencies are the same, and what has succeeded still has. */
  predicate Keeps(before: seq<Step>, after: seq<Step>) {
    && |before| == |after|
    && forall j :: 0 <= j < |before| ==>
      && after[j].key == before[j].key && after[j].dependsOn == before[j].dependsOn
      && (before[j].status == Succeeded ==> after[j].status == Succeeded)
  }

  lemma KeptSuccess(before: seq<Step>, after: seq<Step>, s: Step)
    requires UniqueKeys(before) && UniqueKeys(after) && Keeps(before, after)
    requires DependenciesSucceeded(ByKey(before), s)
    ensures DependenciesSucceeded(ByKey(after), s)
  {
    hide UniqueKeys, ByKey;
    ByKeyMembers(before);
    ByKeyUnique(after);
    forall d | d in s.dependsOn ensures d in ByKey(after) && ByKey(after)[d].status == Succeeded {
      var j :| 0 <= j < |before| && before[j] == ByKey(before)[d];
      assert after[j].key == d;
    }
  }

  /** A call keeps keys and dependencies, and what has succeeded stays so. */
  lemma AdvanceKeeps(before: seq<Step>, after: seq<Step>, i: nat, freeCancel: bool)
    requires UniqueKeys(before) && Advances(before, after, i, freeCancel)
    ensures UniqueKeys(after) && Keeps(before, after)
    ensures forall s :: DependenciesSucceeded(ByKey(before), s) ==> DependenciesSucceeded(ByKey(after), s)
  {
    assert UniqueKeys(after) && Keeps(before, after);
    hide UniqueKeys, Keeps, DependenciesSucceeded, ByKey, Advances;
    forall s | DependenciesSucceeded(ByKey(before), s) ensures DependenciesSucceeded(ByKey(after), s) {
      KeptSuccess(before, after, s);
    }
  }

  predicate SameShape(g: Graph, h: Graph) {
    g.Keys == h.Keys && forall k :: k in g ==> g[k].dependsOn == h[k].dependsOn
  }

  lemma SameShapeSameCycles(g: Graph, h: Graph)
    requires SameShape(g, h) && Acyclic(g) && Closed(g)
    ensures Acyclic(h) && Closed(h)
  {
    forall p ensures !IsCycle(h, p) {
      assert IsCycle(h, p) ==> IsCycle(g, p);
    }
  }

  lemma {:induction false} ShapeOfSteps(a: seq<Step>, b: seq<Step>)
    requires |a| == |b| && forall j :: 0 <= j < |a| ==> a[j].key == b[j].key && a[j].dependsOn == b[j].dependsOn
    ensures SameShape(ByKey(a), ByKey(b))
  {
    if a != [] { ShapeOfSteps(a[..|a| - 1], b[..|b| - 1]); }
  }

  /** A run stays schedulable: an advance changes neither keys nor dependencies. */
  lemma {:induction false} RunStaysSchedulable(run: seq<seq<Step>>, freeCancel: bool, t: nat)
    requires IsRun(run, freeCancel) && t < |run|
    ensures Schedulable(run[t])
  {
    hide SameShape, Acyclic, Closed;
    if t > 0 {
      RunStaysSchedulable(run, freeCancel, t - 1);
      assert AdvancesSomewhere(run[t - 1], run[t - 1 + 1], freeCancel);
      var i: nat :| Advances(run[t - 1], run[t], i, freeCancel);
      AdvanceKeeps(run[t - 1], run[t], i, freeCancel);
      hide Advances, ByKey;
      ShapeOfSteps(run[t - 1], run[t]);
      SameShapeSameCycles(ByKey(run[t - 1]), ByKey(run[t]));
    }
  }

  lemma AdvanceKeepsDependenciesFirst(before: seq<Step>, after: seq<Step>, i: nat, freeCancel: bool)
    requires Schedulable(before) && Advances(before, after, i, freeCancel)
    requires DependenciesFirst(before, freeCancel)
    ensures DependenciesFirst(after, freeCancel)
  {
    AdvanceKeeps(before, after, i, freeCancel);
    ListedExactly(before, i);
    forall j | 0 <= j < |after| && Settled(after[j].status, freeCancel)
      ensures DependenciesSucceeded(ByKey(after), after[j])
    {
      assert DependenciesSucceeded(ByKey(before), before[j]);
      assert DependenciesSucceeded(ByKey(after), before[j]);
    }
  }

  lemma {:induction false} RunKeepsDependenciesFirst(run: seq<seq<Step>>, freeCancel: bool, t: nat)
    requires IsRun(run, freeCancel) && t < |run| && DependenciesFirst(run[0], freeCancel)
    ensures DependenciesFirst(run[t], freeCancel)
  {
    if t > 0 {
      RunKeepsDependenciesFirst(run, freeCancel, t - 1);
      RunStaysSchedulable(run, freeCancel, t - 1);
      assert AdvancesSomewhere(run[t - 1], run[t - 1 + 1], freeCancel);
      var i: nat :| Advances(run[t - 1], run[t], i, freeCancel);
      AdvanceKeepsDependenciesFirst(run[t - 1], run[t], i, freeCancel);
    }
  }

  lemma {:induction false} SucceededStays(run: seq<seq<Step>>, freeCancel: bool, t: nat, u: nat, s: Step)
    requires IsRun(run, freeCancel) && t <= u < |run|
    requires DependenciesSucceeded(ByKey(run[t]), s)
    ensures DependenciesSucceeded(ByKey(run[u]), s)
    decreases u - t
  {
    if t < u {
      RunStaysSchedulable(run, freeCancel, t);
      assert AdvancesSomewhere(run[t], run[t + 1], freeCancel);
      var i: nat :| Advances(run[t], run[t + 1], i, freeCancel);
      AdvanceKeeps(run[t], run[t + 1], i, freeCancel);
      SucceededStays(run, freeCancel, t + 1, u, s);
    }
  }

  /** In every run, a step that is running or finished at some time had its dependencies succeed for good. */
  lemma NothingStartsEarly(run: seq<seq<Step>>, freeCancel: bool, t: nat, u: nat, i: nat)
    requires IsRun(run, freeCancel) && t <= u < |run| && i < |run[t]|
    requires forall j :: 0 <= j < |run[0]| ==> Waiting(run[0][j].status)
    requires Settled(run[t][i].status, freeCancel)
    ensures DependenciesSucceeded(ByKey(run[u]), run[t][i])
  {
    RunKeepsDependenciesFirst(run, freeCancel, t);
    SucceededStays(run, freeCancel, t, u, run[t][i]);
  }

  // ----- Whole workflows are finite -----

  function TotalMeasure(steps: seq<Step>): nat
    requires AllAttemptsOk(steps)
  {
    if steps == [] then 0 else Measure(steps[0]) + TotalMeasure(steps[1..])
  }

  predicate AllAttemptsOk(steps: seq<Step>) {
    forall i :: 0 <= i < |steps| ==> AttemptsOk(steps[i])
  }

  lemma {:induction false} TotalDecreases(steps: seq<Step>, i: nat, s: Step)
    requires AllAttemptsOk(steps) && i < |steps|
    requires AttemptsOk(s) && Measure(s) < Measure(steps[i])
    ensures TotalMeasure(steps[i := s]) < TotalMeasure(steps)
  {
    if i == 0 {
      assert steps[0 := s][1..] == steps[1..];
    } else {
      assert steps[i := s][1..] == steps[1..][i - 1 := s];
      TotalDecreases(steps[1..], i - 1, s);
    }
  }

  predicate Changes(before: seq<Step>, after: seq<Step>, i: nat) {
    && i < |before| == |after|
    && before[i] != after[i]
    && Transition(before[i], after[i].status) == Some(after[i])
    && after == before[i := after[i]]
  }

  ghost predicate ChangesSomewhere(before: seq<Step>, after: seq<Step>) {
    exists i :: Changes(before, after, i)
  }

  /** A run of the whole workflow that keeps validating and changes something at every call. */
  ghost predicate IsBusyRun(run: seq<seq<Step>>) {
    && run != []
    && (forall t :: 0 <= t < |run| ==> AllAttemptsOk(run[t]))
    && forall t :: 0 <= t < |run| - 1 ==> ChangesSomewhere(run[t], run[t + 1])
  }

  lemma ChangeDecreases(before: seq<Step>, after: seq<Step>)
    requires AllAttemptsOk(before) && AllAttemptsOk(after) && ChangesSomewhere(before, after)
    ensures TotalMeasure(after) < TotalMeasure(before)
  {
    var i: nat :| Changes(before, after, i);
    TransitionDecreases(before[i], after[i].status);
    TotalDecreases(before, i, after[i]);
  }

  lemma {:induction false} BusyRunIsFinite(run: seq<seq<Step>>)
    requires IsBusyRun(run)
    ensures |run| - 1 + TotalMeasure(run[|run| - 1]) <= TotalMeasure(run[0])
  {
    if |run| > 1 {
      BusyRunIsFinite(run[..|run| - 1]);
      var t := |run| - 2;
      assert ChangesSomewhere(run[t], run[t + 1]);
      ChangeDecreases(run[t], run[t + 1]);
    }
  }
}
