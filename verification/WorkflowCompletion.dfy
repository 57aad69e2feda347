/**
 What a workflow can still reach: a step can succeed exactly while it runs or has an attempt left, and
 a workflow can be completed exactly when each of its steps can.
 */
module WorkflowCompletion {
  import opened Outcomes
  import opened WorkflowSpecs
  import opened WorkflowGraph
  import opened WorkflowRuns
  import opened WorkflowValidation

  // ----- One step -----

  /** Where a call may have come from, state by state. */
  function Predecessors(to: Status): set<Status> {
    match to
    case Pending => {}
    case Ready => {Pending, Failed}
    case Running => {Ready}
    case Succeeded => {Running}
    case Failed => {Running}
    case Skipped => {Ready}
    case Cancelled => {Pending, Ready, Running, Failed}
  }

  /** A call is accepted exactly when it repeats the state or comes from a predecessor, and it counts a start. */
  lemma AcceptedFrom(s: Step, next: Status)
    ensures Transition(s, next).Some? <==> s.status == next || s.status in Predecessors(next)
    ensures Transition(s, next).Some? ==>
      Transition(s, next).value == s.(status := next, attempt := s.attempt + if next == Running then 1 else 0)
  {
  }

  predicate Final(s: Status) {
    s == Succeeded || s == Cancelled || s == Skipped
  }

  /** The final states are exactly those that no call changes. */
  lemma FinalExactly(s: Step)
    ensures Final(s.status) <==> forall next :: Transition(s, next).Some? ==> Transition(s, next).value == s
  {
    if s.status == Pending || s.status == Failed {
      assert Transition(s, Ready).Some?;
    } else if s.status == Ready || s.status == Running {
      assert Transition(s, Running).Some? && Transition(s, Running).value.attempt != s.attempt;
    }
  }

  /** A step that has succeeded, is running, or has an attempt left. */
  predicate CanSucceed(s: Step) {
    s.status == Succeeded || s.status == Running || ((Waiting(s.status) || s.status == Failed) && s.attempt < s.maxAttempts)
  }

  /** No call within the attempts brings a lost step back. */
  lemma LostForGood(s: Step, next: Status)
    requires AttemptsOk(s) && !CanSucceed(s) && Transition(s, next).Some? && AttemptsOk(Transition(s, next).value)
    ensures !CanSucceed(Transition(s, next).value)
  {
  }

  lemma {:induction false} LostHistory(h: seq<Step>, t: nat)
    requires IsHistory(h) && t < |h| && !CanSucceed(h[0])
    ensures !CanSucceed(h[t])
  {
    if t > 0 {
      LostHistory(h, t - 1);
      assert Transition(h[t - 1], h[t - 1 + 1].status) == Some(h[t]);
      LostForGood(h[t - 1], h[t].status);
    }
  }

  /** The call that brings a step nearer to success. */
  function Nearer(s: Step): Step {
    match s.status
    case Pending | Failed => s.(status := Ready)
    case Ready => s.(status := Running, attempt := s.attempt + 1)
    case _ => s.(status := Succeeded)
  }

  function CallsLeft(s: Status): nat {
    match s
    case Pending | Failed => 3
    case Ready => 2
    case Running => 1
    case _ => 0
  }

  lemma NearerIsACall(s: Step)
    requires AttemptsOk(s) && CanSucceed(s) && s.status != Succeeded
    ensures Transition(s, Nearer(s).status) == Some(Nearer(s)) && Nearer(s) != s
    ensures AttemptsOk(Nearer(s)) && CanSucceed(Nearer(s)) && CallsLeft(Nearer(s).status) < CallsLeft(s.status)
  {
  }

  lemma {:induction false} Succeeds(s: Step) returns (h: seq<Step>)
    requires AttemptsOk(s) && CanSucceed(s)
    ensures IsHistory(h) && h[0] == s && h[|h| - 1].status == Succeeded
    decreases CallsLeft(s.status)
  {
    if s.status == Succeeded {
      h := [s];
    } else {
      NearerIsACall(s);
      var rest := Succeeds(Nearer(s));
      h := [s] + rest;
      forall i | 0 <= i < |h| - 1 ensures h[i] != h[i + 1] && Transition(h[i], h[i + 1].status) == Some(h[i + 1]) {
        if i > 0 { assert h[i] == rest[i - 1] && h[i + 1] == rest[i]; }
      }
    }
  }

  ghost predicate ReachesSuccess(s: Step) {
    exists h: seq<Step> :: IsHistory(h) && h[0] == s && h[|h| - 1].status == Succeeded
  }

  /** A step, a failed one with an attempt left among them, can be brought to success exactly when `CanSucceed`. */
  lemma SuccessExactly(s: Step)
    requires AttemptsOk(s)
    ensures ReachesSuccess(s) <==> CanSucceed(s)
  {
    if CanSucceed(s) {
      var h := Succeeds(s);
    } else {
      forall h: seq<Step> | IsHistory(h) && h[0] == s ensures h[|h| - 1].status != Succeeded {
        LostHistory(h, |h| - 1);
      }
    }
  }

  // ----- What is listed -----

  /** A step is listed exactly when it is pending or ready and every step it depends on has succeeded. */
  lemma ListedPlainly(steps: seq<Step>, i: nat)
    requires Schedulable(steps) && i < |steps|
    ensures steps[i].key in ReadyKeys(steps) <==>
      && (steps[i].status == Pending || steps[i].status == Ready)
      && forall d :: d in steps[i].dependsOn ==>
        exists j :: 0 <= j < |steps| && steps[j].key == d && steps[j].status == Succeeded
  {
    hide ReadyKeys, ByKey, Acyclic, Closed;
    ListedExactly(steps, i);
    ByKeyUnique(steps);
    ByKeyMembers(steps);
    forall d | d in steps[i].dependsOn
      ensures (d in ByKey(steps) && ByKey(steps)[d].status == Succeeded) <==>
        exists j :: 0 <= j < |steps| && steps[j].key == d && steps[j].status == Succeeded
    {
    }
  }

  // ----- The whole workflow -----

  predicate AllCanSucceed(steps: seq<Step>) {
    forall i :: 0 <= i < |steps| ==> CanSucceed(steps[i])
  }

  predicate AllSucceeded(steps: seq<Step>) {
    forall i :: 0 <= i < |steps| ==> steps[i].status == Succeeded
  }

  function TotalCallsLeft(steps: seq<Step>): nat {
    if steps == [] then 0 else CallsLeft(steps[0].status) + TotalCallsLeft(steps[1..])
  }

  lemma {:induction false} TotalDrops(steps: seq<Step>, i: nat, s: Step)
    requires i < |steps| && CallsLeft(s.status) < CallsLeft(steps[i].status)
    ensures TotalCallsLeft(steps[i := s]) < TotalCallsLeft(steps)
  {
    hide CallsLeft;
    if i == 0 {
      assert steps[0 := s][1..] == steps[1..];
    } else {
      assert steps[i := s][1..] == steps[1..][i - 1 := s];
      TotalDrops(steps[1..], i - 1, s);
    }
  }

  /** While something has not succeeded, some step can be brought nearer: one that runs or failed, or a listed one. */
  lemma SomethingMoves(steps: seq<Step>) returns (i: nat)
    requires Schedulable(steps) && AllAttemptsOk(steps) && AllCanSucceed(steps) && !AllSucceeded(steps)
    ensures i < |steps| && steps[i].status != Succeeded && Advances(steps, steps[i := Nearer(steps[i])], i, false)
  {
    if j :| 0 <= j < |steps| && (steps[j].status == Running || steps[j].status == Failed) {
      i := j;
    } else {
      EmptyListMeansDone(steps);
      FilterReadyExactly(ByKey(steps), steps, ReadyKeys(steps)[0]);
      i :| 0 <= i < |steps| && steps[i].key == ReadyKeys(steps)[0] && Waiting(steps[i].status);
    }
    NearerIsACall(steps[i]);
  }

  /** Every state of the run keeps its attempts within bounds. */
  ghost predicate CompletesBy(steps: seq<Step>, run: seq<seq<Step>>) {
    && IsRun(run, false) && run[0] == steps && AllSucceeded(run[|run| - 1])
    && forall t :: 0 <= t < |run| ==> AllAttemptsOk(run[t])
  }

  lemma {:induction false} Completes(steps: seq<Step>) returns (run: seq<seq<Step>>)
    requires Schedulable(steps) && AllAttemptsOk(steps) && AllCanSucceed(steps)
    ensures CompletesBy(steps, run)
    decreases TotalCallsLeft(steps)
  {
    if AllSucceeded(steps) {
      run := [steps];
    } else {
      hide Schedulable, Advances;
      var i := SomethingMoves(steps);
      NearerIsACall(steps[i]);
      var after := steps[i := Nearer(steps[i])];
      AdvanceStaysSchedulable(steps, after, i);
      TotalDrops(steps, i, Nearer(steps[i]));
      var rest := Completes(after);
      run := [steps] + rest;
      assert AdvancesSomewhere(steps, after, false);
      forall t | 0 <= t < |run| - 1 ensures AdvancesSomewhere(run[t], run[t + 1], false) {
        if t > 0 {
          assert run[t] == rest[t - 1] && run[t + 1] == rest[t - 1 + 1];
        }
      }
    }
  }

  lemma AdvanceStaysSchedulable(before: seq<Step>, after: seq<Step>, i: nat)
    requires Schedulable(before) && Advances(before, after, i, false)
    ensures Schedulable(after)
  {
    assert AdvancesSomewhere(before, after, false);
    RunStaysSchedulable([before, after], false, 1);
  }

  /** One call keeps a lost step lost. */
  lemma AdvanceKeepsLost(before: seq<Step>, after: seq<Step>, j: nat)
    requires AllAttemptsOk(before) && AllAttemptsOk(after) && AdvancesSomewhere(before, after, false)
    requires j < |before| && !CanSucceed(before[j])
    ensures |after| == |before| && !CanSucceed(after[j])
  {
    hide CanSucceed;
    var i: nat :| Advances(before, after, i, false);
    if i == j { LostForGood(before[i], after[i].status); }
  }

  lemma {:induction false} LostInRun(run: seq<seq<Step>>, j: nat, t: nat)
    requires IsRun(run, false) && (forall u :: 0 <= u < |run| ==> AllAttemptsOk(run[u])) && t < |run|
    requires j < |run[0]| && !CanSucceed(run[0][j])
    ensures j < |run[t]| && !CanSucceed(run[t][j])
  {
    hide CanSucceed, AllAttemptsOk;
    if t > 0 {
      LostInRun(run, j, t - 1);
      assert AdvancesSomewhere(run[t - 1], run[t - 1 + 1], false);
      AdvanceKeepsLost(run[t - 1], run[t], j);
    }
  }

  ghost predicate Completable(steps: seq<Step>) {
    exists run: seq<seq<Step>> :: CompletesBy(steps, run)
  }

  /**
   A schedulable workflow, one whose steps all wait with an attempt left among them, can be run to
   success of every step exactly when each step can still succeed.
   */
  lemma CompletableExactly(steps: seq<Step>)
    requires Schedulable(steps) && AllAttemptsOk(steps)
    ensures Completable(steps) <==> AllCanSucceed(steps)
  {
    hide Schedulable, CanSucceed, AllAttemptsOk;
    if AllCanSucceed(steps) {
      var run := Completes(steps);
    } else {
      var j: nat :| j < |steps| && !CanSucceed(steps[j]);
      forall run: seq<seq<Step>> ensures !CompletesBy(steps, run) {
        if CompletesBy(steps, run) {
          LostInRun(run, j, |run| - 1);
          SucceededCan(run[|run| - 1][j]);
        }
      }
    }
  }

  lemma SucceededCan(s: Step)
    requires s.status == Succeeded
    ensures CanSucceed(s)
  {
  }

  // ----- Planned workflows -----

  lemma {:induction false} RunKeepsSteps(run: seq<seq<Step>>, freeCancel: bool, t: nat, i: nat)
    requires IsRun(run, freeCancel) && t < |run| && i < |run[0]|
    ensures |run[t]| == |run[0]| && run[t][i].key == run[0][i].key && run[t][i].dependsOn == run[0][i].dependsOn
  {
    if t > 0 {
      RunKeepsSteps(run, freeCancel, t - 1, i);
      assert AdvancesSomewhere(run[t - 1], run[t - 1 + 1], freeCancel);
    }
  }

  /** In a run of a plan whatever has started or finished comes after the success of every step before it. */
  lemma {:induction false} PlanRunsInOrder(base: ResourceRequest, includeDeploy: bool, run: seq<seq<Step>>,
                                           freeCancel: bool, t: nat, i: nat, j: nat)
    requires IsRun(run, freeCancel) && run[0] == PlanSteps(base, includeDeploy) && t < |run|
    requires i < j < |PlanKeys(includeDeploy)| && |run[t]| == |PlanKeys(includeDeploy)|
    requires Settled(run[t][j].status, freeCancel)
    ensures run[t][i].key == PlanKeys(includeDeploy)[i] && run[t][i].status == Succeeded
    decreases j
  {
    hide PlanSteps, PlanKeys, ByKey, IsRun;
    PlanStepAt(base, includeDeploy, j);
    PlanStepAt(base, includeDeploy, j - 1);
    PlanStepAt(base, includeDeploy, i);
    RunKeepsSteps(run, freeCancel, t, j);
    RunKeepsSteps(run, freeCancel, t, j - 1);
    RunKeepsSteps(run, freeCancel, t, i);
    PlanWaits(base, includeDeploy);
    NothingStartsEarly(run, freeCancel, t, t, j);
    RunStaysSchedulable(run, freeCancel, t);
    var key := PlanKeys(includeDeploy)[j - 1];
    assert key in run[t][j].dependsOn;
    SucceededStep(run[t], j - 1);
    if i < j - 1 { PlanRunsInOrder(base, includeDeploy, run, freeCancel, t, i, j - 1); }
  }

  lemma PlanWaits(base: ResourceRequest, includeDeploy: bool)
    ensures forall j :: 0 <= j < |PlanSteps(base, includeDeploy)| ==> Waiting(PlanSteps(base, includeDeploy)[j].status)
  {
  }

  lemma SucceededStep(steps: seq<Step>, i: nat)
    requires UniqueKeys(steps) && i < |steps|
    ensures steps[i].key in ByKey(steps) && ByKey(steps)[steps[i].key] == steps[i]
  {
    ByKeyUnique(steps);
  }

  /** Every plan that is handed out can be completed. */
  lemma PlanCompletes(input: Spec)
    requires RequestOk(input.resourceRequest)
    ensures Completable(PlanSteps(Normalized(input.resourceRequest), input.includeDeploy))
  {
    hide Schedulable;
    var base := Normalized(input.resourceRequest);
    NormalizedIsOk(input.resourceRequest);
    PlanIsOk(base, input.includeDeploy);
    StepsAreSchedulable(base, input.includeDeploy);
    CompletableExactly(PlanSteps(base, input.includeDeploy));
  }

  lemma StepsAreSchedulable(base: ResourceRequest, includeDeploy: bool)
    requires StepsOk(PlanSteps(base, includeDeploy), includeDeploy)
    ensures Schedulable(PlanSteps(base, includeDeploy)) && AllAttemptsOk(PlanSteps(base, includeDeploy))
    ensures AllCanSucceed(PlanSteps(base, includeDeploy))
  {
    PlanNames(base, includeDeploy);
    forall i | 0 <= i < |PlanSteps(base, includeDeploy)|
      ensures AttemptsOk(PlanSteps(base, includeDeploy)[i]) && CanSucceed(PlanSteps(base, includeDeploy)[i])
    {
      PlanStepAt(base, includeDeploy, i);
    }
  }
}
