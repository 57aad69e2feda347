/**
 A table whose rows carry the number of their episode: the runs the import finds are the episodes,
 and the loader rebuilds them step by step.
 */
module LeRobotRuns {
  import opened LeRobotImport
  import opened LeRobotImportedFile
  import opened LeRobotTables
  import opened TrajectoryLaws
  import opened TrajectoryRows

  predicate NumberedAt<T>(episodes: seq<seq<T>>, values: seq<Value>, e: nat)
    requires e < |episodes|
  {
    && episodes[e] != [] && Offset(episodes, e + 1) <= |values|
    && forall k :: Offset(episodes, e) <= k < Offset(episodes, e + 1) ==> values[k] == Integer(e)
  }

  /** The values repeat the number of each episode once for each of its steps. */
  predicate Numbered<T>(episodes: seq<seq<T>>, values: seq<Value>) {
    && |values| == Offset(episodes, |episodes|)
    && forall e :: 0 <= e < |episodes| ==> NumberedAt(episodes, values, e)
  }

  lemma OffsetNext<T>(episodes: seq<seq<T>>, e: nat)
    requires e < |episodes|
    ensures Offset(episodes, e + 1) == Offset(episodes, e) + |episodes[e]| && Offset(episodes, 0) == 0
  {
  }

  lemma ValueAt<T>(episodes: seq<seq<T>>, values: seq<Value>, e: nat, p: nat)
    requires Numbered(episodes, values) && e < |episodes| && p < |episodes[e]|
    ensures Offset(episodes, e) + p < |values| && values[Offset(episodes, e) + p] == Integer(e)
  {
    assert NumberedAt(episodes, values, e);
    OffsetNext(episodes, e);
  }

  lemma NumberedLength<T>(episodes: seq<seq<T>>, values: seq<Value>)
    requires Numbered(episodes, values)
    ensures |values| == Offset(episodes, |episodes|)
  {
  }

  lemma EpisodeNotEmpty<T>(episodes: seq<seq<T>>, values: seq<Value>, e: nat)
    requires Numbered(episodes, values) && e < |episodes|
    ensures |episodes[e]| > 0
  {
    assert NumberedAt(episodes, values, e);
  }

  /** Every row number is `Offset(e) + p` for one step. */
  lemma {:induction false} Locate<T>(episodes: seq<seq<T>>, n: nat, k: nat) returns (e: nat, p: nat)
    requires n <= |episodes| && k < Offset(episodes, n)
    ensures e < n && p < |episodes[e]| && k == Offset(episodes, e) + p
  {
    if k >= Offset(episodes, n - 1) {
      e, p := n - 1, k - Offset(episodes, n - 1);
    } else {
      e, p := Locate(episodes, n - 1, k);
    }
  }

  lemma NumberedIntegers<T>(episodes: seq<seq<T>>, values: seq<Value>)
    requires Numbered(episodes, values)
    ensures AllIntegers(values)
  {
    forall k | 0 <= k < |values| ensures values[k].Integer? {
      var e, p := Locate(episodes, |episodes|, k);
      ValueAt(episodes, values, e, p);
    }
  }

  lemma {:induction false} PositionOfStep<T>(episodes: seq<seq<T>>, values: seq<Value>, e: nat, p: nat)
    requires Numbered(episodes, values) && e < |episodes| && p < |episodes[e]|
    ensures Offset(episodes, e) + p < |values|
    ensures Position(values, Offset(episodes, e) + p) == p
  {
    hide Numbered, Offset;
    ValueAt(episodes, values, e, p);
    if p > 0 {
      ValueAt(episodes, values, e, p - 1);
      PositionOfStep(episodes, values, e, p - 1);
    } else if e > 0 {
      EpisodeNotEmpty(episodes, values, e - 1);
      OffsetNext(episodes, e - 1);
      ValueAt(episodes, values, e - 1, |episodes[e - 1]| - 1);
    } else {
      OffsetNext(episodes, 0);
    }
  }

  lemma EndOfEpisode<T>(episodes: seq<seq<T>>, values: seq<Value>, e: nat, p: nat)
    requires Numbered(episodes, values) && e < |episodes| && p < |episodes[e]|
    ensures Offset(episodes, e) + p < |values|
    ensures EndsRun(values, Offset(episodes, e) + p) <==> p == |episodes[e]| - 1
  {
    hide Numbered, Offset;
    NumberedLength(episodes, values);
    OffsetNext(episodes, e);
    ValueAt(episodes, values, e, p);
    if p < |episodes[e]| - 1 {
      ValueAt(episodes, values, e, p + 1);
    } else if e + 1 < |episodes| {
      EpisodeNotEmpty(episodes, values, e + 1);
      ValueAt(episodes, values, e + 1, 0);
    }
  }

  // ----- The groups -----

  function Consecutive(start: nat, n: nat): (r: seq<nat>)
    ensures |r| == n
  {
    if n == 0 then [] else Consecutive(start, n - 1) + [start + n - 1]
  }

  /** The groups of the first `n` episodes. */
  function GroupsOf<T>(episodes: seq<seq<T>>, n: nat): (groups: seq<Group>)
    requires n <= |episodes|
    ensures |groups| == n
    ensures forall e :: 0 <= e < n ==> groups[e].index == e && |groups[e].rows| == |episodes[e]|
  {
    if n == 0 then []
    else GroupsOf(episodes, n - 1) + [Group(n - 1, Consecutive(Offset(episodes, n - 1), |episodes[n - 1]|))]
  }

  lemma RunExtends(groups: seq<Group>, e: int, start: nat, p: nat)
    requires p > 1
    ensures NextGroups(groups + [Group(e, Consecutive(start, p - 1))], e, start + p - 1) == groups + [Group(e, Consecutive(start, p))]
  {
    var before, after := groups + [Group(e, Consecutive(start, p - 1))], groups + [Group(e, Consecutive(start, p))];
    assert NextGroups(before, e, start + p - 1) == before[|groups| := after[|groups|]];
  }

  lemma RunStarts(groups: seq<Group>, e: int, start: nat)
    requires groups == [] || groups[|groups| - 1].index != e
    ensures NextGroups(groups, e, start) == groups + [Group(e, Consecutive(start, 1))]
  {
    assert Consecutive(start, 1) == [start];
  }

  /** Every episode is one run. */
  lemma {:induction false} RunsOfEpisodes<T>(episodes: seq<seq<T>>, values: seq<Value>, e: nat, p: nat)
    requires Numbered(episodes, values) && AllIntegers(values) && e < |episodes| && 0 < p <= |episodes[e]|
    ensures Offset(episodes, e) + p <= |values|
    ensures RunsOf(values, Offset(episodes, e) + p) == GroupsOf(episodes, e) + [Group(e, Consecutive(Offset(episodes, e), p))]
    decreases e, p
  {
    hide Numbered, Offset, NextGroups, AllIntegers, Consecutive;
    ValueAt(episodes, values, e, p - 1);
    if p > 1 {
      RunsOfEpisodes(episodes, values, e, p - 1);
      RunExtends(GroupsOf(episodes, e), e, Offset(episodes, e), p);
    } else {
      OffsetNext(episodes, if e > 0 then e - 1 else 0);
      if e > 0 {
        EpisodeNotEmpty(episodes, values, e - 1);
        RunsOfEpisodes(episodes, values, e - 1, |episodes[e - 1]|);
      }
      RunStarts(GroupsOf(episodes, e), e, Offset(episodes, e));
    }
  }

  lemma GroupsAreEpisodes<T>(episodes: seq<seq<T>>, values: seq<Value>)
    requires Numbered(episodes, values) && AllIntegers(values) && episodes != []
    ensures RunsOf(values, |values|) == GroupsOf(episodes, |episodes|)
  {
    hide Numbered, Offset, RunsOf, Consecutive, AllIntegers;
    var n := |episodes|;
    NumberedLength(episodes, values);
    EpisodeNotEmpty(episodes, values, n - 1);
    OffsetNext(episodes, n - 1);
    RunsOfEpisodes(episodes, values, n - 1, |episodes[n - 1]|);
  }

  // ----- The rebuilt episodes -----

  predicate StepIs(table: Table, fps: int, values: seq<Value>, k: nat, step: Step)
    requires |table.rows| == |values|
  {
    k < |values| && DecodeAt(table, fps, values, k).Ok? && StepOf(DecodeAt(table, fps, values, k).value) == step
  }

  predicate StepsAre(table: Table, fps: int, values: seq<Value>, episodes: seq<seq<Step>>, e: nat)
    requires |table.rows| == |values| && e < |episodes|
  {
    forall p :: 0 <= p < |episodes[e]| ==> StepIs(table, fps, values, Offset(episodes, e) + p, episodes[e][p])
  }

  lemma GrownPrefix(before: seq<seq<Step>>, steps: seq<Step>, p: nat)
    requires 0 < p <= |steps|
    ensures Grown(Split(before, steps[..p - 1]), steps[p - 1], p == |steps|) ==
      if p < |steps| then Split(before, steps[..p]) else Split(before + [steps], [])
    ensures steps[..0] == []
  {
    assert steps[..p] == steps[..p - 1] + [steps[p - 1]];
    assert p == |steps| ==> steps[..p] == steps;
  }

  lemma SplitGrows(table: Table, fps: int, values: seq<Value>, episodes: seq<seq<Step>>, e: nat, p: nat)
    requires |table.rows| == |values| && StepLines(table, fps, values, |values|).Ok?
    requires Numbered(episodes, values) && e < |episodes| && 0 < p <= |episodes[e]|
    requires StepsAre(table, fps, values, episodes, e)
    ensures
      var k := Offset(episodes, e) + p;
      && k <= |values| && StepLines(table, fps, values, k).Ok? && StepLines(table, fps, values, k - 1).Ok?
      && SplitAfter(table, fps, values, k) == Grown(SplitAfter(table, fps, values, k - 1), episodes[e][p - 1], p == |episodes[e]|)
  {
    hide Numbered, StepLines, DecodeAt, EndsRun, Grown, Offset, StepOf;
    var k := Offset(episodes, e) + p;
    assert StepIs(table, fps, values, Offset(episodes, e) + (p - 1), episodes[e][p - 1]);
    EndOfEpisode(episodes, values, e, p - 1);
    PrefixOk(table, fps, values, k);
    PrefixOk(table, fps, values, k - 1);
  }

  lemma {:induction false} SplitIsEpisodes(table: Table, fps: int, values: seq<Value>, episodes: seq<seq<Step>>, e: nat, p: nat)
    requires |table.rows| == |values| && StepLines(table, fps, values, |values|).Ok?
    requires Numbered(episodes, values) && e < |episodes| && 0 < p <= |episodes[e]|
    requires forall d :: 0 <= d <= e ==> StepsAre(table, fps, values, episodes, d)
    ensures
      var k := Offset(episodes, e) + p;
      && k <= |values| && StepLines(table, fps, values, k).Ok?
      && SplitAfter(table, fps, values, k) ==
         if p < |episodes[e]| then Split(episodes[..e], episodes[e][..p]) else Split(episodes[..e + 1], [])
    decreases e, p
  {
    hide Numbered, StepLines, Offset, StepsAre, SplitAfter, Grown;
    SplitGrows(table, fps, values, episodes, e, p);
    GrownPrefix(episodes[..e], episodes[e], p);
    assert episodes[..e] + [episodes[e]] == episodes[..e + 1];
    if p > 1 {
      SplitIsEpisodes(table, fps, values, episodes, e, p - 1);
    } else if e > 0 {
      EpisodeNotEmpty(episodes, values, e - 1);
      OffsetNext(episodes, e - 1);
      SplitIsEpisodes(table, fps, values, episodes, e - 1, |episodes[e - 1]|);
    } else {
      OffsetNext(episodes, 0);
      NothingSplit(table, fps, values);
    }
  }

  lemma NothingSplit(table: Table, fps: int, values: seq<Value>)
    requires |table.rows| == |values|
    ensures StepLines(table, fps, values, 0).Ok? && SplitAfter(table, fps, values, 0) == Split([], [])
  {
  }

  /** The import of a numbered table rebuilds its episodes. */
  lemma WholeSplit(table: Table, fps: int, values: seq<Value>, episodes: seq<seq<Step>>)
    requires |table.rows| == |values| && StepLines(table, fps, values, |values|).Ok?
    requires Numbered(episodes, values) && episodes != []
    requires forall e :: 0 <= e < |episodes| ==> StepsAre(table, fps, values, episodes, e)
    ensures SplitAfter(table, fps, values, |values|) == Split(episodes, [])
  {
    hide Numbered, StepLines, Offset, StepsAre, SplitAfter;
    var n := |episodes|;
    NumberedLength(episodes, values);
    EpisodeNotEmpty(episodes, values, n - 1);
    OffsetNext(episodes, n - 1);
    SplitIsEpisodes(table, fps, values, episodes, n - 1, |episodes[n - 1]|);
    assert episodes[..n] == episodes;
  }
}
