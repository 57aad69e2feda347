/** What every loaded trajectory dataset satisfies, whatever rows it was loaded from. */
module TrajectoryLaws {
  import opened Outcomes
  import opened TrajectoryRows

  /** The number of frames in the first `n` episodes. */
  function Offset<T>(episodes: seq<seq<T>>, n: nat): nat
    requires n <= |episodes|
  {
    if n == 0 then 0 else Offset(episodes, n - 1) + |episodes[n - 1]|
  }

  predicate StepFits(st: Loaded, s: Step) {
    && st.obsDim == Some(|s.observation|) && st.actDim == Some(|s.action|)
    && s.observation != [] && s.action != []
    && s.reward.Some? == st.hasReward
  }

  predicate StepsFit(st: Loaded, steps: seq<Step>) {
    forall p :: 0 <= p < |steps| ==> StepFits(st, steps[p])
  }

  predicate EpisodesFit(st: Loaded) {
    forall e :: 0 <= e < |st.episodes| ==> st.episodes[e] != [] && StepsFit(st, st.episodes[e])
  }

  predicate WellFormed(st: Loaded) {
    && EpisodesFit(st)
    && StepsFit(st, st.current)
    && st.totalSteps == Offset(st.episodes, |st.episodes|) + |st.current|
    && (forall k :: 0 <= k < |st.sampleHz| ==> st.sampleHz[k] > 0.0)
  }

  lemma {:induction false} OffsetOfPrefix<T>(episodes: seq<seq<T>>, more: seq<seq<T>>, n: nat)
    requires n <= |episodes|
    ensures Offset(episodes + more, n) == Offset(episodes, n)
  {
    if n > 0 { OffsetOfPrefix(episodes, more, n - 1); }
  }

  lemma NoStepsMeansEmpty(st: Loaded)
    requires WellFormed(st) && st.totalSteps == 0
    ensures st.episodes == [] && st.current == []
  {
  }

  lemma AppendKeeps(st: Loaded, step: Step, done: bool)
    requires WellFormed(st) && st.obsDim == Some(|step.observation|) && st.actDim == Some(|step.action|)
    requires step.observation != [] && step.action != []
    ensures Append(st, step, done).Ok? ==> WellFormed(Append(st, step, done).value)
  {
    if st.totalSteps == 0 { NoStepsMeansEmpty(st); }
    var r := Append(st, step, done);
    if r.Ok? {
      var steps := st.current + [step];
      assert StepsFit(r.value, steps);
      OffsetOfPrefix(st.episodes, [steps], |st.episodes|);
    }
  }

  lemma TakeStepKeeps(st: Loaded, row: Row)
    requires WellFormed(st) && (st.obsDim.None? ==> st.totalSteps == 0)
    ensures TakeStep(st, row).Ok? ==> WellFormed(TakeStep(st, row).value) && TakeStep(st, row).value.obsDim.Some?
  {
    hide WellFormed, Append;
    var vectors, done := VectorsOf(row), DoneOf(row);
    if vectors.Ok? && done.Ok? {
      var v := vectors.value;
      var fixed := if st.obsDim.None? then st.(obsDim := Some(|v.observation|), actDim := Some(|v.action|)) else st;
      FixingKeeps(st, fixed);
      if TimeOf(row).Ok? && RewardOf(row).Ok? && Some(|v.observation|) == fixed.obsDim && Some(|v.action|) == fixed.actDim {
        var step := Step(v.observation, v.action, TimeOf(row).value, RewardOf(row).value);
        AppendKeeps(fixed, step, done.value);
        AppendKeepsDims(fixed, step, done.value);
      }
    }
  }

  lemma AppendKeepsDims(st: Loaded, step: Step, done: bool)
    ensures Append(st, step, done).Ok? ==> Append(st, step, done).value.obsDim == st.obsDim
  {
  }

  lemma FixingKeeps(st: Loaded, fixed: Loaded)
    requires WellFormed(st) && (fixed == st || (st.totalSteps == 0 && fixed == st.(obsDim := fixed.obsDim, actDim := fixed.actDim)))
    ensures WellFormed(fixed)
  {
    if st.totalSteps == 0 { NoStepsMeansEmpty(st); }
  }

  /** Dimensions are fixed by the first step. */
  predicate Sound(st: Loaded) {
    WellFormed(st) && (st.obsDim.None? ==> st.totalSteps == 0)
  }

  lemma TakeRecordKeeps(st: Loaded, row: Row)
    requires Sound(st)
    ensures TakeRecord(st, row).Ok? ==> Sound(TakeRecord(st, row).value)
  {
    hide TakeStep, EpisodesFit, StepsFit;
    TakeStepKeeps(st, row);
    if Get(row, TypeField) == Text("header") && Finite(Get(row, SampleHzField)).Some? {
      RateKeeps(st, Finite(Get(row, SampleHzField)).value);
    }
  }

  lemma RateKeeps(st: Loaded, hz: real)
    requires Sound(st)
    ensures hz > 0.0 ==> Sound(st.(sampleHz := Declared(st.sampleHz, hz)))
  {
    var after := st.(sampleHz := Declared(st.sampleHz, hz));
    assert forall steps :: StepsFit(st, steps) ==> StepsFit(after, steps);
  }

  lemma {:induction false} TakeSamplesKeeps(st: Loaded, samples: seq<Value>, n: nat)
    requires Sound(st) && n <= |samples|
    ensures TakeSamples(st, samples, n).Ok? ==> Sound(TakeSamples(st, samples, n).value)
  {
    hide Sound, TakeRecord;
    if n > 0 {
      TakeSamplesKeeps(st, samples, n - 1);
      var before := TakeSamples(st, samples, n - 1);
      if before.Ok? && samples[n - 1].Object? { TakeRecordKeeps(before.value, samples[n - 1].fields); }
    }
  }

  lemma {:induction false} TakeLinesKeeps(st: Loaded, lines: seq<Line>, n: nat)
    requires Sound(st) && n <= |lines|
    ensures TakeLines(st, lines, n).Ok? ==> Sound(TakeLines(st, lines, n).value)
  {
    hide Sound, TakeRecord, TakeSamples;
    if n > 0 {
      TakeLinesKeeps(st, lines, n - 1);
      var before := TakeLines(st, lines, n - 1);
      if before.Ok? { TakeLineKeeps(before.value, lines[n - 1]); }
    }
  }

  lemma TakeLineKeeps(st: Loaded, line: Line)
    requires Sound(st)
    ensures TakeLine(st, line).Ok? ==> Sound(TakeLine(st, line).value)
  {
    hide Sound, TakeRecord, TakeSamples;
    if line.Parsed? && line.value.Object? {
      var row := line.value.fields;
      TakeRecordKeeps(st, row);
      if SamplesField in row && row[SamplesField].List? {
        TakeSamplesKeeps(st, row[SamplesField].items, |row[SamplesField].items|);
      }
    }
  }

  lemma CloseKeeps(st: Loaded)
    requires Sound(st)
    ensures Sound(CloseEpisode(st)) && CloseEpisode(st).current == []
  {
    var after := CloseEpisode(st);
    assert StepsFit(after, st.current);
    OffsetOfPrefix(st.episodes, [st.current], |st.episodes|);
  }

  lemma {:induction false} TakeFilesKeeps(files: seq<seq<Line>>, n: nat)
    requires n <= |files|
    ensures TakeFiles(EMPTY, files, n).Ok? ==> Sound(TakeFiles(EMPTY, files, n).value)
    ensures TakeFiles(EMPTY, files, n).Ok? ==> TakeFiles(EMPTY, files, n).value.current == []
  {
    if n > 0 {
      hide Sound, TakeLine, CloseEpisode;
      TakeFilesKeeps(files, n - 1);
      var before := TakeFiles(EMPTY, files, n - 1);
      if before.Ok? {
        TakeLinesKeeps(before.value, files[n - 1], |files[n - 1]|);
        var after := TakeLines(before.value, files[n - 1], |files[n - 1]|);
        if after.Ok? { CloseKeeps(after.value); }
      }
    }
  }

  /**
   Every accepted input gives whole, non-empty episodes whose steps agree on the dimensions and on
   carrying a reward, and counts each step once.
   */
  lemma LoadedIsWellFormed(files: seq<seq<Line>>)
    requires Load(files).Ok?
    ensures
      var st := Load(files).value;
      && st.episodes != [] && st.current == [] && WellFormed(st)
      && st.totalSteps == Offset(st.episodes, |st.episodes|) > 0 && st.obsDim.Some?
  {
    TakeFilesKeeps(files, |files|);
    var st := Load(files).value;
    if st.totalSteps == 0 { NoStepsMeansEmpty(st); }
  }

  /** The loader with what `LoadedIsWellFormed` says of its result. */
  function LoadDataset(files: seq<seq<Line>>): (r: Result<Loaded, LoadError>)
    ensures r.Ok? ==> WellFormed(r.value) && r.value.episodes != [] && r.value.current == []
  {
    if Load(files).Ok? then
      LoadedIsWellFormed(files);
      Load(files)
    else Load(files)
  }

  // ----- The three row shapes are one -----

  /** An envelope as the lines of its samples; any other line stays as it is. */
  function Unwrapped(line: Line): seq<Line> {
    if line.Parsed? && line.value.Object? && SamplesField in line.value.fields && line.value.fields[SamplesField].List?
    then
      var samples := line.value.fields[SamplesField].items;
      seq(|samples|, k requires 0 <= k < |samples| => Parsed(samples[k]))
    else [line]
  }

  function UnwrappedLines(lines: seq<Line>, n: nat): seq<Line>
    requires n <= |lines|
  {
    if n == 0 then [] else UnwrappedLines(lines, n - 1) + Unwrapped(lines[n - 1])
  }

  /** The samples are objects that are not themselves envelopes. */
  predicate PlainSamples(line: Line) {
    (line.Parsed? && line.value.Object? && SamplesField in line.value.fields && line.value.fields[SamplesField].List?) ==>
      forall k :: 0 <= k < |line.value.fields[SamplesField].items| ==>
        var sample := line.value.fields[SamplesField].items[k];
        sample.Object? && SamplesField !in sample.fields
  }

  lemma {:induction false} LinesSplit(st: Loaded, lines: seq<Line>, more: seq<Line>, n: nat)
    requires n <= |more|
    ensures TakeLines(st, lines + more, |lines| + n) ==
      match TakeLines(st, lines, |lines|) {
        case Err(e) => Err(e)
        case Ok(mid) => TakeLines(mid, more, n)
      }
  {
    if n == 0 {
      TakeLinesOfPrefix(st, lines, more, |lines|);
    } else {
      LinesSplit(st, lines, more, n - 1);
    }
  }

  lemma {:induction false} TakeLinesOfPrefix(st: Loaded, lines: seq<Line>, more: seq<Line>, n: nat)
    requires n <= |lines|
    ensures TakeLines(st, lines + more, n) == TakeLines(st, lines, n)
  {
    if n > 0 { TakeLinesOfPrefix(st, lines, more, n - 1); }
  }

  lemma {:induction false} SamplesAreLines(st: Loaded, samples: seq<Value>, lines: seq<Line>, n: nat)
    requires n <= |samples| == |lines|
    requires forall k :: 0 <= k < |samples| ==>
      lines[k] == Parsed(samples[k]) && samples[k].Object? && SamplesField !in samples[k].fields
    ensures TakeLines(st, lines, n) == TakeSamples(st, samples, n)
  {
    if n > 0 { SamplesAreLines(st, samples, lines, n - 1); }
  }

  lemma UnwrappingLine(st: Loaded, line: Line)
    requires PlainSamples(line)
    ensures TakeLines(st, Unwrapped(line), |Unwrapped(line)|) == TakeLine(st, line)
  {
    if line.Parsed? && line.value.Object? && SamplesField in line.value.fields && line.value.fields[SamplesField].List? {
      var samples := line.value.fields[SamplesField].items;
      SamplesAreLines(st, samples, Unwrapped(line), |samples|);
    } else {
      assert TakeLines(st, [line], 0) == Ok(st);
    }
  }

  lemma {:induction false} UnwrappingLines(st: Loaded, lines: seq<Line>, n: nat)
    requires n <= |lines| && forall k :: 0 <= k < |lines| ==> PlainSamples(lines[k])
    ensures TakeLines(st, UnwrappedLines(lines, n), |UnwrappedLines(lines, n)|) == TakeLines(st, lines, n)
  {
    hide TakeLine, Unwrapped, PlainSamples;
    if n > 0 {
      UnwrappingLines(st, lines, n - 1);
      var before, now := UnwrappedLines(lines, n - 1), Unwrapped(lines[n - 1]);
      LinesSplit(st, before, now, |now|);
      var mid := TakeLines(st, lines, n - 1);
      if mid.Ok? { UnwrappingLine(mid.value, lines[n - 1]); }
    }
  }

  /** Telemetry envelopes load exactly as the rows of their samples. */
  lemma EnvelopesAreRows(files: seq<seq<Line>>, unwrapped: seq<seq<Line>>)
    requires |unwrapped| == |files|
    requires forall f :: 0 <= f < |files| ==> unwrapped[f] == UnwrappedLines(files[f], |files[f]|)
    requires forall f, k :: 0 <= f < |files| && 0 <= k < |files[f]| ==> PlainSamples(files[f][k])
    ensures Load(unwrapped) == Load(files)
  {
    FilesUnwrap(files, unwrapped, |files|);
  }

  lemma {:induction false} FilesUnwrap(files: seq<seq<Line>>, unwrapped: seq<seq<Line>>, n: nat)
    requires n <= |unwrapped| == |files|
    requires forall f :: 0 <= f < |files| ==> unwrapped[f] == UnwrappedLines(files[f], |files[f]|)
    requires forall f, k :: 0 <= f < |files| && 0 <= k < |files[f]| ==> PlainSamples(files[f][k])
    ensures TakeFiles(EMPTY, unwrapped, n) == TakeFiles(EMPTY, files, n)
  {
    hide TakeLine, Unwrapped, PlainSamples;
    if n > 0 {
      FilesUnwrap(files, unwrapped, n - 1);
      var before := TakeFiles(EMPTY, files, n - 1);
      if before.Ok? { UnwrappingLines(before.value, files[n - 1], |files[n - 1]|); }
    }
  }
}
