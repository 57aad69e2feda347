/**
 What a load makes of its files, row by row: which inputs are accepted, which steps the episodes hold in
 which order, and where an episode ends.
 */
module TrajectoryOrder {
  import opened Outcomes
  import opened TrajectoryLaws
  import opened TrajectoryRows

  // ----- The content of the files -----

  /** A decoded step row. */
  datatype Frame = Frame(step: Step, done: bool)

  /** The step rows and the declared rates, in the order they are met. */
  datatype Content = Content(frames: seq<Frame>, rates: seq<real>)

  const NOTHING := Content([], [])

  function Then(a: Content, b: Content): Content {
    Content(a.frames + b.frames, a.rates + b.rates)
  }

  predicate IsKind(row: Row, name: string) {
    Get(row, TypeField) == Text(name)
  }

  predicate IsStep(row: Row) {
    Get(row, TypeField) == Null || IsKind(row, "step")
  }

  function Decoded(row: Row): Option<Frame> {
    if VectorsOf(row).Ok? && DoneOf(row).Ok? && TimeOf(row).Ok? && RewardOf(row).Ok? then
      var v := VectorsOf(row).value;
      Some(Frame(Step(v.observation, v.action, TimeOf(row).value, RewardOf(row).value), DoneOf(row).value))
    else None
  }

  function ContentOfRow(row: Row): Content {
    if IsKind(row, "header") && Finite(Get(row, SampleHzField)).Some? then Content([], [Finite(Get(row, SampleHzField)).value])
    else if IsStep(row) && Decoded(row).Some? then Content([Decoded(row).value], [])
    else NOTHING
  }

  /** An event, a header with no rate or a positive one, or a step row that decodes. */
  predicate RowOk(row: Row) {
    || IsKind(row, "event")
    || (IsKind(row, "header") && (Get(row, SampleHzField) == Null
          || (Finite(Get(row, SampleHzField)).Some? && Finite(Get(row, SampleHzField)).value > 0.0)))
    || (IsStep(row) && Decoded(row).Some?)
  }

  function ContentOfSample(sample: Value): Content {
    if sample.Object? then ContentOfRow(sample.fields) else NOTHING
  }

  function ContentOfSamples(samples: seq<Value>, n: nat): Content
    requires n <= |samples|
  {
    if n == 0 then NOTHING else Then(ContentOfSamples(samples, n - 1), ContentOfSample(samples[n - 1]))
  }

  predicate SampleOk(sample: Value) {
    sample.Object? && RowOk(sample.fields)
  }

  predicate SamplesOk(samples: seq<Value>, n: nat)
    requires n <= |samples|
  {
    forall k :: 0 <= k < n ==> SampleOk(samples[k])
  }

  /** A list of at least one finite number holds `xs`. */
  predicate Lists(v: Value, xs: seq<real>) {
    && v.List? && v.items != [] && |v.items| == |xs|
    && forall k :: 0 <= k < |xs| ==> Finite(v.items[k]) == Some(xs[k])
  }

  lemma ListsExactly(v: Value, xs: seq<real>)
    ensures Lists(v, xs) <==> v.List? && v.items != [] && Reals(v.items) == Some(xs)
  {
    hide Finite;
    if v.List? {
      if Lists(v, xs) {
        assert forall k :: 0 <= k < |v.items| ==> Finite(v.items[k]) == Some(xs[k]);
        assert Reals(v.items).value == xs;
      }
    }
  }

  /** The key is absent and nothing is read, or its value is the finite number read. */
  predicate Optional(row: Row, key: Field, x: Option<real>) {
    if key in row then x.Some? && Finite(row[key]) == x else x.None?
  }

  /**
   A step row decodes to a frame exactly if every part of the frame stands under its key: the observation
   under 'observation' or else 'state', the time under the first of its three keys that is present.
   */
  lemma DecodedExactly(row: Row, f: Frame)
    ensures Decoded(row) == Some(f) <==>
      && Lists(Get(row, if ObservationField in row then ObservationField else StateField), f.step.observation)
      && Lists(Get(row, ActionField), f.step.action)
      && (if f.done then Get(row, DoneField) == Flag(true) else DoneField !in row || row[DoneField] == Flag(false))
      && (TField in row ==> Optional(row, TField, f.step.t))
      && (TField !in row && TimeField in row ==> Optional(row, TimeField, f.step.t))
      && (TField !in row && TimeField !in row ==> Optional(row, TimestampField, f.step.t))
      && Optional(row, RewardField, f.step.reward)
  {
    hide FitsDouble;
    ListsExactly(Get(row, if ObservationField in row then ObservationField else StateField), f.step.observation);
    ListsExactly(Get(row, ActionField), f.step.action);
  }

  predicate IsEnvelope(line: Line) {
    line.Parsed? && line.value.Object? && SamplesField in line.value.fields
  }

  /** An envelope holds the rows of its samples, any other object is a row. */
  function ContentOfLine(line: Line): Content {
    if IsEnvelope(line) then
      var samples := line.value.fields[SamplesField];
      if samples.List? then ContentOfSamples(samples.items, |samples.items|) else NOTHING
    else if line.Parsed? && line.value.Object? then ContentOfRow(line.value.fields)
    else NOTHING
  }

  predicate LineOk(line: Line) {
    if IsEnvelope(line) then
      var samples := line.value.fields[SamplesField];
      samples.List? && SamplesOk(samples.items, |samples.items|)
    else line.Blank? || (line.Parsed? && line.value.Object? && RowOk(line.value.fields))
  }

  function ContentOfLines(lines: seq<Line>, n: nat): Content
    requires n <= |lines|
  {
    if n == 0 then NOTHING else Then(ContentOfLines(lines, n - 1), ContentOfLine(lines[n - 1]))
  }

  predicate LinesOk(lines: seq<Line>, n: nat)
    requires n <= |lines|
  {
    forall k :: 0 <= k < n ==> LineOk(lines[k])
  }

  /** The last step of a file ends its episode. */
  function LastDone(frames: seq<Frame>): seq<Frame> {
    if frames == [] then [] else frames[..|frames| - 1] + [frames[|frames| - 1].(done := true)]
  }

  function ContentOfFile(file: seq<Line>): Content {
    var c := ContentOfLines(file, |file|);
    c.(frames := LastDone(c.frames))
  }

  function ContentOfFiles(files: seq<seq<Line>>, n: nat): Content
    requires n <= |files|
  {
    if n == 0 then NOTHING else Then(ContentOfFiles(files, n - 1), ContentOfFile(files[n - 1]))
  }

  // ----- What a state has taken in -----

  function StepsOf(frames: seq<Frame>): (steps: seq<Step>)
    ensures |steps| == |frames| && forall g :: 0 <= g < |frames| ==> steps[g] == frames[g].step
  {
    seq(|frames|, g requires 0 <= g < |frames| => frames[g].step)
  }

  function Flat(episodes: seq<seq<Step>>): seq<Step> {
    if episodes == [] then [] else Flat(episodes[..|episodes| - 1]) + episodes[|episodes| - 1]
  }

  /** Step `g` is the last one of an episode. */
  predicate EndsEpisode(episodes: seq<seq<Step>>, g: nat) {
    exists e :: 0 < e <= |episodes| && Offset(episodes, e) == g + 1
  }

  predicate Alike(a: Frame, b: Frame) {
    && |a.step.observation| == |b.step.observation| && |a.step.action| == |b.step.action|
    && a.step.reward.Some? == b.step.reward.Some?
  }

  predicate Uniform(frames: seq<Frame>) {
    forall g :: 0 <= g < |frames| ==> Alike(frames[0], frames[g])
  }

  /** The episodes and the open steps are the frames in order, cut after the frames that are done. */
  predicate InOrder(st: Loaded, frames: seq<Frame>) {
    && Flat(st.episodes) + st.current == StepsOf(frames)
    && (forall e :: 0 <= e < |st.episodes| ==> st.episodes[e] != [])
    && forall g :: 0 <= g < |frames| ==> (frames[g].done <==> EndsEpisode(st.episodes, g))
  }

  predicate Shaped(st: Loaded, frames: seq<Frame>) {
    && st.totalSteps == |frames| && Uniform(frames)
    && (frames == [] ==> st.obsDim.None? && st.actDim.None?)
    && (frames != [] ==>
          && st.obsDim == Some(|frames[0].step.observation|) && st.actDim == Some(|frames[0].step.action|)
          && st.hasReward == frames[0].step.reward.Some?)
  }

  /** The declared rates without repetitions. */
  ghost predicate Rated(st: Loaded, rates: seq<real>) {
    && (forall hz :: hz in st.sampleHz <==> hz in rates)
    && forall a, b :: 0 <= a < b < |st.sampleHz| ==> st.sampleHz[a] != st.sampleHz[b]
  }

  ghost predicate Holds(st: Loaded, c: Content) {
    InOrder(st, c.frames) && Shaped(st, c.frames) && Rated(st, c.rates)
  }

  /** A result is a state that holds the content, exactly if the input is good and its steps are alike. */
  ghost predicate Takes(r: Result<Loaded, LoadError>, good: bool, c: Content) {
    (r.Ok? <==> good && Uniform(c.frames)) && (r.Ok? ==> Holds(r.value, c))
  }

  // ----- Offsets and ends -----

  lemma {:induction false} FlatLength(episodes: seq<seq<Step>>)
    ensures |Flat(episodes)| == Offset(episodes, |episodes|)
  {
    if episodes != [] {
      var n := |episodes| - 1;
      FlatLength(episodes[..n]);
      OffsetOfPrefix(episodes[..n], [episodes[n]], n);
      assert episodes == episodes[..n] + [episodes[n]];
    }
  }

  lemma {:induction false} OffsetsGrow(episodes: seq<seq<Step>>, d: nat, e: nat)
    requires d <= e <= |episodes|
    ensures Offset(episodes, d) <= Offset(episodes, e)
  {
    if d < e { OffsetsGrow(episodes, d, e - 1); }
  }

  /** One more episode ends at one more place. */
  lemma OneMoreEnd(episodes: seq<seq<Step>>, steps: seq<Step>, g: nat)
    requires steps != []
    ensures EndsEpisode(episodes + [steps], g) <==>
      EndsEpisode(episodes, g) || g + 1 == Offset(episodes, |episodes|) + |steps|
  {
    var after, n := episodes + [steps], |episodes|;
    forall e | 0 <= e <= n ensures Offset(after, e) == Offset(episodes, e) {
      OffsetOfPrefix(episodes, [steps], e);
    }
    assert Offset(after, n + 1) == Offset(episodes, n) + |steps|;
    if EndsEpisode(episodes, g) {
      var e :| 0 < e <= n && Offset(episodes, e) == g + 1;
      assert Offset(after, e) == g + 1;
    }
    if EndsEpisode(after, g) {
      var e :| 0 < e <= |after| && Offset(after, e) == g + 1;
      if e <= n { assert Offset(episodes, e) == g + 1; }
    }
  }

  lemma EndsAreInside(episodes: seq<seq<Step>>, g: nat)
    requires EndsEpisode(episodes, g)
    ensures g < Offset(episodes, |episodes|)
  {
    var e :| 0 < e <= |episodes| && Offset(episodes, e) == g + 1;
    OffsetsGrow(episodes, e, |episodes|);
  }

  // ----- One step row -----

  lemma AppendInOrder(st: Loaded, frames: seq<Frame>, step: Step, done: bool)
    requires InOrder(st, frames) && Append(st, step, done).Ok?
    ensures InOrder(Append(st, step, done).value, frames + [Frame(step, done)])
  {
    var after, frames' := Append(st, step, done).value, frames + [Frame(step, done)];
    FlatLength(st.episodes);
    assert StepsOf(frames') == StepsOf(frames) + [step];
    assert |frames| == Offset(st.episodes, |st.episodes|) + |st.current|;
    if done {
      var steps := st.current + [step];
      assert (st.episodes + [steps])[..|st.episodes|] == st.episodes;
      forall g | 0 <= g < |frames'| ensures frames'[g].done <==> EndsEpisode(after.episodes, g) {
        OneMoreEnd(st.episodes, steps, g);
        if EndsEpisode(st.episodes, g) { EndsAreInside(st.episodes, g); }
      }
    } else {
      forall g | 0 <= g < |frames'| ensures frames'[g].done <==> EndsEpisode(after.episodes, g) {
        if EndsEpisode(st.episodes, g) { EndsAreInside(st.episodes, g); }
      }
    }
  }

  lemma AppendShaped(st: Loaded, frames: seq<Frame>, frame: Frame)
    requires Shaped(st, frames)
    ensures
      var obs, act := |frame.step.observation|, |frame.step.action|;
      var fixed := if st.obsDim.None? then st.(obsDim := Some(obs), actDim := Some(act)) else st;
      var r := Append(fixed, frame.step, frame.done);
      && (Some(obs) == fixed.obsDim && Some(act) == fixed.actDim && r.Ok? <==> Uniform(frames + [frame]))
      && (r.Ok? && Uniform(frames + [frame]) ==> Shaped(r.value, frames + [frame]))
  {
    var all := frames + [frame];
    assert forall g :: 0 <= g < |frames| ==> all[g] == frames[g];
    assert all[|frames|] == frame;
  }

  lemma UniformPrefix(a: Content, b: Content)
    requires Uniform(Then(a, b).frames)
    ensures Uniform(a.frames)
  {
    assert forall g :: 0 <= g < |a.frames| ==> (a.frames + b.frames)[g] == a.frames[g];
  }

  lemma StepTaken(st: Loaded, c: Content, row: Row)
    requires Holds(st, c) && IsStep(row)
    ensures TakeStep(st, row).Ok? <==> Decoded(row).Some? && Uniform(c.frames + [Decoded(row).value])
    ensures TakeStep(st, row).Ok? ==> Holds(TakeStep(st, row).value, Content(c.frames + [Decoded(row).value], c.rates))
  {
    hide InOrder, Shaped, Uniform, Append;
    if Decoded(row).Some? {
      var frame := Decoded(row).value;
      var obs, act := |frame.step.observation|, |frame.step.action|;
      var fixed := if st.obsDim.None? then st.(obsDim := Some(obs), actDim := Some(act)) else st;
      FixingKeepsOrder(st, fixed, c.frames);
      AppendShaped(st, c.frames, frame);
      AppendKeepsRates(fixed, frame);
      if Append(fixed, frame.step, frame.done).Ok? { AppendInOrder(fixed, c.frames, frame.step, frame.done); }
    }
  }

  lemma FixingKeepsOrder(st: Loaded, fixed: Loaded, frames: seq<Frame>)
    requires InOrder(st, frames) && fixed == st.(obsDim := fixed.obsDim, actDim := fixed.actDim)
    ensures InOrder(fixed, frames)
  {
  }

  lemma AppendKeepsRates(st: Loaded, frame: Frame)
    ensures Append(st, frame.step, frame.done).Ok? ==> Append(st, frame.step, frame.done).value.sampleHz == st.sampleHz
  {
  }

  // ----- Rows, lines and files -----

  lemma RateTaken(st: Loaded, c: Content, hz: real)
    requires Holds(st, c)
    ensures Holds(st.(sampleHz := Declared(st.sampleHz, hz)), Content(c.frames, c.rates + [hz]))
  {
    hide Uniform, EndsEpisode, Flat;
  }

  lemma ThenNothing(c: Content)
    ensures Then(c, NOTHING) == c
  {
  }

  lemma RowTaken(st: Loaded, c: Content, row: Row)
    requires Holds(st, c)
    ensures Takes(TakeRecord(st, row), RowOk(row), Then(c, ContentOfRow(row)))
  {
    HoldsUniform(st, c);
    hide TakeStep, Decoded, Uniform, InOrder, Shaped, Rated, FitsDouble;
    ThenNothing(c);
    if IsStep(row) {
      StepTaken(st, c, row);
      assert c.rates + [] == c.rates;
    } else if IsKind(row, "header") {
      assert c.frames + [] == c.frames;
      var hz := Finite(Get(row, SampleHzField));
      if hz.Some? { RateTaken(st, c, hz.value); }
    }
  }

  lemma HoldsUniform(st: Loaded, c: Content)
    requires Holds(st, c)
    ensures Uniform(c.frames) && Takes(Ok(st), true, c)
  {
  }

  lemma ThenAssociates(a: Content, b: Content, c: Content)
    ensures Then(Then(a, b), c) == Then(a, Then(b, c))
  {
  }

  lemma OneMoreSample(taken: Result<Loaded, LoadError>, good: bool, c: Content, sample: Value)
    requires Takes(taken, good, c)
    ensures
      var r := match taken
        case Err(e) => Err(e)
        case Ok(st) => if sample.Object? then TakeRecord(st, sample.fields) else Err(SampleNotObject);
      Takes(r, good && SampleOk(sample), Then(c, ContentOfSample(sample)))
  {
    hide TakeRecord, Holds, Uniform, RowOk, ContentOfRow, Then;
    ThenNothing(c);
    if taken.Ok? && sample.Object? { RowTaken(taken.value, c, sample.fields); }
    if Uniform(Then(c, ContentOfSample(sample)).frames) { UniformPrefix(c, ContentOfSample(sample)); }
  }

  lemma SamplesOkOneMore(samples: seq<Value>, n: nat)
    requires n < |samples|
    ensures SamplesOk(samples, n + 1) <==> SamplesOk(samples, n) && SampleOk(samples[n])
  {
    hide SampleOk;
  }

  lemma {:induction false} SamplesTaken(st: Loaded, c: Content, samples: seq<Value>, n: nat)
    requires Holds(st, c) && n <= |samples|
    ensures Takes(TakeSamples(st, samples, n), SamplesOk(samples, n), Then(c, ContentOfSamples(samples, n)))
  {
    HoldsUniform(st, c);
    assert SamplesOk(samples, 0);
    hide Takes, Holds, Then, SampleOk, SamplesOk, ContentOfSample, TakeRecord;
    ThenNothing(c);
    if n > 0 {
      SamplesTaken(st, c, samples, n - 1);
      SamplesOkOneMore(samples, n - 1);
      var before, now := ContentOfSamples(samples, n - 1), ContentOfSample(samples[n - 1]);
      ThenAssociates(c, before, now);
      OneMoreSample(TakeSamples(st, samples, n - 1), SamplesOk(samples, n - 1), Then(c, before), samples[n - 1]);
    }
  }

  lemma LineTaken(st: Loaded, c: Content, line: Line)
    requires Holds(st, c)
    ensures Takes(TakeLine(st, line), LineOk(line), Then(c, ContentOfLine(line)))
  {
    HoldsUniform(st, c);
    hide TakeRecord, TakeSamples, Holds, Uniform, RowOk, SamplesOk, ContentOfRow, ContentOfSamples, Then;
    ThenNothing(c);
    if line.Parsed? && line.value.Object? {
      var row := line.value.fields;
      if SamplesField !in row {
        RowTaken(st, c, row);
      } else if row[SamplesField].List? {
        SamplesTaken(st, c, row[SamplesField].items, |row[SamplesField].items|);
      }
    }
  }

  lemma OneMoreLine(taken: Result<Loaded, LoadError>, good: bool, c: Content, line: Line)
    requires Takes(taken, good, c)
    ensures
      var r := match taken
        case Err(e) => Err(e)
        case Ok(st) => TakeLine(st, line);
      Takes(r, good && LineOk(line), Then(c, ContentOfLine(line)))
  {
    hide TakeLine, Holds, Uniform, LineOk, ContentOfLine, Then;
    if taken.Ok? { LineTaken(taken.value, c, line); }
    if Uniform(Then(c, ContentOfLine(line)).frames) { UniformPrefix(c, ContentOfLine(line)); }
  }

  lemma LinesOkOneMore(lines: seq<Line>, n: nat)
    requires n < |lines|
    ensures LinesOk(lines, n + 1) <==> LinesOk(lines, n) && LineOk(lines[n])
  {
    hide LineOk;
  }

  lemma {:induction false} LinesTaken(st: Loaded, c: Content, lines: seq<Line>, n: nat)
    requires Holds(st, c) && n <= |lines|
    ensures Takes(TakeLines(st, lines, n), LinesOk(lines, n), Then(c, ContentOfLines(lines, n)))
  {
    HoldsUniform(st, c);
    assert LinesOk(lines, 0);
    hide Takes, Holds, Then, LineOk, LinesOk, ContentOfLine, TakeLine;
    ThenNothing(c);
    if n > 0 {
      LinesTaken(st, c, lines, n - 1);
      LinesOkOneMore(lines, n - 1);
      var before, now := ContentOfLines(lines, n - 1), ContentOfLine(lines[n - 1]);
      ThenAssociates(c, before, now);
      OneMoreLine(TakeLines(st, lines, n - 1), LinesOk(lines, n - 1), Then(c, before), lines[n - 1]);
    }
  }

  /** Cutting off the open steps ends an episode at the last frame, and nowhere else. */
  lemma EndsWhenCut(st: Loaded, frames: seq<Frame>, g: nat)
    requires InOrder(st, frames) && st.current != [] && g < |frames|
    ensures EndsEpisode(st.episodes + [st.current], g) <==> frames[g].done || g == |frames| - 1
    ensures Flat(st.episodes + [st.current]) == StepsOf(frames)
  {
    hide EndsEpisode;
    FlatLength(st.episodes);
    OneMoreEnd(st.episodes, st.current, g);
    assert (st.episodes + [st.current])[..|st.episodes|] == st.episodes;
  }

  /** Without open steps the last frame ended an episode. */
  lemma LastEnded(st: Loaded, frames: seq<Frame>)
    requires InOrder(st, frames) && st.current == [] && frames != []
    ensures frames[|frames| - 1].done
  {
    FlatLength(st.episodes);
    assert Offset(st.episodes, |st.episodes|) == |frames| - 1 + 1;
    assert EndsEpisode(st.episodes, |frames| - 1);
  }

  /** Closing a file's open episode marks the file's last step. */
  lemma FileClosed(st: Loaded, before: seq<Frame>, own: seq<Frame>)
    requires InOrder(st, before + own) && (own == [] ==> st.current == [])
    ensures InOrder(CloseEpisode(st), before + LastDone(own)) && CloseEpisode(st).current == []
  {
    var frames, closed, after := before + own, before + LastDone(own), CloseEpisode(st);
    if own != [] {
      assert StepsOf(closed) == StepsOf(frames);
      forall g | 0 <= g < |closed| ensures closed[g].done <==> EndsEpisode(after.episodes, g) {
        if st.current == [] { LastEnded(st, frames); } else { EndsWhenCut(st, frames, g); }
      }
      if st.current != [] {
        EndsWhenCut(st, frames, 0);
        assert after.episodes == st.episodes + [st.current];
        assert Flat(after.episodes) + after.current == Flat(after.episodes);
      }
    }
  }

  lemma LastDoneIsUniform(before: seq<Frame>, own: seq<Frame>)
    ensures Uniform(before + LastDone(own)) <==> Uniform(before + own)
  {
    if own != [] {
      var a, b := before + own, before + LastDone(own);
      assert forall g :: 0 <= g < |a| ==> a[g].step == b[g].step;
    }
  }

  lemma CloseKeepsShape(st: Loaded, before: seq<Frame>, own: seq<Frame>)
    requires Shaped(st, before + own)
    ensures Shaped(CloseEpisode(st), before + LastDone(own)) && CloseEpisode(st).sampleHz == st.sampleHz
  {
    LastDoneIsUniform(before, own);
    if own != [] {
      var a, b := before + own, before + LastDone(own);
      assert a[0].step == b[0].step;
    }
  }

  lemma FileTaken(st: Loaded, c: Content, file: seq<Line>)
    requires Holds(st, c) && st.current == []
    ensures
      var r := match TakeLines(st, file, |file|)
        case Err(e) => Err(e)
        case Ok(after) => Ok(CloseEpisode(after));
      Takes(r, LinesOk(file, |file|), Then(c, ContentOfFile(file))) && (r.Ok? ==> r.value.current == [])
  {
    var own := ContentOfLines(file, |file|);
    LinesTaken(st, c, file, |file|);
    LastDoneIsUniform(c.frames, own.frames);
    if TakeLines(st, file, |file|).Ok? {
      var mid := TakeLines(st, file, |file|).value;
      NothingOpened(st, mid, c.frames, own.frames);
      hide InOrder, Shaped, Rated, Uniform, TakeLines, CloseEpisode, LastDone, LinesOk;
      FileClosed(mid, c.frames, own.frames);
      CloseKeepsShape(mid, c.frames, own.frames);
      RatesKept(mid, CloseEpisode(mid), c.rates + own.rates);
    }
  }

  lemma RatesKept(a: Loaded, b: Loaded, rates: seq<real>)
    requires Rated(a, rates) && b.sampleHz == a.sampleHz
    ensures Rated(b, rates)
  {
  }

  /** A file without steps opens no episode. */
  lemma NothingOpened(st: Loaded, mid: Loaded, before: seq<Frame>, own: seq<Frame>)
    requires InOrder(st, before) && st.current == [] && InOrder(mid, before + own)
    ensures own == [] ==> mid.current == []
  {
    if own == [] && mid.current != [] {
      FlatLength(st.episodes);
      FlatLength(mid.episodes);
      assert before + own == before;
      assert |before| == Offset(st.episodes, |st.episodes|) == Offset(mid.episodes, |mid.episodes|) + |mid.current|;
      var last := |before| - 1;
      assert Offset(st.episodes, |st.episodes|) == last + 1;
      assert EndsEpisode(st.episodes, last) && before[last].done;
      EndsAreInside(mid.episodes, last);
      assert false;
    }
  }

  predicate FilesOk(files: seq<seq<Line>>, n: nat)
    requires n <= |files|
  {
    forall f :: 0 <= f < n ==> LinesOk(files[f], |files[f]|)
  }

  lemma EmptyHolds()
    ensures Holds(EMPTY, NOTHING)
  {
  }

  lemma {:induction false} FilesTaken(files: seq<seq<Line>>, n: nat)
    requires n <= |files|
    ensures Takes(TakeFiles(EMPTY, files, n), FilesOk(files, n), ContentOfFiles(files, n))
    ensures TakeFiles(EMPTY, files, n).Ok? ==> TakeFiles(EMPTY, files, n).value.current == []
  {
    hide Holds, Uniform, LinesOk, TakeLines, ContentOfFile, CloseEpisode, Then;
    if n == 0 {
      EmptyHolds();
      HoldsUniform(EMPTY, NOTHING);
    } else {
      FilesTaken(files, n - 1);
      var before, now := ContentOfFiles(files, n - 1), ContentOfFile(files[n - 1]);
      if TakeFiles(EMPTY, files, n - 1).Ok? { FileTaken(TakeFiles(EMPTY, files, n - 1).value, before, files[n - 1]); }
      if Uniform(Then(before, now).frames) { UniformPrefix(before, now); }
    }
  }

  // ----- The load -----

  /**
   A load accepts exactly files of readable lines and good rows whose steps have one width and one
   reward presence, and at least one step.
   */
  lemma LoadsExactly(files: seq<seq<Line>>)
    ensures Load(files).Ok? <==>
      && FilesOk(files, |files|)
      && Uniform(ContentOfFiles(files, |files|).frames) && ContentOfFiles(files, |files|).frames != []
  {
    hide FilesOk, Uniform, TakeFiles;
    FilesTaken(files, |files|);
    if TakeFiles(EMPTY, files, |files|).Ok? {
      var st := TakeFiles(EMPTY, files, |files|).value;
      FlatLength(st.episodes);
      if st.episodes != [] { NotEmpty(st.episodes); }
    }
  }

  lemma NotEmpty(episodes: seq<seq<Step>>)
    requires episodes != [] && episodes[0] != []
    ensures Offset(episodes, |episodes|) > 0
  {
    OffsetsGrow(episodes, 1, |episodes|);
    assert Offset(episodes, 1) == Offset(episodes, 0) + |episodes[0]|;
  }

  /**
   The episodes of an accepted load, joined, are the step rows of the files in file, line and sample
   order; an episode ends exactly at a row that is done or at the last step row of its file, and none is
   empty; the rates are the declared ones.
   */
  lemma LoadedInOrder(files: seq<seq<Line>>)
    requires Load(files).Ok?
    ensures
      var ds, content := Load(files).value, ContentOfFiles(files, |files|);
      && Flat(ds.episodes) == StepsOf(content.frames)
      && (forall e :: 0 <= e < |ds.episodes| ==> ds.episodes[e] != [])
      && (forall g :: 0 <= g < |content.frames| ==> (content.frames[g].done <==> EndsEpisode(ds.episodes, g)))
      && (forall hz :: hz in ds.sampleHz <==> hz in content.rates)
      && forall a, b :: 0 <= a < b < |ds.sampleHz| ==> ds.sampleHz[a] != ds.sampleHz[b]
  {
    hide TakeFiles, FilesOk, ContentOfFiles, EndsEpisode, Flat;
    FilesTaken(files, |files|);
    var st := TakeFiles(EMPTY, files, |files|).value;
    assert Flat(st.episodes) + [] == Flat(st.episodes);
  }
}
