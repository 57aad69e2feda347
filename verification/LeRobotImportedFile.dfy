/** What an import writes, the loader reads back. */
module LeRobotImportedFile {
  import opened Outcomes
  import opened LeRobotImport
  import opened LeRobotTables
  import opened LeRobotTasks
  import opened TrajectoryRows

  function RowLines(rows: seq<Row>): (file: seq<Line>)
    ensures |file| == |rows|
  {
    seq(|rows|, k requires 0 <= k < |rows| => Parsed(Object(rows[k])))
  }

  /**
   The lines that are read back. A break in the note cuts the header in the middle of a string, and
   what follows is not reached.
   */
  function AsFile(written: Written): seq<Line> {
    if Free(Quoted(written.note), BreaksLine) then RowLines(written.rows) else [Broken]
  }

  // ----- The imported dataset -----

  /** The step a decoded row stands for. */
  function StepOf(d: Decoded): Step {
    Step(d.observation, d.action, Finite(d.t), d.reward)
  }

  /** Whole episodes, and the steps of the one that is still open. */
  datatype Split = Split(closed: seq<seq<Step>>, open: seq<Step>)

  function SplitAfter(table: Table, fps: int, values: seq<Value>, n: nat): Split
    requires n <= |table.rows| == |values| && StepLines(table, fps, values, n).Ok?
  {
    if n == 0 then Split([], [])
    else
      Grown(SplitAfter(table, fps, values, n - 1), StepOf(DecodeAt(table, fps, values, n - 1).value), EndsRun(values, n - 1))
  }

  function Grown(split: Split, step: Step, done: bool): Split {
    var steps := split.open + [step];
    if done then Split(split.closed + [steps], []) else Split(split.closed, steps)
  }

  function LoadedOf(split: Split, width: Option<Width>, rewards: bool, fps: int, n: nat): Loaded {
    Loaded(split.closed, if width.None? then None else Some(width.value.obs), if width.None? then None else Some(width.value.act),
           n > 0 && rewards, [fps as real], n, split.open)
  }

  /** What loading the header and the first `n` step lines should give. */
  function LoadedAfter(table: Table, fps: int, values: seq<Value>, n: nat): Loaded
    requires n <= |table.rows| == |values| && StepLines(table, fps, values, n).Ok?
  {
    LoadedOf(SplitAfter(table, fps, values, n), WidthAfter(table, n), RewardColumn in table.columns, fps, n)
  }

  /** Every written time is a finite number. */
  predicate TimesFinite(table: Table, fps: int, values: seq<Value>, n: nat)
    requires n <= |table.rows| == |values|
  {
    forall k :: 0 <= k < n ==> DecodeAt(table, fps, values, k).Ok? && Finite(DecodeAt(table, fps, values, k).value.t).Some?
  }

  lemma FiniteFloatsLength(items: seq<Value>, n: nat)
    requires n <= |items| && FiniteFloats(items, n).Ok?
    ensures |FiniteFloats(items, n).value| == n
  {
  }

  lemma DecodedShape(table: Table, row: TableRow, position: nat, fps: int, width: Option<Width>)
    requires DecodeRow(table, row, position, fps, width).Ok?
    ensures
      var d := DecodeRow(table, row, position, fps, width).value;
      && d.observation != [] && d.action != []
      && (width.Some? ==> width.value == Width(|d.observation|, |d.action|))
      && d.reward.Some? == (RewardColumn in table.columns)
      && IsNumber(d.t)
  {
    var obs, act := CellAt(row, ObservationColumn), CellAt(row, ActionColumn);
    FiniteFloatsLength(obs.items, |obs.items|);
    FiniteFloatsLength(act.items, |act.items|);
  }

  lemma NumbersAreReals(xs: seq<real>)
    ensures Reals(Numbers(xs).items) == Some(xs)
  {
    var items := Numbers(xs).items;
    assert forall k :: 0 <= k < |items| ==> Finite(items[k]) == Some(xs[k]);
    assert Reals(items).value == xs;
  }

  /** A written step line is read as the step it was made from. */
  lemma StepLineIsStep(st: Loaded, d: Decoded, done: bool)
    requires d.observation != [] && d.action != []
    requires st.obsDim.None? || (st.obsDim == Some(|d.observation|) && st.actDim == Some(|d.action|))
    ensures
      var fixed := st.(obsDim := Some(|d.observation|), actDim := Some(|d.action|));
      TakeLine(st, Parsed(Object(StepLine(d, done)))) ==
      if Finite(d.t).None? then Err(BadTime) else Append(fixed, StepOf(d), done)
  {
    hide Append, Reals;
    var row := StepLine(d, done);
    NumbersAreReals(d.observation);
    NumbersAreReals(d.action);
    assert VectorsOf(row) == Ok(Vectors(d.observation, d.action));
    assert DoneOf(row) == Ok(done);
    assert RewardOf(row) == Ok(d.reward);
    assert TakeLine(st, Parsed(Object(row))) == TakeStep(st, row);
  }

  lemma HeaderIsRead(fps: int)
    ensures TakeLine(EMPTY, Parsed(Object(HeaderLine(fps)))) ==
      if fps < 1 || !FitsDouble(fps) then Err(BadSampleHz) else Ok(EMPTY.(sampleHz := [fps as real]))
  {
    hide FitsDouble;
    assert Get(HeaderLine(fps), TypeField) == Text("header");
    assert Declared([], fps as real) == [fps as real];
  }

  lemma {:induction false} StepLinesPrefix(table: Table, fps: int, values: seq<Value>, k: nat, n: nat)
    requires k < n <= |table.rows| == |values| && StepLines(table, fps, values, n).Ok?
    ensures StepLines(table, fps, values, k).Ok? && DecodeAt(table, fps, values, k).Ok?
    ensures |StepLines(table, fps, values, n).value| == n
    ensures StepLines(table, fps, values, n).value[k] == StepLine(DecodeAt(table, fps, values, k).value, EndsRun(values, k))
  {
    hide DecodeAt, StepLine, EndsRun;
    if k < n - 1 {
      StepLinesPrefix(table, fps, values, k, n - 1);
    } else if k > 0 {
      StepLinesPrefix(table, fps, values, k - 1, k);
    }
  }

  /** One more line of the written file takes the loader one more row. */
  lemma LineAdvances(table: Table, fps: int, values: seq<Value>, k: nat, d: Decoded)
    requires k < |table.rows| == |values|
    requires StepLines(table, fps, values, k).Ok? && StepLines(table, fps, values, k + 1).Ok?
    requires DecodeAt(table, fps, values, k) == Ok(d)
    ensures
      TakeLine(LoadedAfter(table, fps, values, k), Parsed(Object(StepLine(d, EndsRun(values, k))))) ==
      if Finite(d.t).None? then Err(BadTime) else Ok(LoadedAfter(table, fps, values, k + 1))
  {
    var st := LoadedAfter(table, fps, values, k);
    WidthIsFixed(table, fps, values, k);
    WidthOnlyAtStart(table, k);
    DecodedShape(table, table.rows[k], Position(values, k), fps, WidthAfter(table, k));
    hide DecodeAt, WidthAfter, StepLine, StepOf, EndsRun, TakeLine, Append, Grown;
    StepLineIsStep(st, d, EndsRun(values, k));
    StepOfReward(d);
    AppendGrows(SplitAfter(table, fps, values, k), WidthAfter(table, k), RewardColumn in table.columns, fps, k, StepOf(d),
                EndsRun(values, k), Width(|d.observation|, |d.action|));
  }

  lemma AppendGrows(split: Split, width: Option<Width>, rewards: bool, fps: int, k: nat, step: Step, done: bool, w: Width)
    requires step.reward.Some? == rewards
    ensures
      var st := LoadedOf(split, width, rewards, fps, k);
      Append(st.(obsDim := Some(w.obs), actDim := Some(w.act)), step, done)
      == Ok(LoadedOf(Grown(split, step, done), Some(w), rewards, fps, k + 1))
  {
  }

  lemma StepOfReward(d: Decoded)
    ensures StepOf(d).reward == d.reward
  {
  }

  lemma {:induction false} LoadFollows(table: Table, fps: int, values: seq<Value>, rows: seq<Row>, n: nat)
    requires n <= |table.rows| == |values| && fps >= 1 && FitsDouble(fps)
    requires StepLines(table, fps, values, |values|).Ok?
    requires rows == [HeaderLine(fps)] + StepLines(table, fps, values, |values|).value
    requires TimesFinite(table, fps, values, n)
    ensures |rows| == |values| + 1 && StepLines(table, fps, values, n).Ok?
    ensures TakeLines(EMPTY, RowLines(rows), n + 1) == Ok(LoadedAfter(table, fps, values, n))
  {
    hide TakeLine, LoadedAfter, DecodeAt, StepLine, HeaderLine, FitsDouble;
    AllLines(table, fps, values);
    var file := RowLines(rows);
    if n == 0 {
      assert file[0] == Parsed(Object(HeaderLine(fps)));
      HeaderIsRead(fps);
      FirstLoaded(table, fps, values);
      assert TakeLines(EMPTY, file, 0) == Ok(EMPTY);
    } else {
      LoadFollows(table, fps, values, rows, n - 1);
      StepLinesPrefix(table, fps, values, n - 1, |values|);
      PrefixOk(table, fps, values, n);
      assert file[n] == Parsed(Object(StepLines(table, fps, values, |values|).value[n - 1]));
      LineAdvances(table, fps, values, n - 1, DecodeAt(table, fps, values, n - 1).value);
    }
  }

  lemma FirstLoaded(table: Table, fps: int, values: seq<Value>)
    requires |table.rows| == |values|
    ensures LoadedAfter(table, fps, values, 0) == EMPTY.(sampleHz := [fps as real])
  {
  }

  lemma AllLines(table: Table, fps: int, values: seq<Value>)
    requires |table.rows| == |values| && StepLines(table, fps, values, |values|).Ok?
    ensures |StepLines(table, fps, values, |values|).value| == |values|
  {
    if |values| > 0 { StepLinesPrefix(table, fps, values, |values| - 1, |values|); }
  }

  lemma PrefixOk(table: Table, fps: int, values: seq<Value>, n: nat)
    requires n <= |table.rows| == |values| && StepLines(table, fps, values, |values|).Ok?
    ensures StepLines(table, fps, values, n).Ok?
  {
    hide DecodeAt, StepLine;
    if n < |values| { StepLinesPrefix(table, fps, values, n, |values|); }
  }

  lemma {:induction false} LoadStops(table: Table, fps: int, values: seq<Value>, rows: seq<Row>, k: nat)
    requires k < |table.rows| == |values| && fps >= 1 && FitsDouble(fps)
    requires StepLines(table, fps, values, |values|).Ok?
    requires rows == [HeaderLine(fps)] + StepLines(table, fps, values, |values|).value
    requires TimesFinite(table, fps, values, k) && !TimesFinite(table, fps, values, k + 1)
    ensures |rows| == |values| + 1
    ensures TakeLines(EMPTY, RowLines(rows), |rows|) == Err(BadTime)
  {
    hide TakeLine, LoadedAfter, DecodeAt, StepLine, HeaderLine, FitsDouble;
    LoadFollows(table, fps, values, rows, k);
    StepLinesPrefix(table, fps, values, k, |values|);
    PrefixOk(table, fps, values, k + 1);
    LineAdvances(table, fps, values, k, DecodeAt(table, fps, values, k).value);
    var file := RowLines(rows);
    assert file[k + 1] == Parsed(Object(StepLines(table, fps, values, |values|).value[k]));
    LinesStayFailed(EMPTY, file, k + 2, |file|);
  }

  lemma {:induction false} FirstBadTime(table: Table, fps: int, values: seq<Value>, n: nat) returns (k: nat)
    requires n <= |table.rows| == |values| && !TimesFinite(table, fps, values, n)
    ensures k < n && TimesFinite(table, fps, values, k) && !TimesFinite(table, fps, values, k + 1)
  {
    if TimesFinite(table, fps, values, n - 1) { k := n - 1; } else { k := FirstBadTime(table, fps, values, n - 1); }
  }

  lemma OneFile(file: seq<Line>)
    ensures Load([file]) ==
      match TakeLines(EMPTY, file, |file|) {
        case Err(e) => Err(e)
        case Ok(st) => if CloseEpisode(st).episodes == [] then Err(EmptyDataset) else Ok(CloseEpisode(st))
      }
  {
    hide TakeLine, TakeLines;
    assert TakeFiles(EMPTY, [file], 0) == Ok(EMPTY);
  }

  /** What the loader makes of the written rows, in terms of what was decoded. */
  lemma WrittenRowsLoad(table: Table, fps: int, values: seq<Value>, rows: seq<Row>)
    requires 0 < |table.rows| == |values| && StepLines(table, fps, values, |values|).Ok?
    requires rows == [HeaderLine(fps)] + StepLines(table, fps, values, |values|).value
    ensures Load([RowLines(rows)]) ==
      if fps < 1 || !FitsDouble(fps) then Err(BadSampleHz)
      else if !TimesFinite(table, fps, values, |values|) then Err(BadTime)
      else Ok(LoadedAfter(table, fps, values, |values|))
  {
    hide TakeLines, LoadedAfter, TimesFinite, HeaderLine, StepLines, FitsDouble, Load;
    var file := RowLines(rows);
    OneFile(file);
    AllLines(table, fps, values);
    if fps < 1 || !FitsDouble(fps) {
      assert file[0] == Parsed(Object(HeaderLine(fps)));
      RefusedHeader(file, fps);
    } else if TimesFinite(table, fps, values, |values|) {
      LoadFollows(table, fps, values, rows, |values|);
      AllClosed(table, fps, values, |values|);
    } else {
      var k := FirstBadTime(table, fps, values, |values|);
      LoadStops(table, fps, values, rows, k);
    }
  }

  lemma CutHeaderFails()
    ensures Load([[Broken]]) == Err(InvalidJson)
  {
    OneFile([Broken]);
    assert TakeLines(EMPTY, [Broken], 0) == Ok(EMPTY);
  }

  /** What the loader makes of the file an accepted import writes. */
  lemma WrittenFileLoads(sort: seq<TableRow> -> seq<TableRow>, dir: Directory)
    requires Imported(sort, dir).Ok?
    ensures
      var source := Opened(sort, dir).value;
      var values := EpisodeValues(source.table);
      var n := |values|;
      && Opened(sort, dir).Ok? && StepLines(source.table, source.fps, values, n).Ok? && n > 0
      && Load([AsFile(Imported(sort, dir).value)]) ==
         if !AllFree(source.names, BreaksQuoted) then Err(InvalidJson)
         else if source.fps < 1 || !FitsDouble(source.fps) then Err(BadSampleHz)
         else if !TimesFinite(source.table, source.fps, values, n) then Err(BadTime)
         else Ok(LoadedAfter(source.table, source.fps, values, n))
  {
    ImportedFrom(sort, dir);
    OpenedFrom(sort, dir);
    var source, written := Opened(sort, dir).value, Imported(sort, dir).value;
    hide Imported, Opened, LoadedAfter, TimesFinite, StepLines, FitsDouble, Load, AllFree, Note, Quoted, EpisodeValues, HeaderLine;
    NoteLine(dir.version, source.names);
    if AllFree(source.names, BreaksQuoted) {
      WrittenRowsLoad(source.table, source.fps, EpisodeValues(source.table), written.rows);
    } else {
      CutHeaderFails();
    }
  }

  /** What the directory of an accepted import says about what was decoded. */
  lemma OpenedFrom(sort: seq<TableRow> -> seq<TableRow>, dir: Directory)
    requires Opened(sort, dir).Ok?
    ensures
      var source := Opened(sort, dir).value;
      && FpsOf(dir.fps) == Some(source.fps) && LoadDataTable(sort, dir.shards) == Ok(source.table)
      && dir.version in SUPPORTED_VERSIONS && ReadNames(dir.tasks) == Some(source.names)
  {
    hide FpsOf, LoadDataTable, ReadNames;
  }

  lemma ImportedFrom(sort: seq<TableRow> -> seq<TableRow>, dir: Directory)
    requires Imported(sort, dir).Ok?
    ensures Opened(sort, dir).Ok?
    ensures
      var source := Opened(sort, dir).value;
      var values := EpisodeValues(source.table);
      && |values| > 0 && StepLines(source.table, source.fps, values, |values|).Ok?
      && Imported(sort, dir).value
         == Written(Note(dir.version, source.names),
                    [HeaderLine(source.fps)] + StepLines(source.table, source.fps, values, |values|).value)
  {
    hide Opened, EpisodeValues, StepLines, RunsOf, Note, Quoted, Free, HeaderLine;
    var values := EpisodeValues(Opened(sort, dir).value.table);
    NoRuns(values);
  }

  lemma NoRuns(values: seq<Value>)
    requires AllIntegers(values)
    ensures values == [] ==> RunsOf(values, |values|) == []
  {
  }

  lemma RefusedHeader(file: seq<Line>, fps: int)
    requires file != [] && file[0] == Parsed(Object(HeaderLine(fps))) && (fps < 1 || !FitsDouble(fps))
    ensures TakeLines(EMPTY, file, |file|) == Err(BadSampleHz)
  {
    hide HeaderLine, TakeLine, FitsDouble;
    HeaderIsRead(fps);
    assert TakeLines(EMPTY, file, 0) == Ok(EMPTY);
    assert TakeLines(EMPTY, file, 1) == Err(BadSampleHz);
    LinesStayFailed(EMPTY, file, 1, |file|);
  }

  lemma AllClosed(table: Table, fps: int, values: seq<Value>, n: nat)
    requires 0 < n == |table.rows| == |values| && StepLines(table, fps, values, n).Ok?
    ensures
      var st := LoadedAfter(table, fps, values, n);
      st.current == [] && st.episodes != [] && CloseEpisode(st) == st
  {
  }

  // ----- The condition on the directory -----

  /** The rate of meta/info.json before it is truncated. */
  function DeclaredRate(dir: Directory): Option<real> {
    match AsScalar(dir.fps)
    case Integer(i) => Some(i as real)
    case Number(r) => Some(r)
    case _ => None
  }

  /** What is left of the rate is positive and fits a double. */
  predicate RateReadable(dir: Directory) {
    DeclaredRate(dir).Some? && DeclaredRate(dir).value >= 1.0 && FitsDouble(Trunc(DeclaredRate(dir).value))
  }

  /** No task name has a line break that JSON leaves as it is. */
  predicate NamesKeepLine(dir: Directory) {
    ReadNames(dir.tasks).Some? ==> AllFree(ReadNames(dir.tasks).value, BreaksQuoted)
  }

  predicate FramesFinite(rows: seq<TableRow>) {
    forall k :: 0 <= k < |rows| ==> !AsScalar(CellAt(rows[k], FrameIndexColumn)).NonFinite?
  }

  /** No time is taken from a frame index that is a NaN or an infinity. */
  predicate TimesReadable(dir: Directory)
    requires dir.shards != []
  {
    || TimestampColumn in dir.shards[0].columns
    || FrameIndexColumn !in dir.shards[0].columns
    || forall s :: 0 <= s < |dir.shards| ==> FramesFinite(dir.shards[s].rows)
  }

  lemma RateTruncates(dir: Directory)
    requires FpsOf(dir.fps).Some?
    ensures RateReadable(dir) <==> FpsOf(dir.fps).value >= 1 && FitsDouble(FpsOf(dir.fps).value)
  {
    hide FitsDouble;
  }

  /** A decoded time is missing exactly when it comes from such a cell. */
  lemma TimeFiniteExactly(table: Table, row: TableRow, position: nat, fps: int, width: Option<Width>)
    requires DecodeRow(table, row, position, fps, width).Ok?
    ensures Finite(DecodeRow(table, row, position, fps, width).value.t).Some? <==>
      || TimestampColumn in table.columns || FrameIndexColumn !in table.columns
      || !AsScalar(CellAt(row, FrameIndexColumn)).NonFinite?
  {
    hide FiniteVector, FiniteFloat;
  }

  lemma TimesFiniteExactly(table: Table, fps: int, values: seq<Value>)
    requires |table.rows| == |values| && StepLines(table, fps, values, |values|).Ok?
    ensures TimesFinite(table, fps, values, |values|) <==>
      TimestampColumn in table.columns || FrameIndexColumn !in table.columns || FramesFinite(table.rows)
  {
    hide DecodeRow, StepLine, AsScalar, StepLines, WidthAfter, Position;
    forall k | 0 <= k < |values|
      ensures DecodeAt(table, fps, values, k).Ok?
      ensures Finite(DecodeAt(table, fps, values, k).value.t).Some? <==>
        || TimestampColumn in table.columns || FrameIndexColumn !in table.columns
        || !AsScalar(CellAt(table.rows[k], FrameIndexColumn)).NonFinite?
    {
      StepLinesPrefix(table, fps, values, k, |values|);
      TimeFiniteExactly(table, table.rows[k], Position(values, k), fps, WidthAfter(table, k));
    }
  }

  lemma {:induction false} ConcatFinite(shards: seq<Table>, n: nat)
    requires n <= |shards|
    ensures FramesFinite(Concat(shards, n)) <==> forall s :: 0 <= s < n ==> FramesFinite(shards[s].rows)
  {
    if n > 0 {
      ConcatFinite(shards, n - 1);
      JoinedFinite(Concat(shards, n - 1), shards[n - 1].rows);
    }
  }

  lemma JoinedFinite(a: seq<TableRow>, b: seq<TableRow>)
    ensures FramesFinite(a + b) <==> FramesFinite(a) && FramesFinite(b)
  {
    hide AsScalar, CellAt;
    if FramesFinite(a + b) {
      forall k | 0 <= k < |b| ensures !AsScalar(CellAt(b[k], FrameIndexColumn)).NonFinite? {
        assert (a + b)[|a| + k] == b[k];
      }
      forall k | 0 <= k < |a| ensures !AsScalar(CellAt(a[k], FrameIndexColumn)).NonFinite? {
        assert (a + b)[k] == a[k];
      }
    }
  }

  lemma PermutedFinite(a: seq<TableRow>, b: seq<TableRow>)
    requires multiset(a) == multiset(b) && FramesFinite(a)
    ensures FramesFinite(b)
  {
    hide AsScalar, CellAt;
    forall k | 0 <= k < |b| ensures !AsScalar(CellAt(b[k], FrameIndexColumn)).NonFinite? {
      assert b[k] in multiset(a);
    }
  }

  lemma TableFinite(sort: seq<TableRow> -> seq<TableRow>, shards: seq<Table>)
    requires IsSort(sort) && LoadDataTable(sort, shards).Ok?
    ensures
      var table := LoadDataTable(sort, shards).value;
      && shards != [] && table.columns == shards[0].columns
      && (FramesFinite(table.rows) <==> forall s :: 0 <= s < |shards| ==> FramesFinite(shards[s].rows))
  {
    hide FramesFinite, Concat, Indexed, Sorted;
    var rows := Concat(shards, |shards|);
    ConcatFinite(shards, |shards|);
    assert multiset(sort(rows)) == multiset(rows);
    if FramesFinite(rows) { PermutedFinite(rows, sort(rows)); }
    if FramesFinite(sort(rows)) { PermutedFinite(sort(rows), rows); }
  }

  /**
   Every file an import writes is read back with one episode for each run of the episode index, exactly
   when no task name breaks the header's line, the rate is at least 1 and fits a double, and no time is
   taken from a frame index that is not finite.
   */
  lemma ImportedFileLoads(sort: seq<TableRow> -> seq<TableRow>, dir: Directory)
    requires IsSort(sort) && Imported(sort, dir).Ok?
    ensures dir.shards != [] && Opened(sort, dir).Ok?
    ensures
      var source := Opened(sort, dir).value;
      var values := EpisodeValues(source.table);
      && StepLines(source.table, source.fps, values, |values|).Ok?
      && Load([AsFile(Imported(sort, dir).value)]) ==
         if !NamesKeepLine(dir) then Err(InvalidJson)
         else if !RateReadable(dir) then Err(BadSampleHz)
         else if !TimesReadable(dir) then Err(BadTime)
         else Ok(LoadedAfter(source.table, source.fps, values, |values|))
  {
    ImportedFrom(sort, dir);
    OpenedFrom(sort, dir);
    hide Imported, Opened, Load, LoadedAfter, StepLines, EpisodeValues, LoadDataTable, FpsOf, TimesFinite, FramesFinite, IsSort,
         AsScalar, Finite, AsFile, RateReadable, AllFree, FitsDouble, Note, Quoted;
    WrittenFileLoads(sort, dir);
    var source := Opened(sort, dir).value;
    RateTruncates(dir);
    TableFinite(sort, dir.shards);
    TimesFiniteExactly(source.table, source.fps, EpisodeValues(source.table));
  }

  // ----- Files that are written and cannot be read -----

  /** One step of one episode, with its time in the given column, and one task. */
  function SingleStep(fps: real, column: Column, cell: Value, task: Points): Directory {
    Directory("v3.0", Number(fps), Null, JsonLines([Bare(task)]), Some(map[]), [Table(
      {ObservationColumn, ActionColumn, column, EpisodeIndexColumn},
      [map[ObservationColumn := List([Number(1.0)]), ActionColumn := List([Number(1.0)]), column := cell,
           EpisodeIndexColumn := Integer(0)]])])
  }

  lemma SingleStepOpens(sort: seq<TableRow> -> seq<TableRow>, fps: real, column: Column, cell: Value, task: Points)
    requires fps > 0.0 && column in {TimestampColumn, FrameIndexColumn}
    ensures
      var dir := SingleStep(fps, column, cell, task);
      Opened(sort, dir) == Ok(Source(Trunc(fps), map[0 := task], map[], dir.shards[0]))
  {
    var dir := SingleStep(fps, column, cell, task);
    var table := dir.shards[0];
    assert Concat(dir.shards, 1) == Concat(dir.shards, 0) + table.rows == table.rows;
    assert LoadDataTable(sort, dir.shards) == Ok(table);
    assert FpsOf(dir.fps) == Some(Trunc(fps));
    assert TakeTasks([Bare(task)], 0) == Some(map[]);
    assert ReadNames(dir.tasks) == TakeTask(map[], Bare(task)) == Some(map[0 := task]);
  }

  lemma SingleStepDecodes(fps: real, column: Column, cell: Value, task: Points)
    requires fps > 0.0
    requires (column == TimestampColumn && cell == Number(0.0))
             || (column == FrameIndexColumn && cell == NonFinite && fps == 1.0)
    ensures
      var table := SingleStep(fps, column, cell, task).shards[0];
      EpisodeValues(table) == [Integer(0)] && StepLines(table, Trunc(fps), [Integer(0)], 1).Ok?
  {
    var table := SingleStep(fps, column, cell, task).shards[0];
    var values := [Integer(0)];
    assert EpisodeValues(table) == values;
    SmallFits(1);
    assert FiniteFloats([Number(1.0)], 1) == Ok([] + [1.0]);
    assert DecodeAt(table, Trunc(fps), values, 0).Ok?;
    assert StepLines(table, Trunc(fps), values, 0) == Ok([]);
  }

  lemma SingleRun()
    ensures AllIntegers([Integer(0)]) && CrossCheck(Null, map[], RunsOf([Integer(0)], 1)) == None
  {
    assert RunsOf([Integer(0)], 1) == [Group(0, [0])];
  }

  lemma SingleStepIsImported(sort: seq<TableRow> -> seq<TableRow>, fps: real, column: Column, cell: Value, task: Points)
    requires fps > 0.0 && Free(task, LoneSurrogate)
    requires (column == TimestampColumn && cell == Number(0.0))
             || (column == FrameIndexColumn && cell == NonFinite && fps == 1.0)
    ensures Imported(sort, SingleStep(fps, column, cell, task)).Ok?
  {
    SingleStepOpens(sort, fps, column, cell, task);
    SingleStepDecodes(fps, column, cell, task);
    SingleRun();
    hide StepLines, Opened, EpisodeValues, Note, Quoted, Free, HeaderLine, RunsOf, CrossCheck;
    NoteLine("v3.0", map[0 := task]);
    assert AllFree(map[0 := task], LoneSurrogate);
  }

  /** A rate below 1 is accepted by the import, truncated to 0, and refused by the loader. */
  lemma FractionalRateIsUnreadable(sort: seq<TableRow> -> seq<TableRow>)
    ensures
      var dir := SingleStep(0.5, TimestampColumn, Number(0.0), []);
      Imported(sort, dir).Ok? && Load([AsFile(Imported(sort, dir).value)]) == Err(BadSampleHz)
  {
    hide Imported, Load, LoadedAfter, StepLines, TimesFinite, FitsDouble, Opened, AsFile;
    SingleStepOpens(sort, 0.5, TimestampColumn, Number(0.0), []);
    SingleStepIsImported(sort, 0.5, TimestampColumn, Number(0.0), []);
    WrittenFileLoads(sort, SingleStep(0.5, TimestampColumn, Number(0.0), []));
  }

  /** A NaN frame index becomes a NaN time, which the loader refuses. */
  lemma NanFrameIsUnreadable(sort: seq<TableRow> -> seq<TableRow>)
    ensures
      var dir := SingleStep(1.0, FrameIndexColumn, NonFinite, []);
      Imported(sort, dir).Ok? && Load([AsFile(Imported(sort, dir).value)]) == Err(BadTime)
  {
    hide Imported, Load, LoadedAfter, StepLines, TimesFinite, FitsDouble, Opened, AsFile;
    var dir := SingleStep(1.0, FrameIndexColumn, NonFinite, []);
    SingleStepOpens(sort, 1.0, FrameIndexColumn, NonFinite, []);
    SingleStepIsImported(sort, 1.0, FrameIndexColumn, NonFinite, []);
    SmallFits(1);
    WrittenFileLoads(sort, dir);
    TimesFiniteExactly(dir.shards[0], 1, EpisodeValues(dir.shards[0]));
    assert AsScalar(CellAt(dir.shards[0].rows[0], FrameIndexColumn)).NonFinite?;
  }

  /** A line separator in a task name is accepted by the import and cuts the header for the loader. */
  lemma SeparatorIsUnreadable(sort: seq<TableRow> -> seq<TableRow>)
    ensures
      var dir := SingleStep(50.0, TimestampColumn, Number(0.0), [0x2028]);
      Imported(sort, dir).Ok? && Load([AsFile(Imported(sort, dir).value)]) == Err(InvalidJson)
  {
    hide Imported, Load, LoadedAfter, StepLines, TimesFinite, FitsDouble, Opened, AsFile;
    SingleStepOpens(sort, 50.0, TimestampColumn, Number(0.0), [0x2028]);
    SingleStepIsImported(sort, 50.0, TimestampColumn, Number(0.0), [0x2028]);
    WrittenFileLoads(sort, SingleStep(50.0, TimestampColumn, Number(0.0), [0x2028]));
    OneFree(0x2028, BreaksQuoted);
    assert !Free(map[0 := [0x2028]][0], BreaksQuoted);
  }
}
