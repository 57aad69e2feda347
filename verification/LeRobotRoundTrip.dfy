/**
 The round trip: what an export wrote, an import and a load give back, up to the float32 rounding
 and the uniform time base.
 */
module LeRobotRoundTrip {
  import opened Outcomes
  import opened LeRobotImport
  import opened LeRobotImportedFile
  import opened LeRobotRuns
  import opened LeRobotTables
  import opened LeRobotTasks
  import opened TrajectoryLaws
  import opened TrajectoryRows

  // ----- What the rounding leaves -----

  predicate RoundsFinite(round: Rounding, xs: seq<real>) {
    forall i :: 0 <= i < |xs| ==> round(xs[i]).Some?
  }

  function Rounded(round: Rounding, xs: seq<real>): seq<real>
    requires RoundsFinite(round, xs)
  {
    seq(|xs|, i requires 0 <= i < |xs| => round(xs[i]).value)
  }

  predicate StepRounds(round: Rounding, step: Step, frame: nat, fps: int)
    requires fps != 0
  {
    && RoundsFinite(round, step.observation) && RoundsFinite(round, step.action)
    && round(Seconds(frame, fps)).Some?
    && (step.reward.Some? ==> round(step.reward.value).Some?)
  }

  /** The step with its values rounded and its time replaced by frame / fps. */
  function RoundedStep(round: Rounding, step: Step, frame: nat, fps: int): Step
    requires fps != 0 && StepRounds(round, step, frame, fps)
  {
    Step(Rounded(round, step.observation), Rounded(round, step.action), round(Seconds(frame, fps)),
         if step.reward.None? then None else round(step.reward.value))
  }

  predicate DatasetRounds(round: Rounding, ds: Loaded, fps: int)
    requires fps != 0
  {
    forall e, p :: 0 <= e < |ds.episodes| && 0 <= p < |ds.episodes[e]| ==> StepRounds(round, ds.episodes[e][p], p, fps)
  }

  function RoundedEpisode(round: Rounding, ds: Loaded, fps: int, e: nat): seq<Step>
    requires fps != 0 && e < |ds.episodes| && DatasetRounds(round, ds, fps)
  {
    seq(|ds.episodes[e]|, p requires 0 <= p < |ds.episodes[e]| => RoundedStep(round, ds.episodes[e][p], p, fps))
  }

  /** The same episodes, dimensions and reward presence. */
  function RoundedDataset(round: Rounding, ds: Loaded, fps: int): Loaded
    requires fps != 0 && DatasetRounds(round, ds, fps)
  {
    Loaded(seq(|ds.episodes|, e requires 0 <= e < |ds.episodes| => RoundedEpisode(round, ds, fps, e)),
           ds.obsDim, ds.actDim, ds.hasReward, [fps as real], ds.totalSteps, [])
  }

  // ----- Decoding an exported row -----

  lemma {:induction false} CellsDecode(round: Rounding, xs: seq<real>, n: nat)
    requires n <= |xs|
    ensures FiniteFloats(Cells(round, xs).items, n).Ok? <==> forall i :: 0 <= i < n ==> round(xs[i]).Some?
    ensures FiniteFloats(Cells(round, xs).items, n).Ok? ==>
      var r := FiniteFloats(Cells(round, xs).items, n).value;
      |r| == n && forall i :: 0 <= i < n ==> Some(r[i]) == round(xs[i])
    ensures FiniteFloats(Cells(round, xs).items, n).Err? ==> FiniteFloats(Cells(round, xs).items, n).error == NonFiniteCell
  {
    if n > 0 { CellsDecode(round, xs, n - 1); }
  }

  lemma VectorDecodes(round: Rounding, xs: seq<real>)
    requires xs != []
    ensures FiniteVector(Cells(round, xs)) == if RoundsFinite(round, xs) then Ok(Rounded(round, xs)) else Err(NonFiniteCell)
  {
    CellsDecode(round, xs, |xs|);
    if RoundsFinite(round, xs) {
      assert FiniteVector(Cells(round, xs)).value == Rounded(round, xs);
    }
  }

  lemma CellDecodes(round: Rounding, x: real)
    ensures FiniteFloat(Cell(round, x)) == match round(x) { case None => Err(NonFiniteCell) case Some(r) => Ok(r) }
    ensures AsScalar(Cell(round, x)) == Cell(round, x)
  {
  }

  /** Decoding undoes the writing of one row exactly when every value stays finite. */
  lemma RowDecodes(round: Rounding, table: Table, step: Step, e: nat, p: nat, index: nat, fps: int, hasReward: bool,
                   width: Option<Width>)
    requires fps != 0 && step.observation != [] && step.action != [] && step.reward.Some? == hasReward
    requires table.columns == ColumnsOf(hasReward)
    requires width.None? || width.value == Width(|step.observation|, |step.action|)
    ensures
      var r := DecodeRow(table, StepRow(round, step, e, p, index, fps, hasReward), p, fps, width);
      && (r.Ok? <==> StepRounds(round, step, p, fps))
      && (r.Err? ==> r.error == NonFiniteCell)
      && (r.Ok? ==> StepOf(r.value) == RoundedStep(round, step, p, fps) && Finite(r.value.t).Some?)
  {
    hide FiniteFloat, AsScalar, FiniteVector, Cells, Cell;
    var row := StepRow(round, step, e, p, index, fps, hasReward);
    VectorDecodes(round, step.observation);
    VectorDecodes(round, step.action);
    CellDecodes(round, Seconds(p, fps));
    if hasReward { CellDecodes(round, step.reward.value); }
    assert CellAt(row, ObservationColumn) == Cells(round, step.observation);
    assert CellAt(row, ActionColumn) == Cells(round, step.action);
    assert CellAt(row, TimestampColumn) == Cell(round, Seconds(p, fps));
    assert hasReward ==> CellAt(row, RewardColumn) == Cell(round, step.reward.value);
  }

  // ----- The exported table -----

  predicate Exportable(ds: Loaded, fps: int) {
    WellFormed(ds) && ds.episodes != [] && ds.current == [] && fps >= 1
  }

  function TableOf(round: Rounding, ds: Loaded, fps: int): Table
    requires fps != 0
  {
    Table(ColumnsOf(ds.hasReward), Concat(ShardsOf(round, ds, fps), |ds.episodes|))
  }

  /** Row `Offset(e) + p` of the table and its episode number. */
  lemma RowAt(round: Rounding, ds: Loaded, fps: int, e: nat, p: nat)
    requires fps != 0 && e < |ds.episodes| && p < |ds.episodes[e]|
    ensures
      var table, k := TableOf(round, ds, fps), Offset(ds.episodes, e) + p;
      && k < |table.rows|
      && table.rows[k] == StepRow(round, ds.episodes[e][p], e, p, k, fps, ds.hasReward)
      && EpisodeValues(table)[k] == Integer(e)
  {
    RowOfStep(round, ds, fps, |ds.episodes|, e, p);
    var k := Offset(ds.episodes, e) + p;
    EpisodeCell(round, ds.episodes[e][p], e, p, k, fps, ds.hasReward);
    hide StepRow;
  }

  lemma EpisodeCell(round: Rounding, step: Step, e: nat, p: nat, k: nat, fps: int, hasReward: bool)
    requires fps != 0
    ensures AsScalar(CellAt(StepRow(round, step, e, p, k, fps, hasReward), EpisodeIndexColumn)) == Integer(e)
  {
  }

  lemma EpisodeFits(ds: Loaded, fps: int, e: nat)
    requires Exportable(ds, fps) && e < |ds.episodes|
    ensures ds.episodes[e] != [] && StepsFit(ds, ds.episodes[e])
  {
  }

  lemma EpisodeIsNumbered(round: Rounding, ds: Loaded, fps: int, values: seq<Value>, e: nat)
    requires Exportable(ds, fps) && values == EpisodeValues(TableOf(round, ds, fps)) && e < |ds.episodes|
    ensures NumberedAt(ds.episodes, values, e)
  {
    hide WellFormed, StepRow, Offset, EpisodeValues, TableOf;
    EpisodeFits(ds, fps, e);
    OffsetNext(ds.episodes, e);
    RowAt(round, ds, fps, e, |ds.episodes[e]| - 1);
    forall k | Offset(ds.episodes, e) <= k < Offset(ds.episodes, e + 1) ensures values[k] == Integer(e) {
      RowAt(round, ds, fps, e, k - Offset(ds.episodes, e));
    }
  }

  /** The table numbers the episodes. */
  lemma TableIsNumbered(round: Rounding, ds: Loaded, fps: int)
    requires Exportable(ds, fps)
    ensures Numbered(ds.episodes, EpisodeValues(TableOf(round, ds, fps)))
  {
    IndexCountsFrames(round, ds, fps, |ds.episodes|);
    var values := EpisodeValues(TableOf(round, ds, fps));
    hide WellFormed, Offset, EpisodeValues, ShardsOf, Concat, NumberedAt;
    forall e | 0 <= e < |ds.episodes| { EpisodeIsNumbered(round, ds, fps, values, e); }
  }

  /** The width is unset or that of the dataset. */
  lemma WidthOfExport(round: Rounding, ds: Loaded, fps: int, k: nat)
    requires Exportable(ds, fps) && k <= |TableOf(round, ds, fps).rows|
    ensures
      var width := WidthAfter(TableOf(round, ds, fps), k);
      && ds.episodes[0] != []
      && (width.Some? ==> Some(width.value.obs) == ds.obsDim && Some(width.value.act) == ds.actDim)
      && (k > 0 && StepRounds(round, ds.episodes[0][0], 0, fps) ==> width.Some?)
  {
    EpisodeFits(ds, fps, 0);
    var first := ds.episodes[0][0];
    assert StepFits(ds, first);
    hide WellFormed;
    RowAt(round, ds, fps, 0, 0);
    OffsetNext(ds.episodes, 0);
    VectorDecodes(round, first.observation);
    VectorDecodes(round, first.action);
    FirstCells(round, first, fps, ds.hasReward);
    hide StepRow, Cells, FiniteVector, TableOf, CellAt;
  }

  lemma FirstCells(round: Rounding, step: Step, fps: int, hasReward: bool)
    requires fps != 0
    ensures CellAt(StepRow(round, step, 0, 0, 0, fps, hasReward), ObservationColumn) == Cells(round, step.observation)
    ensures CellAt(StepRow(round, step, 0, 0, 0, fps, hasReward), ActionColumn) == Cells(round, step.action)
  {
  }

  /** The row of step `p` of episode `e` is decoded at position `p`. */
  lemma DecodesAt(round: Rounding, ds: Loaded, fps: int, table: Table, e: nat, p: nat)
    requires Exportable(ds, fps) && table == TableOf(round, ds, fps) && e < |ds.episodes| && p < |ds.episodes[e]|
    ensures
      var k := Offset(ds.episodes, e) + p;
      && k < |table.rows|
      && DecodeAt(table, fps, EpisodeValues(table), k)
         == DecodeRow(table, StepRow(round, ds.episodes[e][p], e, p, k, fps, ds.hasReward), p, fps, WidthAfter(table, k))
  {
    hide StepRow, DecodeRow, WidthAfter, EpisodeValues, TableOf, WellFormed, Position, Numbered, Offset;
    RowAt(round, ds, fps, e, p);
    TableIsNumbered(round, ds, fps);
    PositionOfStep(ds.episodes, EpisodeValues(table), e, p);
  }

  lemma StepFitsAt(round: Rounding, ds: Loaded, fps: int, e: nat, p: nat)
    requires Exportable(ds, fps) && e < |ds.episodes| && p < |ds.episodes[e]|
    ensures TableOf(round, ds, fps).columns == ColumnsOf(ds.hasReward) && StepFits(ds, ds.episodes[e][p])
  {
    EpisodeFits(ds, fps, e);
  }

  lemma StepDecodes(round: Rounding, ds: Loaded, fps: int, table: Table, e: nat, p: nat)
    requires Exportable(ds, fps) && table == TableOf(round, ds, fps) && e < |ds.episodes| && p < |ds.episodes[e]|
    ensures Offset(ds.episodes, e) + p < |table.rows|
    ensures
      var r := DecodeAt(table, fps, EpisodeValues(table), Offset(ds.episodes, e) + p);
      && (r.Ok? <==> StepRounds(round, ds.episodes[e][p], p, fps))
      && (r.Err? ==> r.error == NonFiniteCell)
      && (r.Ok? ==> StepOf(r.value) == RoundedStep(round, ds.episodes[e][p], p, fps) && Finite(r.value.t).Some?)
  {
    var k := Offset(ds.episodes, e) + p;
    StepFitsAt(round, ds, fps, e, p);
    hide StepRow, DecodeRow, DecodeAt, WidthAfter, StepRounds, RoundedStep, EpisodeValues, TableOf, WellFormed, ColumnsOf, StepOf,
         Position, Numbered, Offset, Finite;
    DecodesAt(round, ds, fps, table, e, p);
    WidthOfExport(round, ds, fps, k);
    RowDecodes(round, table, ds.episodes[e][p], e, p, k, fps, ds.hasReward, WidthAfter(table, k));
  }

  // ----- The checks -----

  lemma {:induction false} LengthsAreThose(episodes: seq<seq<Step>>, n: nat)
    requires n <= |episodes|
    ensures |LengthsOf(episodes, n)| == n
    ensures forall e :: e in LengthsOf(episodes, n) <==> 0 <= e < n
    ensures forall e :: 0 <= e < n ==> LengthsOf(episodes, n)[e] == |episodes[e]|
  {
    if n > 0 { LengthsAreThose(episodes, n - 1); }
  }

  /** The metadata of an export passes the cross-checks of the import. */
  lemma ExportPassesChecks(ds: Loaded, values: seq<Value>)
    requires ds.episodes != [] && Numbered(ds.episodes, values) && AllIntegers(values)
    ensures CrossCheck(Integer(|ds.episodes|), LengthsOf(ds.episodes, |ds.episodes|), RunsOf(values, |values|)) == None
  {
    hide Numbered, RunsOf, GroupsOf, LengthsOf, AllIntegers;
    GroupsAreEpisodes(ds.episodes, values);
    LengthsAreThose(ds.episodes, |ds.episodes|);
  }

  // ----- The theorem -----

  lemma {:induction false} LinesOkExactly(table: Table, fps: int, values: seq<Value>, n: nat)
    requires n <= |table.rows| == |values|
    ensures StepLines(table, fps, values, n).Ok? <==> forall k :: 0 <= k < n ==> DecodeAt(table, fps, values, k).Ok?
  {
    hide DecodeAt;
    if n > 0 { LinesOkExactly(table, fps, values, n - 1); }
  }

  lemma {:induction false} LinesFailAsRows(table: Table, fps: int, values: seq<Value>, n: nat, e: ImportError)
    requires n <= |table.rows| == |values|
    requires forall k :: 0 <= k < n && DecodeAt(table, fps, values, k).Err? ==> DecodeAt(table, fps, values, k).error == e
    ensures StepLines(table, fps, values, n).Err? ==> StepLines(table, fps, values, n).error == e
  {
    hide DecodeAt;
    if n > 0 { LinesFailAsRows(table, fps, values, n - 1, e); }
  }

  lemma RowFails(round: Rounding, ds: Loaded, fps: int, table: Table, k: nat)
    requires Exportable(ds, fps) && table == TableOf(round, ds, fps) && k < |table.rows|
    requires DecodeAt(table, fps, EpisodeValues(table), k).Err?
    ensures DecodeAt(table, fps, EpisodeValues(table), k).error == NonFiniteCell
  {
    hide TableOf, EpisodeValues, DecodeAt, StepRounds, WellFormed, Numbered;
    TableIsNumbered(round, ds, fps);
    NumberedLength(ds.episodes, EpisodeValues(table));
    var e, p := Locate(ds.episodes, |ds.episodes|, k);
    StepDecodes(round, ds, fps, table, e, p);
  }

  lemma RowOk(round: Rounding, ds: Loaded, fps: int, table: Table, k: nat)
    requires Exportable(ds, fps) && table == TableOf(round, ds, fps) && DatasetRounds(round, ds, fps) && k < |table.rows|
    ensures DecodeAt(table, fps, EpisodeValues(table), k).Ok?
    ensures Finite(DecodeAt(table, fps, EpisodeValues(table), k).value.t).Some?
  {
    hide TableOf, EpisodeValues, DecodeAt, StepRounds, WellFormed, Numbered;
    TableIsNumbered(round, ds, fps);
    NumberedLength(ds.episodes, EpisodeValues(table));
    var e, p := Locate(ds.episodes, |ds.episodes|, k);
    assert StepRounds(round, ds.episodes[e][p], p, fps);
    StepDecodes(round, ds, fps, table, e, p);
  }

  lemma StepOk(round: Rounding, ds: Loaded, fps: int, table: Table, e: nat, p: nat)
    requires Exportable(ds, fps) && table == TableOf(round, ds, fps) && e < |ds.episodes| && p < |ds.episodes[e]|
    requires StepLines(table, fps, EpisodeValues(table), |table.rows|).Ok?
    ensures StepRounds(round, ds.episodes[e][p], p, fps)
  {
    hide TableOf, EpisodeValues, DecodeAt, StepRounds, StepLines, WellFormed, Offset;
    LinesOkExactly(table, fps, EpisodeValues(table), |table.rows|);
    StepDecodes(round, ds, fps, table, e, p);
  }

  /** The import of an export succeeds exactly when no value overflows. */
  lemma LinesOfExport(round: Rounding, ds: Loaded, fps: int, table: Table)
    requires Exportable(ds, fps) && table == TableOf(round, ds, fps)
    ensures StepLines(table, fps, EpisodeValues(table), |table.rows|).Ok? <==> DatasetRounds(round, ds, fps)
    ensures !DatasetRounds(round, ds, fps) ==> StepLines(table, fps, EpisodeValues(table), |table.rows|) == Err(NonFiniteCell)
    ensures DatasetRounds(round, ds, fps) ==> TimesFinite(table, fps, EpisodeValues(table), |table.rows|)
  {
    hide TableOf, EpisodeValues, DecodeAt, StepRounds, StepLines, WellFormed;
    LinesOkExactly(table, fps, EpisodeValues(table), |table.rows|);
    forall k | 0 <= k < |table.rows| && DecodeAt(table, fps, EpisodeValues(table), k).Err? {
      RowFails(round, ds, fps, table, k);
    }
    LinesFailAsRows(table, fps, EpisodeValues(table), |table.rows|, NonFiniteCell);
    if StepLines(table, fps, EpisodeValues(table), |table.rows|).Ok? {
      forall e, p | 0 <= e < |ds.episodes| && 0 <= p < |ds.episodes[e]| { StepOk(round, ds, fps, table, e, p); }
    }
    if DatasetRounds(round, ds, fps) {
      forall k | 0 <= k < |table.rows| { RowOk(round, ds, fps, table, k); }
    }
  }

  lemma {:induction false} SameOffsets<S, T>(a: seq<seq<S>>, b: seq<seq<T>>, n: nat)
    requires n <= |a| == |b| && forall e :: 0 <= e < |a| ==> |a[e]| == |b[e]|
    ensures Offset(a, n) == Offset(b, n)
  {
    if n > 0 { SameOffsets(a, b, n - 1); }
  }

  lemma SameNumbers(round: Rounding, ds: Loaded, fps: int, values: seq<Value>)
    requires fps != 0 && DatasetRounds(round, ds, fps) && Numbered(ds.episodes, values)
    ensures Numbered(RoundedDataset(round, ds, fps).episodes, values)
  {
    hide DatasetRounds;
    var episodes := RoundedDataset(round, ds, fps).episodes;
    SameOffsets(episodes, ds.episodes, |episodes|);
    forall e | 0 <= e < |episodes| ensures NumberedAt(episodes, values, e) {
      assert NumberedAt(ds.episodes, values, e);
      SameOffsets(episodes, ds.episodes, e);
      SameOffsets(episodes, ds.episodes, e + 1);
    }
  }

  lemma RoundedStepsAre(round: Rounding, ds: Loaded, fps: int, table: Table, e: nat)
    requires Exportable(ds, fps) && table == TableOf(round, ds, fps) && DatasetRounds(round, ds, fps) && e < |ds.episodes|
    ensures StepsAre(table, fps, EpisodeValues(table), RoundedDataset(round, ds, fps).episodes, e)
  {
    hide TableOf, EpisodeValues, DecodeAt, StepOf, StepRounds, RoundedStep, WellFormed, Offset;
    var episodes := RoundedDataset(round, ds, fps).episodes;
    SameOffsets(episodes, ds.episodes, e);
    forall p | 0 <= p < |episodes[e]|
      ensures StepIs(table, fps, EpisodeValues(table), Offset(episodes, e) + p, episodes[e][p])
    {
      assert StepRounds(round, ds.episodes[e][p], p, fps);
      StepDecodes(round, ds, fps, table, e, p);
    }
  }

  lemma SplitOfExport(round: Rounding, ds: Loaded, fps: int, table: Table)
    requires Exportable(ds, fps) && table == TableOf(round, ds, fps) && DatasetRounds(round, ds, fps)
    ensures |table.rows| == Offset(ds.episodes, |ds.episodes|)
    ensures StepLines(table, fps, EpisodeValues(table), |table.rows|).Ok?
    ensures SplitAfter(table, fps, EpisodeValues(table), |table.rows|) == Split(RoundedDataset(round, ds, fps).episodes, [])
  {
    hide TableOf, EpisodeValues, StepLines, RoundedEpisode, DatasetRounds, WellFormed, Offset, SplitAfter, StepsAre, Numbered;
    var values, episodes := EpisodeValues(table), RoundedDataset(round, ds, fps).episodes;
    LinesOfExport(round, ds, fps, table);
    TableIsNumbered(round, ds, fps);
    NumberedLength(ds.episodes, values);
    SameNumbers(round, ds, fps, values);
    forall e | 0 <= e < |episodes| { RoundedStepsAre(round, ds, fps, table, e); }
    WholeSplit(table, fps, values, episodes);
  }

  lemma WholeWidth(round: Rounding, ds: Loaded, fps: int, table: Table)
    requires Exportable(ds, fps) && table == TableOf(round, ds, fps) && DatasetRounds(round, ds, fps)
    ensures table.rows != []
    ensures
      var width := WidthAfter(table, |table.rows|);
      width.Some? && Some(width.value.obs) == ds.obsDim && Some(width.value.act) == ds.actDim
  {
    EpisodeFits(ds, fps, 0);
    assert StepRounds(round, ds.episodes[0][0], 0, fps);
    hide TableOf, StepRounds, WidthAfter, DatasetRounds, WellFormed, Offset;
    RowAt(round, ds, fps, 0, 0);
    WidthOfExport(round, ds, fps, |table.rows|);
  }

  lemma ExportFields(round: Rounding, ds: Loaded, fps: int)
    requires Exportable(ds, fps)
    ensures TableOf(round, ds, fps).columns == ColumnsOf(ds.hasReward)
    ensures ds.totalSteps == Offset(ds.episodes, |ds.episodes|)
  {
    hide Offset, Concat;
  }

  lemma LoadedExport(round: Rounding, ds: Loaded, fps: int, table: Table)
    requires Exportable(ds, fps) && table == TableOf(round, ds, fps) && DatasetRounds(round, ds, fps)
    ensures StepLines(table, fps, EpisodeValues(table), |table.rows|).Ok?
    ensures LoadedAfter(table, fps, EpisodeValues(table), |table.rows|) == RoundedDataset(round, ds, fps)
  {
    hide TableOf, EpisodeValues, StepLines, RoundedEpisode, DatasetRounds, Exportable, Offset, SplitAfter, WidthAfter;
    ExportFields(round, ds, fps);
    SplitOfExport(round, ds, fps, table);
    WholeWidth(round, ds, fps, table);
    assert RewardColumn in ColumnsOf(ds.hasReward) <==> ds.hasReward;
  }

  lemma TasksAreRead(task: Points)
    ensures ReadNames(TasksOf(task)) == if TaskKeepsLine(task) then Some(map[0 := task]) else None
  {
    hide TaskKeepsLine;
    var lines := TasksOf(task).lines;
    assert TakeTasks(lines, 0) == Some(map[]);
  }

  /** A task name with a break in it stops the import at tasks.jsonl; any other export opens as its table. */
  lemma OpensAsTable(round: Rounding, ds: Loaded, task: Points, fps: int, sort: seq<TableRow> -> seq<TableRow>, order: seq<Table>)
    requires fps >= 1 && ds.episodes != []
    requires LoadDataTable(sort, order) == Ok(TableOf(round, ds, fps))
    ensures Opened(sort, Exported(round, ds, task, fps).(shards := order)) ==
      if TaskKeepsLine(task)
      then Ok(Source(fps, map[0 := task], LengthsOf(ds.episodes, |ds.episodes|), TableOf(round, ds, fps)))
      else Err(TasksUnreadable)
  {
    hide LoadDataTable, TasksOf, TaskKeepsLine, LengthsOf, ReadNames;
    TasksAreRead(task);
    assert FpsOf(Integer(fps)) == Some(fps);
  }

  /** The note of an export's import stays on its line and can be written, as the one task can. */
  lemma NoteOfExport(task: Points)
    requires Free(task, LoneSurrogate)
    ensures Free(Quoted(Note("v3.0", map[0 := task])), LoneSurrogate)
    ensures TaskKeepsLine(task) <==> Free(task, BreaksQuoted)
    ensures AllFree(map[0 := task], BreaksQuoted) <==> Free(task, BreaksQuoted)
  {
    hide Free, Note, Quoted;
    NoteLine("v3.0", map[0 := task]);
    QuotedFree(task, BreaksLine);
    assert map[0 := task][0] == task;
  }

  /**
   The round trip of a dataset: for every rounding, every sort by the index column and every order the
   shards are read in, the import refuses a task name that breaks its line and a value that is no longer
   finite, and otherwise loading what it wrote gives the rounded dataset, if the rate fits a double.
   */
  lemma DatasetRoundTrip(round: Rounding, ds: Loaded, task: Points, fps: int, sort: seq<TableRow> -> seq<TableRow>,
                         order: seq<Table>)
    requires Exportable(ds, fps) && Free(task, LoneSurrogate) && IsSort(sort)
    requires multiset(order) == multiset(Exported(round, ds, task, fps).shards)
    ensures
      var imported := Imported(sort, Exported(round, ds, task, fps).(shards := order));
      if !Free(task, BreaksQuoted) then imported == Err(TasksUnreadable)
      else if !DatasetRounds(round, ds, fps) then imported == Err(NonFiniteCell)
      else
        imported.Ok? && Load([AsFile(imported.value)])
                        == if FitsDouble(fps) then Ok(RoundedDataset(round, ds, fps)) else Err(BadSampleHz)
  {
    var dir, table := Exported(round, ds, task, fps).(shards := order), TableOf(round, ds, fps);
    var values := EpisodeValues(table);
    ShardOrderIsIrrelevant(round, ds, fps, sort, order);
    assert dir.version == "v3.0" && dir.totalEpisodes == Integer(|ds.episodes|);
    hide TableOf, StepLines, Exported, DatasetRounds, LoadedAfter, TimesFinite, RunsOf, IsSort, WellFormed, LoadDataTable, Opened,
         CrossCheck, EpisodeValues, Numbered, AllIntegers, Load, Note, Quoted, Free, TaskKeepsLine, AllFree, LengthsOf, FitsDouble,
         AsFile;
    OpensAsTable(round, ds, task, fps, sort, order);
    NoteOfExport(task);
    TableIsNumbered(round, ds, fps);
    NumberedIntegers(ds.episodes, values);
    ExportPassesChecks(ds, values);
    LinesOfExport(round, ds, fps, table);
    if Free(task, BreaksQuoted) && DatasetRounds(round, ds, fps) {
      LoadedExport(round, ds, fps, table);
      WrittenFileLoads(sort, dir);
    }
  }

  /** The round trip of every input, frame rate and task name an export accepts. */
  lemma RoundTrip(round: Rounding, files: seq<seq<Line>>, requested: Option<int>, task: Points,
                  sort: seq<TableRow> -> seq<TableRow>, order: seq<Table>)
    requires LoadDataset(files).Ok? && ResolveFps(requested, LoadDataset(files).value.sampleHz).Ok? && Free(task, LoneSurrogate)
    requires IsSort(sort)
    requires
      var ds := LoadDataset(files).value;
      multiset(order) == multiset(Exported(round, ds, task, ResolveFps(requested, ds.sampleHz).value).shards)
    ensures
      var ds := LoadDataset(files).value;
      var fps := ResolveFps(requested, ds.sampleHz).value;
      var imported := Imported(sort, Exported(round, ds, task, fps).(shards := order));
      if !Free(task, BreaksQuoted) then imported == Err(TasksUnreadable)
      else if !DatasetRounds(round, ds, fps) then imported == Err(NonFiniteCell)
      else
        imported.Ok? && Load([AsFile(imported.value)])
                        == if FitsDouble(fps) then Ok(RoundedDataset(round, ds, fps)) else Err(BadSampleHz)
  {
    hide LoadDataset, Load, IsSort, Exported, Imported, DatasetRounds, Free, FitsDouble, AsFile;
    var ds := LoadDataset(files).value;
    DatasetRoundTrip(round, ds, task, ResolveFps(requested, ds.sampleHz).value, sort, order);
  }

  // ----- An export that cannot be imported -----

  /** One file with one step. */
  const ONE_STEP: seq<seq<Line>> :=
    [[Parsed(Object(map[ObservationField := List([Number(1.0)]), ActionField := List([Number(1.0)])]))]]

  lemma OneStepLoads()
    ensures LoadDataset(ONE_STEP) == Ok(Loaded([[Step([1.0], [1.0], None, None)]], Some(1), Some(1), false, [], 1, []))
  {
    var row := map[ObservationField := List([Number(1.0)]), ActionField := List([Number(1.0)])];
    NumbersAreReals([1.0]);
    assert Numbers([1.0]).items == [Number(1.0)];
    assert VectorsOf(row) == Ok(Vectors([1.0], [1.0]));
    hide Reals, VectorsOf;
    var st := EMPTY.(obsDim := Some(1), actDim := Some(1), totalSteps := 1, current := [Step([1.0], [1.0], None, None)]);
    assert [] + [Step([1.0], [1.0], None, None)] == [Step([1.0], [1.0], None, None)];
    assert TakeStep(EMPTY, row) == Ok(st);
    assert TakeLines(EMPTY, ONE_STEP[0], 0) == Ok(EMPTY);
    assert TakeLines(EMPTY, ONE_STEP[0], 1) == Ok(st);
    assert TakeFiles(EMPTY, ONE_STEP, 0) == Ok(EMPTY);
    assert TakeFiles(EMPTY, ONE_STEP, 1) == Ok(CloseEpisode(st));
    assert CloseEpisode(st).episodes == [st.current];
  }

  /** Exported under a task name that holds a line separator, it is refused by the import. */
  lemma SeparatedTaskIsUnreadable(round: Rounding, sort: seq<TableRow> -> seq<TableRow>)
    requires IsSort(sort)
    ensures LoadDataset(ONE_STEP).Ok? && ResolveFps(None, LoadDataset(ONE_STEP).value.sampleHz) == Ok(DEFAULT_FPS)
    ensures
      var dir := Exported(round, LoadDataset(ONE_STEP).value, [0x2028], DEFAULT_FPS);
      Free([0x2028], LoneSurrogate) && Imported(sort, dir) == Err(TasksUnreadable)
  {
    hide LoadDataset, Exported, Imported, Load, AsFile, DatasetRounds, FitsDouble, IsSort;
    OneStepLoads();
    var dir := Exported(round, LoadDataset(ONE_STEP).value, [0x2028], DEFAULT_FPS);
    OneFree(0x2028, BreaksQuoted);
    OneFree(0x2028, LoneSurrogate);
    RoundTrip(round, ONE_STEP, None, [0x2028], sort, dir.shards);
    assert dir.(shards := dir.shards) == dir;
  }
}
