/**
 Import: a table of rows is cut into episodes where the episode index changes, and written as a
 trajectory file, with the task names in the note of its header. Camera columns are not part of the model.
 */
module LeRobotImport {
  import opened Outcomes
  import opened LeRobotTables
  import opened LeRobotTasks
  import opened TrajectoryRows

  datatype ImportError =
    | BadVersion | BadFps | TasksUnreadable | RecordsUnreadable | TableFailed(table: TableError)
    | NothingTrainable | NoEpisodeIndex | EpisodeIndexNotInteger | NoRows
    | EpisodeCountDiffers | TotalDiffers | LengthDiffers
    | NotAList | EmptyCell | NotNumericCell | NonFiniteCell | DimensionsDiffer | BadFrameIndex | DivisionByZero
    | OverflowsDouble | NoteNotEncodable

  function CellAt(row: TableRow, column: Column): Value {
    if column in row then row[column] else Null
  }

  /** `int(x)` on a finite float truncates toward zero. */
  function Trunc(x: real): int {
    if x >= 0.0 then x.Floor else -((-x).Floor)
  }

  // ----- Cells -----

  /** Unwraps a one-element list. */
  function AsScalar(v: Value): Value {
    if v.List? && |v.items| == 1 then v.items[0] else v
  }

  function FiniteFloat(v: Value): Result<real, ImportError> {
    var scalar := AsScalar(v);
    if !IsNumber(scalar) then Err(NotNumericCell)
    else if Finite(scalar).None? then Err(NonFiniteCell)
    else Ok(Finite(scalar).value)
  }

  function FiniteFloats(items: seq<Value>, n: nat): Result<seq<real>, ImportError>
    requires n <= |items|
  {
    if n == 0 then Ok([])
    else
      match FiniteFloats(items, n - 1)
      case Err(e) => Err(e)
      case Ok(before) =>
        match FiniteFloat(items[n - 1])
        case Err(e) => Err(e)
        case Ok(x) => Ok(before + [x])
  }

  function FiniteVector(v: Value): Result<seq<real>, ImportError> {
    if !v.List? then Err(NotAList)
    else if v.items == [] then Err(EmptyCell)
    else FiniteFloats(v.items, |v.items|)
  }

  // ----- Rows -----

  /** One row as it will be written; the time may be a NaN when it comes from the frame index. */
  datatype Decoded = Decoded(observation: seq<real>, action: seq<real>, t: Value, reward: Option<real>)

  datatype Width = Width(obs: nat, act: nat)

  function FromFrameIndex(v: Value, fps: int): Result<Value, ImportError> {
    if v.Text? || v.Null? || v.List? || v.Object? then Err(BadFrameIndex)
    else if Finite(Integer(fps)).None? || (v.Integer? && Finite(v).None?) then Err(OverflowsDouble)
    else if fps == 0 then Err(DivisionByZero)
    else
      match v
      case Integer(i) => Ok(Number(i as real / fps as real))
      case Number(r) => Ok(Number(r / fps as real))
      case Flag(on) => Ok(Number((if on then 1.0 else 0.0) / fps as real))
      case _ => Ok(NonFinite)
  }

  /** The timestamp column, else the frame index, else the position. */
  function TimeOfRow(table: Table, row: TableRow, position: nat, fps: int): Result<Value, ImportError> {
    if TimestampColumn in table.columns then
      match FiniteFloat(AsScalar(CellAt(row, TimestampColumn)))
      case Err(e) => Err(e)
      case Ok(t) => Ok(Number(t))
    else if FrameIndexColumn in table.columns then FromFrameIndex(AsScalar(CellAt(row, FrameIndexColumn)), fps)
    else if fps == 0 then Err(DivisionByZero)
    else Ok(Number(Seconds(position, fps)))
  }

  lemma QuotientCounts(x: real, fps: int)
    requires fps != 0
    ensures (x / fps as real) * fps as real == x
  {
  }

  /**
   The time of a row: its finite timestamp where the table has that column; else the frame index over the
   rate, a NaN exactly for a frame index that is not finite; else the position over the rate.
   */
  lemma RowTimes(table: Table, row: TableRow, position: nat, fps: int)
    requires TimeOfRow(table, row, position, fps).Ok?
    ensures
      var t, stamp, frame := TimeOfRow(table, row, position, fps).value,
                             AsScalar(AsScalar(CellAt(row, TimestampColumn))), AsScalar(CellAt(row, FrameIndexColumn));
      if TimestampColumn in table.columns then t.Number? && Finite(stamp) == Some(t.r)
      else fps != 0 && if FrameIndexColumn !in table.columns then t.Number? && t.r * fps as real == position as real
      else if Finite(frame).Some? then t.Number? && t.r * fps as real == Finite(frame).value
      else if frame.Flag? then t.Number? && t.r * fps as real == (if frame.on then 1.0 else 0.0)
      else t.NonFinite? && frame.NonFinite?
  {
    hide FitsDouble;
    if fps != 0 {
      var frame := AsScalar(CellAt(row, FrameIndexColumn));
      QuotientCounts(position as real, fps);
      if Finite(frame).Some? { QuotientCounts(Finite(frame).value, fps); }
      QuotientCounts(0.0, fps);
      QuotientCounts(1.0, fps);
    }
  }

  function RewardOfRow(table: Table, row: TableRow): Result<Option<real>, ImportError> {
    if RewardColumn !in table.columns then Ok(None)
    else
      match FiniteFloat(CellAt(row, RewardColumn))
      case Err(e) => Err(e)
      case Ok(r) => Ok(Some(r))
  }

  /** The first row fixes the width. */
  function DecodeRow(table: Table, row: TableRow, position: nat, fps: int, width: Option<Width>): Result<Decoded, ImportError> {
    match FiniteVector(CellAt(row, ObservationColumn))
    case Err(e) => Err(e)
    case Ok(obs) =>
      match FiniteVector(CellAt(row, ActionColumn))
      case Err(e) => Err(e)
      case Ok(act) =>
        if width.Some? && width.value != Width(|obs|, |act|) then Err(DimensionsDiffer)
        else
          match TimeOfRow(table, row, position, fps)
          case Err(e) => Err(e)
          case Ok(t) =>
            match RewardOfRow(table, row)
            case Err(e) => Err(e)
            case Ok(reward) => Ok(Decoded(obs, act, t, reward))
  }

  function Numbers(xs: seq<real>): Value {
    List(seq(|xs|, i requires 0 <= i < |xs| => Number(xs[i])))
  }

  function StepLine(d: Decoded, done: bool): Row {
    var row := map[
      TypeField := Text("step"), TField := d.t, ObservationField := Numbers(d.observation), ActionField := Numbers(d.action),
      DoneField := Flag(done)];
    if d.reward.Some? then row[RewardField := Number(d.reward.value)] else row
  }

  function HeaderLine(fps: int): Row {
    map[TypeField := Text("header"), OtherField("format") := Text("microduck-trajectory-v1"),
        OtherField("source") := Text("lerobot-import"), SampleHzField := Integer(fps)]
  }

  // ----- Episodes are runs of equal episode indices -----

  predicate AllIntegers(values: seq<Value>) {
    forall k :: 0 <= k < |values| ==> values[k].Integer?
  }

  /** The number of rows of the same run before row `k`. */
  function Position(values: seq<Value>, k: nat): nat
    requires k < |values|
  {
    if k == 0 || values[k - 1] != values[k] then 0 else Position(values, k - 1) + 1
  }

  predicate EndsRun(values: seq<Value>, k: nat)
    requires k < |values|
  {
    k == |values| - 1 || values[k + 1] != values[k]
  }

  /** The width after `k` rows: that of the first one. */
  function WidthAfter(table: Table, k: nat): Option<Width>
    requires k <= |table.rows|
  {
    if k == 0 then None
    else
      var obs, act := FiniteVector(CellAt(table.rows[0], ObservationColumn)), FiniteVector(CellAt(table.rows[0], ActionColumn));
      if obs.Ok? && act.Ok? then Some(Width(|obs.value|, |act.value|)) else None
  }

  function DecodeAt(table: Table, fps: int, values: seq<Value>, k: nat): Result<Decoded, ImportError>
    requires k < |table.rows| == |values|
  {
    DecodeRow(table, table.rows[k], Position(values, k), fps, WidthAfter(table, k))
  }

  /** The step lines of the first `n` rows. */
  function StepLines(table: Table, fps: int, values: seq<Value>, n: nat): Result<seq<Row>, ImportError>
    requires n <= |table.rows| == |values|
  {
    if n == 0 then Ok([])
    else
      match StepLines(table, fps, values, n - 1)
      case Err(e) => Err(e)
      case Ok(before) =>
        match DecodeAt(table, fps, values, n - 1)
        case Err(e) => Err(e)
        case Ok(d) => Ok(before + [StepLine(d, EndsRun(values, n - 1))])
  }

  lemma {:induction false} StepLinesStayFailed(table: Table, fps: int, values: seq<Value>, k: nat, n: nat)
    requires k <= n <= |table.rows| == |values| && StepLines(table, fps, values, k).Err?
    ensures StepLines(table, fps, values, n) == StepLines(table, fps, values, k)
    decreases n - k
  {
    if k < n { StepLinesStayFailed(table, fps, values, k, n - 1); }
  }

  // ----- The grouping loop -----

  datatype Group = Group(index: int, rows: seq<nat>)

  /** The number of rows in the first `g` groups. */
  function GroupStart(groups: seq<Group>, g: nat): nat
    requires g <= |groups|
  {
    if g == 0 then 0 else GroupStart(groups, g - 1) + |groups[g - 1].rows|
  }

  predicate GroupIs(groups: seq<Group>, values: seq<Value>, g: nat)
    requires g < |groups|
  {
    && groups[g].rows != []
    && forall p :: 0 <= p < |groups[g].rows| ==>
      && groups[g].rows[p] == GroupStart(groups, g) + p < |values|
      && values[GroupStart(groups, g) + p] == Integer(groups[g].index)
  }

  /** The groups are the maximal runs of the first `n` values, in order. */
  predicate AreRuns(groups: seq<Group>, values: seq<Value>, n: nat) {
    && GroupStart(groups, |groups|) == n
    && (forall g :: 0 <= g < |groups| ==> GroupIs(groups, values, g))
    && (forall g :: 0 < g < |groups| ==> groups[g].index != groups[g - 1].index)
  }

  lemma {:induction false} GroupStartOfPrefix(a: seq<Group>, b: seq<Group>, g: nat)
    requires g <= |a| && g <= |b| && a[..g] == b[..g]
    ensures GroupStart(a, g) == GroupStart(b, g)
  {
    if g > 0 {
      assert a[..g - 1] == a[..g][..g - 1] && b[..g - 1] == b[..g][..g - 1];
      GroupStartOfPrefix(a, b, g - 1);
      assert a[g - 1] == a[..g][g - 1] && b[g - 1] == b[..g][g - 1];
    }
  }

  function NextGroups(groups: seq<Group>, index: int, row: nat): seq<Group> {
    var n := |groups|;
    if n == 0 || groups[n - 1].index != index then groups + [Group(index, [row])]
    else groups[n - 1 := Group(index, groups[n - 1].rows + [row])]
  }

  lemma RunsGrow(groups: seq<Group>, values: seq<Value>, n: nat)
    requires n < |values| && values[n].Integer? && AreRuns(groups, values, n)
    ensures AreRuns(NextGroups(groups, values[n].i, n), values, n + 1)
  {
    var after := NextGroups(groups, values[n].i, n);
    forall g | 0 <= g <= |groups| && g < |after| ensures GroupStart(after, g) == GroupStart(groups, g) {
      GroupStartOfPrefix(after, groups, g);
    }
    forall g | 0 <= g < |after| ensures GroupIs(after, values, g) {
      if g < |groups| { assert GroupIs(groups, values, g); }
    }
  }

  function RunsOf(values: seq<Value>, n: nat): seq<Group>
    requires n <= |values| && AllIntegers(values)
  {
    if n == 0 then [] else NextGroups(RunsOf(values, n - 1), values[n - 1].i, n - 1)
  }

  /** The grouping finds exactly the maximal runs. */
  lemma {:induction false} RunsOfAreRuns(values: seq<Value>, n: nat)
    requires n <= |values| && AllIntegers(values)
    ensures AreRuns(RunsOf(values, n), values, n)
  {
    if n > 0 {
      RunsOfAreRuns(values, n - 1);
      RunsGrow(RunsOf(values, n - 1), values, n - 1);
    }
  }

  method GroupRows(values: seq<Value>) returns (r: Result<seq<Group>, ImportError>)
    ensures r == if AllIntegers(values) then Ok(RunsOf(values, |values|)) else Err(EpisodeIndexNotInteger)
  {
    var groups: seq<Group> := [];
    var row := 0;
    while row < |values| && values[row].Integer?
      invariant 0 <= row <= |values| && forall k :: 0 <= k < row ==> values[k].Integer?
      invariant AllIntegers(values) ==> groups == RunsOf(values, row)
    {
      groups := NextGroups(groups, values[row].i, row);
      row := row + 1;
    }
    if row < |values| { return Err(EpisodeIndexNotInteger); }
    return Ok(groups);
  }

  lemma RowOfGroup(groups: seq<Group>, values: seq<Value>, g: nat, p: nat)
    requires AreRuns(groups, values, |values|) && g < |groups| && p < |groups[g].rows|
    ensures groups[g].rows[p] == GroupStart(groups, g) + p < |values|
    ensures values[GroupStart(groups, g) + p] == Integer(groups[g].index)
  {
    assert GroupIs(groups, values, g);
    assert groups[g].rows[p] == GroupStart(groups, g) + p;
  }

  lemma {:induction false} PositionInGroup(groups: seq<Group>, values: seq<Value>, g: nat, p: nat)
    requires AreRuns(groups, values, |values|) && g < |groups| && p < |groups[g].rows|
    ensures GroupStart(groups, g) + p < |values|
    ensures Position(values, GroupStart(groups, g) + p) == p
  {
    RowOfGroup(groups, values, g, p);
    if p > 0 {
      RowOfGroup(groups, values, g, p - 1);
      PositionInGroup(groups, values, g, p - 1);
    } else if g > 0 {
      assert GroupIs(groups, values, g - 1);
      RowOfGroup(groups, values, g - 1, |groups[g - 1].rows| - 1);
    }
  }

  lemma EndOfGroup(groups: seq<Group>, values: seq<Value>, g: nat, p: nat)
    requires AreRuns(groups, values, |values|) && g < |groups| && p < |groups[g].rows|
    ensures GroupStart(groups, g) + p < |values|
    ensures EndsRun(values, GroupStart(groups, g) + p) <==> p == |groups[g].rows| - 1
  {
    RowOfGroup(groups, values, g, p);
    if p < |groups[g].rows| - 1 {
      RowOfGroup(groups, values, g, p + 1);
    } else if g + 1 < |groups| {
      assert GroupIs(groups, values, g + 1);
      RowOfGroup(groups, values, g + 1, 0);
    }
  }

  // ----- The cross-checks -----

  /** `int(v)` of a number that has one. */
  function WholeOf(v: Value): Option<int> {
    match v
    case Integer(i) => Some(i)
    case Number(r) => Some(Trunc(r))
    case _ => None
  }

  function CrossCheck(totalEpisodes: Value, lengths: map<int, int>, groups: seq<Group>): Option<ImportError> {
    var total := AsScalar(totalEpisodes);
    if groups == [] then Some(NoRows)
    else if lengths != map[] && |lengths| != |groups| then Some(EpisodeCountDiffers)
    else if IsNumber(total) && WholeOf(total) != Some(|groups|) then Some(TotalDiffers)
    else if exists g :: 0 <= g < |groups| && groups[g].index in lengths && lengths[groups[g].index] != |groups[g].rows|
    then Some(LengthDiffers)
    else None
  }

  /** The number of runs that end in the first `n` rows. */
  function RunEnds(values: seq<Value>, n: nat): nat
    requires n <= |values|
  {
    if n == 0 then 0 else RunEnds(values, n - 1) + if EndsRun(values, n - 1) then 1 else 0
  }

  lemma {:induction false} RunEndsInGroup(groups: seq<Group>, values: seq<Value>, g: nat, p: nat)
    requires AreRuns(groups, values, |values|) && g < |groups| && p <= |groups[g].rows|
    ensures GroupStart(groups, g) + p <= |values|
    ensures RunEnds(values, GroupStart(groups, g) + p) ==
      RunEnds(values, GroupStart(groups, g)) + if p == |groups[g].rows| then 1 else 0
  {
    hide AreRuns, GroupStart;
    assert |groups[g].rows| > 0 by { RowsNotEmpty(groups, values, g); }
    if p == 0 {
      RowOfGroup(groups, values, g, 0);
    } else {
      RunEndsInGroup(groups, values, g, p - 1);
      EndOfGroup(groups, values, g, p - 1);
    }
  }

  lemma RowsNotEmpty(groups: seq<Group>, values: seq<Value>, g: nat)
    requires AreRuns(groups, values, |values|) && g < |groups|
    ensures groups[g].rows != []
  {
    assert GroupIs(groups, values, g);
  }

  lemma {:induction false} GroupsCountRuns(groups: seq<Group>, values: seq<Value>, g: nat)
    requires AreRuns(groups, values, |values|) && g <= |groups|
    ensures GroupStart(groups, g) <= |values| && RunEnds(values, GroupStart(groups, g)) == g
  {
    if g > 0 {
      GroupsCountRuns(groups, values, g - 1);
      RunEndsInGroup(groups, values, g - 1, |groups[g - 1].rows|);
    }
  }

  /** Every row is in one group. */
  lemma {:induction false} GroupOfRow(groups: seq<Group>, values: seq<Value>, n: nat, k: nat) returns (g: nat, p: nat)
    requires AreRuns(groups, values, |values|) && n <= |groups| && k < GroupStart(groups, n)
    ensures g < |groups| && p < |groups[g].rows| && k == GroupStart(groups, g) + p
  {
    if k >= GroupStart(groups, n - 1) {
      g, p := n - 1, k - GroupStart(groups, n - 1);
    } else {
      g, p := GroupOfRow(groups, values, n - 1, k);
    }
  }

  /** A run that is recorded has as many rows as its record says. */
  predicate LengthsAgree(lengths: map<int, int>, values: seq<Value>)
    requires AllIntegers(values)
  {
    forall k :: 0 <= k < |values| && EndsRun(values, k) && values[k].i in lengths ==>
      lengths[values[k].i] == Position(values, k) + 1
  }

  lemma GroupLengthsAgree(lengths: map<int, int>, values: seq<Value>, groups: seq<Group>)
    requires AllIntegers(values) && AreRuns(groups, values, |values|)
    ensures LengthsAgree(lengths, values) <==>
      forall g :: 0 <= g < |groups| && groups[g].index in lengths ==> lengths[groups[g].index] == |groups[g].rows|
  {
    hide AreRuns, GroupStart, Position;
    forall k | 0 <= k < |values| && EndsRun(values, k)
      ensures exists g :: 0 <= g < |groups| && groups[g].index == values[k].i && |groups[g].rows| == Position(values, k) + 1
    {
      StartIsTotal(groups, values);
      var g, p := GroupOfRow(groups, values, |groups|, k);
      RowOfGroup(groups, values, g, p);
      PositionInGroup(groups, values, g, p);
      EndOfGroup(groups, values, g, p);
    }
    forall g | 0 <= g < |groups|
      ensures exists k ::
        0 <= k < |values| && EndsRun(values, k) && groups[g].index == values[k].i && |groups[g].rows| == Position(values, k) + 1
    {
      RowsNotEmpty(groups, values, g);
      var p := |groups[g].rows| - 1;
      RowOfGroup(groups, values, g, p);
      PositionInGroup(groups, values, g, p);
      EndOfGroup(groups, values, g, p);
    }
  }

  lemma StartIsTotal(groups: seq<Group>, values: seq<Value>)
    requires AreRuns(groups, values, |values|)
    ensures GroupStart(groups, |groups|) == |values|
  {
  }

  /**
   The cross-checks pass exactly if there are rows, every declared number of episodes is the number of
   runs of the episode index, and every recorded length is the length of its run.
   */
  lemma CrossChecksExactly(totalEpisodes: Value, lengths: map<int, int>, values: seq<Value>)
    requires AllIntegers(values)
    ensures CrossCheck(totalEpisodes, lengths, RunsOf(values, |values|)).None? <==>
      && values != []
      && (lengths != map[] ==> |lengths| == RunEnds(values, |values|))
      && (IsNumber(AsScalar(totalEpisodes)) ==> WholeOf(AsScalar(totalEpisodes)) == Some(RunEnds(values, |values|)))
      && LengthsAgree(lengths, values)
  {
    hide LengthsAgree, RunsOf;
    var groups := RunsOf(values, |values|);
    RunsOfAreRuns(values, |values|);
    StartIsTotal(groups, values);
    GroupsCountRuns(groups, values, |groups|);
    GroupLengthsAgree(lengths, values, groups);
  }

  // ----- The step-building loops -----

  method BuildSteps(table: Table, fps: int, values: seq<Value>, groups: seq<Group>) returns (r: Result<seq<Row>, ImportError>)
    requires |values| == |table.rows| && AreRuns(groups, values, |values|)
    ensures r == StepLines(table, fps, values, |values|)
  {
    hide StepLines, DecodeRow, StepLine, WidthAfter, AreRuns;
    var lines: seq<Row> := [];
    var width: Option<Width> := None;
    NoStepLines(table, fps, values, groups);
    for g := 0 to |groups|
      invariant GroupStart(groups, g) <= |values|
      invariant StepLines(table, fps, values, GroupStart(groups, g)) == Ok(lines)
      invariant width == WidthAfter(table, GroupStart(groups, g))
    {
      var rows := groups[g].rows;
      ghost var start := GroupStart(groups, g);
      for position := 0 to |rows|
        invariant start + position <= |values|
        invariant StepLines(table, fps, values, start + position) == Ok(lines)
        invariant width == WidthAfter(table, start + position)
      {
        RowOfGroup(groups, values, g, position);
        NextStepLine(table, fps, values, groups, g, position);
        var d := DecodeRow(table, table.rows[rows[position]], position, fps, width);
        if d.Err? {
          StepLinesStayFailed(table, fps, values, start + position + 1, |values|);
          return Err(d.error);
        }
        if width.None? {
          width := Some(Width(|d.value.observation|, |d.value.action|));
        }
        lines := lines + [StepLine(d.value, position == |rows| - 1)];
      }
    }
    return Ok(lines);
  }

  lemma NoStepLines(table: Table, fps: int, values: seq<Value>, groups: seq<Group>)
    requires |values| == |table.rows| && AreRuns(groups, values, |values|)
    ensures StepLines(table, fps, values, 0) == Ok([]) && WidthAfter(table, 0) == None
    ensures GroupStart(groups, |groups|) == |values|
  {
  }

  /** The nested loops visit the rows in order. */
  lemma NextStepLine(table: Table, fps: int, values: seq<Value>, groups: seq<Group>, g: nat, p: nat)
    requires |values| == |table.rows| && AreRuns(groups, values, |values|)
    requires g < |groups| && p < |groups[g].rows| && GroupStart(groups, g) + p < |values|
    requires StepLines(table, fps, values, GroupStart(groups, g) + p).Ok?
    ensures
      var k := GroupStart(groups, g) + p;
      var width := WidthAfter(table, k);
      var lines := StepLines(table, fps, values, k).value;
      match DecodeRow(table, table.rows[k], p, fps, width) {
        case Err(e) => StepLines(table, fps, values, k + 1) == Err(e)
        case Ok(d) =>
          && StepLines(table, fps, values, k + 1) == Ok(lines + [StepLine(d, p == |groups[g].rows| - 1)])
          && WidthAfter(table, k + 1) == if width.None? then Some(Width(|d.observation|, |d.action|)) else width
      }
  {
    hide DecodeRow, StepLine, WidthAfter;
    var k := GroupStart(groups, g) + p;
    PositionInGroup(groups, values, g, p);
    EndOfGroup(groups, values, g, p);
    if DecodeAt(table, fps, values, k).Ok? {
      WidthIsFixed(table, fps, values, k);
      WidthOnlyAtStart(table, k);
    }
  }

  lemma WidthOnlyAtStart(table: Table, k: nat)
    requires k <= |table.rows|
    ensures k == 0 ==> WidthAfter(table, k) == None
  {
  }

  lemma {:induction false} WidthIsFixed(table: Table, fps: int, values: seq<Value>, k: nat)
    requires k < |table.rows| == |values| && StepLines(table, fps, values, k).Ok? && DecodeAt(table, fps, values, k).Ok?
    ensures WidthAfter(table, k + 1) ==
      Some(Width(|DecodeAt(table, fps, values, k).value.observation|, |DecodeAt(table, fps, values, k).value.action|))
    ensures k > 0 ==> WidthAfter(table, k) == WidthAfter(table, k + 1)
  {
    if k > 0 { WidthIsFixed(table, fps, values, k - 1); }
  }

  // ----- The whole import -----

  /** A positive number, truncated. */
  function FpsOf(fps: Value): Option<int> {
    match AsScalar(fps)
    case Integer(i) => if i <= 0 then None else Some(i)
    case Number(r) => if r <= 0.0 then None else Some(Trunc(r))
    case _ => None
  }

  function EpisodeValues(table: Table): (values: seq<Value>)
    ensures |values| == |table.rows|
  {
    seq(|table.rows|, k requires 0 <= k < |table.rows| => AsScalar(CellAt(table.rows[k], EpisodeIndexColumn)))
  }

  /** What an accepted import has read, before the loops. */
  datatype Source = Source(fps: int, names: Names, lengths: map<int, int>, table: Table)

  function Opened(sort: seq<TableRow> -> seq<TableRow>, dir: Directory): Result<Source, ImportError> {
    if dir.version !in SUPPORTED_VERSIONS then Err(BadVersion)
    else if FpsOf(dir.fps).None? then Err(BadFps)
    else if ReadNames(dir.tasks).None? then Err(TasksUnreadable)
    else if dir.lengths.None? then Err(RecordsUnreadable)
    else
      match LoadDataTable(sort, dir.shards)
      case Err(e) => Err(TableFailed(e))
      case Ok(table) =>
        if ObservationColumn !in table.columns || ActionColumn !in table.columns then Err(NothingTrainable)
        else if EpisodeIndexColumn !in table.columns then Err(NoEpisodeIndex)
        else Ok(Source(FpsOf(dir.fps).value, ReadNames(dir.tasks).value, dir.lengths.value, table))
  }

  /** A trajectory file to be written: its rows, the header first, and the note that stands in the header. */
  datatype Written = Written(note: Points, rows: seq<Row>)

  function Imported(sort: seq<TableRow> -> seq<TableRow>, dir: Directory): Result<Written, ImportError> {
    match Opened(sort, dir)
    case Err(e) => Err(e)
    case Ok(source) =>
      var values := EpisodeValues(source.table);
      if !AllIntegers(values) then Err(EpisodeIndexNotInteger)
      else
        match CrossCheck(dir.totalEpisodes, source.lengths, RunsOf(values, |values|))
        case Some(e) => Err(e)
        case None =>
          match StepLines(source.table, source.fps, values, |values|)
          case Err(e) => Err(e)
          case Ok(lines) =>
            var note := Note(dir.version, source.names);
            if Free(Quoted(note), LoneSurrogate) then Ok(Written(note, [HeaderLine(source.fps)] + lines))
            else Err(NoteNotEncodable)
  }

  method Open(sort: seq<TableRow> -> seq<TableRow>, dir: Directory) returns (r: Result<Source, ImportError>)
    ensures r == Opened(sort, dir)
  {
    hide LoadDataTable, FpsOf, ReadNames;
    if dir.version !in SUPPORTED_VERSIONS { return Err(BadVersion); }
    var fps := FpsOf(dir.fps);
    if fps.None? { return Err(BadFps); }
    var names := ReadTasks(dir.tasks);
    if names.None? { return Err(TasksUnreadable); }
    if dir.lengths.None? { return Err(RecordsUnreadable); }
    var table := LoadDataTable(sort, dir.shards);
    if table.Err? { return Err(TableFailed(table.error)); }
    var columns := table.value.columns;
    if ObservationColumn !in columns || ActionColumn !in columns { return Err(NothingTrainable); }
    if EpisodeIndexColumn !in columns { return Err(NoEpisodeIndex); }
    return Ok(Source(fps.value, names.value, dir.lengths.value, table.value));
  }

  /** Tabular import; the result is what is written, if it can be. */
  method RunImport(sort: seq<TableRow> -> seq<TableRow>, dir: Directory) returns (r: Result<Written, ImportError>)
    ensures r == Imported(sort, dir)
  {
    hide Opened, Note, CrossCheck;
    var source := Open(sort, dir);
    if source.Err? { return Err(source.error); }
    var fps, table := source.value.fps, source.value.table;
    var values := EpisodeValues(table);
    var grouped := GroupRows(values);
    if grouped.Err? { return Err(grouped.error); }
    var failed := CrossCheck(dir.totalEpisodes, source.value.lengths, grouped.value);
    if failed.Some? { return Err(failed.value); }
    RunsOfAreRuns(values, |values|);
    var lines := BuildSteps(table, fps, values, grouped.value);
    if lines.Err? { return Err(lines.error); }
    var note := Note(dir.version, source.value.names);
    if !Free(Quoted(note), LoneSurrogate) { return Err(NoteNotEncodable); }
    return Ok(Written(note, [HeaderLine(fps)] + lines.value));
  }

  lemma {:induction false} StepLinesExactly(table: Table, fps: int, values: seq<Value>, n: nat)
    requires n <= |table.rows| == |values|
    ensures StepLines(table, fps, values, n).Ok? <==> forall k :: 0 <= k < n ==> DecodeAt(table, fps, values, k).Ok?
  {
    hide DecodeAt;
    if n > 0 { StepLinesExactly(table, fps, values, n - 1); }
  }

  /** What an import accepts: what opens, whose episode indices cross-check, whose rows decode, and whose note can be written. */
  lemma ImportsExactly(sort: seq<TableRow> -> seq<TableRow>, dir: Directory)
    ensures Imported(sort, dir).Ok? <==>
      && Opened(sort, dir).Ok?
      && var source := Opened(sort, dir).value;
      var values := EpisodeValues(source.table);
      var total := AsScalar(dir.totalEpisodes);
      && AllIntegers(values) && values != []
      && (source.lengths != map[] ==> |source.lengths| == RunEnds(values, |values|))
      && (IsNumber(total) ==> WholeOf(total) == Some(RunEnds(values, |values|)))
      && LengthsAgree(source.lengths, values)
      && (forall k :: 0 <= k < |values| ==> DecodeAt(source.table, source.fps, values, k).Ok?)
      && Free(Quoted(Note(dir.version, source.names)), LoneSurrogate)
  {
    hide Opened, CrossCheck, DecodeAt, LengthsAgree, Note, Quoted, RunsOf, StepLines, RunEnds, AllIntegers;
    if Opened(sort, dir).Ok? {
      var source := Opened(sort, dir).value;
      var values := EpisodeValues(source.table);
      if AllIntegers(values) {
        CrossChecksExactly(dir.totalEpisodes, source.lengths, values);
        StepLinesExactly(source.table, source.fps, values, |values|);
      }
    }
  }
}
