/**
 Export: episodes become one table each, with global row numbers, and any reading order of the
 tables gives the same sorted rows. A parquet table is a sequence of rows.
 */
module LeRobotTables {
  import opened Outcomes
  import opened LeRobotTasks
  import opened TrajectoryLaws
  import opened TrajectoryRows

  datatype Column =
    | ObservationColumn | ActionColumn | RewardColumn | TimestampColumn | FrameIndexColumn | EpisodeIndexColumn
    | IndexColumn | TaskIndexColumn | OtherColumn(name: string)

  type TableRow = map<Column, Value>

  /** Every row has a cell in every column; a missing cell is `Null`. */
  datatype Table = Table(columns: set<Column>, rows: seq<TableRow>)

  /** The rounding to float32; `None` is an overflow to infinity. */
  type Rounding = real -> Option<real>

  function Cell(round: Rounding, x: real): Value {
    match round(x)
    case None => NonFinite
    case Some(r) => Number(r)
  }

  function Cells(round: Rounding, xs: seq<real>): Value {
    List(seq(|xs|, i requires 0 <= i < |xs| => Cell(round, xs[i])))
  }

  // ----- The frame rate -----

  const DEFAULT_FPS: int := 50

  datatype FpsError = FpsNotPositive | ConflictingRates | FractionalRate

  /** The requested rate wins, then the one declared rate, then the default; it is at least 1. */
  function ResolveFps(requested: Option<int>, sampleHz: seq<real>): (r: Result<int, FpsError>)
    requires forall k :: 0 <= k < |sampleHz| ==> sampleHz[k] > 0.0
    ensures r.Ok? ==> r.value >= 1 && (requested.Some? ==> r.value == requested.value)
    ensures requested.Some? ==> (r.Ok? <==> requested.value > 0)
    ensures requested.None? && sampleHz == [] ==> r == Ok(DEFAULT_FPS)
    ensures requested.None? && sampleHz != [] ==>
      (r.Ok? <==> |sampleHz| == 1 && sampleHz[0].Floor as real == sampleHz[0]) && (r.Ok? ==> sampleHz == [r.value as real])
  {
    match requested
    case Some(fps) => if fps <= 0 then Err(FpsNotPositive) else Ok(fps)
    case None =>
      if sampleHz == [] then Ok(DEFAULT_FPS)
      else if |sampleHz| > 1 then Err(ConflictingRates)
      else if sampleHz[0].Floor as real != sampleHz[0] then Err(FractionalRate)
      else Ok(sampleHz[0].Floor)
  }

  // ----- One episode -----

  /** `frame_index / fps` */
  function Seconds(frame: nat, fps: int): real
    requires fps != 0
  {
    frame as real / fps as real
  }

  function StepRow(round: Rounding, step: Step, episode: nat, frame: nat, index: nat, fps: int, hasReward: bool): TableRow
    requires fps != 0
  {
    var row := map[
      ObservationColumn := Cells(round, step.observation),
      ActionColumn := Cells(round, step.action),
      TimestampColumn := Cell(round, Seconds(frame, fps)),
      FrameIndexColumn := Integer(frame),
      EpisodeIndexColumn := Integer(episode),
      IndexColumn := Integer(index),
      TaskIndexColumn := Integer(0)];
    if hasReward then row[RewardColumn := if step.reward.None? then Null else Cell(round, step.reward.value)] else row
  }

  function ColumnsOf(hasReward: bool): set<Column> {
    var always := {ObservationColumn, ActionColumn, TimestampColumn, FrameIndexColumn, EpisodeIndexColumn, IndexColumn,
                   TaskIndexColumn};
    if hasReward then always + {RewardColumn} else always
  }

  function EpisodeTable(round: Rounding, episode: seq<Step>, index: nat, frameOffset: nat, fps: int, hasReward: bool): Table
    requires fps != 0
  {
    Table(ColumnsOf(hasReward), seq(|episode|, p requires 0 <= p < |episode| =>
      StepRow(round, episode[p], index, p, frameOffset + p, fps, hasReward)))
  }

  // ----- The whole dataset -----

  /** What an import reads of meta/info.json, the task file, the episode lengths if they can be read, and the shards. */
  datatype Directory = Directory(version: string, fps: Value, totalEpisodes: Value, tasks: TaskFile,
                                 lengths: Option<map<int, int>>, shards: seq<Table>)

  function ShardOf(round: Rounding, ds: Loaded, fps: int, e: nat): Table
    requires fps != 0 && e < |ds.episodes|
  {
    EpisodeTable(round, ds.episodes[e], e, Offset(ds.episodes, e), fps, ds.hasReward)
  }

  function ShardsOf(round: Rounding, ds: Loaded, fps: int): (shards: seq<Table>)
    requires fps != 0
    ensures |shards| == |ds.episodes|
  {
    seq(|ds.episodes|, e requires 0 <= e < |ds.episodes| => ShardOf(round, ds, fps, e))
  }

  /** One line for each of the first `n` episodes, with its index and length. */
  function LengthsOf(episodes: seq<seq<Step>>, n: nat): map<int, int>
    requires n <= |episodes|
  {
    if n == 0 then map[] else LengthsOf(episodes, n - 1)[n - 1 := |episodes[n - 1]|]
  }

  /** A record that holds the task name; a break in the name cuts it in the middle of a string. */
  predicate TaskKeepsLine(task: Points) {
    Free(Quoted(task), BreaksLine)
  }

  function TasksOf(task: Points): TaskFile {
    JsonLines([if TaskKeepsLine(task) then Keyed(Some(0), task) else Unreadable])
  }

  function Exported(round: Rounding, ds: Loaded, task: Points, fps: int): Directory
    requires fps != 0
  {
    Directory("v3.0", Integer(fps), Integer(|ds.episodes|), TasksOf(task),
              if ds.episodes == [] || TaskKeepsLine(task) then Some(LengthsOf(ds.episodes, |ds.episodes|)) else None,
              ShardsOf(round, ds, fps))
  }

  /** `None` is the encoding error of a task name that UTF-8 cannot hold. */
  method WriteDataset(round: Rounding, ds: Loaded, task: Points, fps: int) returns (dir: Option<Directory>)
    requires fps != 0
    ensures dir == if Free(Quoted(task), LoneSurrogate) then Some(Exported(round, ds, task, fps)) else None
  {
    var frameOffset := 0;
    var shards := [];
    for e := 0 to |ds.episodes|
      invariant frameOffset == Offset(ds.episodes, e)
      invariant shards == ShardsOf(round, ds, fps)[..e]
    {
      shards := shards + [EpisodeTable(round, ds.episodes[e], e, frameOffset, fps, ds.hasReward)];
      frameOffset := frameOffset + |ds.episodes[e]|;
    }
    assert shards == ShardsOf(round, ds, fps);
    if !Free(Quoted(task), LoneSurrogate) { return None; }
    var lengths := if ds.episodes == [] || TaskKeepsLine(task) then Some(LengthsOf(ds.episodes, |ds.episodes|)) else None;
    dir := Some(Directory("v3.0", Integer(fps), Integer(|ds.episodes|), TasksOf(task), lengths, shards));
  }

  datatype ExportError = LoadFailed(load: LoadError) | RateRefused(fps: FpsError) | TaskNotEncodable

  /** Everything is parsed and the rate settled before anything is written. */
  method RunExport(round: Rounding, files: seq<seq<Line>>, requested: Option<int>, task: Points)
    returns (r: Result<Directory, ExportError>)
    ensures match LoadDataset(files) {
      case Err(e) => r == Err(LoadFailed(e))
      case Ok(ds) =>
        match ResolveFps(requested, ds.sampleHz) {
          case Err(e) => r == Err(RateRefused(e))
          case Ok(fps) => r == if Free(task, LoneSurrogate) then Ok(Exported(round, ds, task, fps)) else Err(TaskNotEncodable)
        }
    }
  {
    hide Exported;
    var loaded := LoadTrajectoryDataset(files);
    if loaded.Err? { return Err(LoadFailed(loaded.error)); }
    assert Ok(loaded.value) == LoadDataset(files);
    var fps := ResolveFps(requested, loaded.value.sampleHz);
    if fps.Err? { return Err(RateRefused(fps.error)); }
    QuotedFree(task, LoneSurrogate);
    var dir := WriteDataset(round, loaded.value, task, fps.value);
    if dir.None? { return Err(TaskNotEncodable); }
    return Ok(dir.value);
  }

  // ----- The global index -----

  /** The rows of the first `n` shards, one after the other. */
  function Concat(shards: seq<Table>, n: nat): seq<TableRow>
    requires n <= |shards|
  {
    if n == 0 then [] else Concat(shards, n - 1) + shards[n - 1].rows
  }

  /** Row `Offset(e) + p` is step `p` of episode `e`, and its index column is that number. */
  lemma {:induction false} RowOfStep(round: Rounding, ds: Loaded, fps: int, n: nat, e: nat, p: nat)
    requires fps != 0 && e < n <= |ds.episodes| && p < |ds.episodes[e]|
    ensures |Concat(ShardsOf(round, ds, fps), n)| == Offset(ds.episodes, n)
    ensures Offset(ds.episodes, e) + p < Offset(ds.episodes, n)
    ensures Concat(ShardsOf(round, ds, fps), n)[Offset(ds.episodes, e) + p]
            == StepRow(round, ds.episodes[e][p], e, p, Offset(ds.episodes, e) + p, fps, ds.hasReward)
  {
    hide StepRow, Offset, ShardsOf;
    ConcatStep(round, ds, fps, n);
    if e < n - 1 { RowOfStep(round, ds, fps, n - 1, e, p); }
  }

  lemma ConcatStep(round: Rounding, ds: Loaded, fps: int, n: nat)
    requires fps != 0 && 0 < n <= |ds.episodes|
    ensures
      var shards := ShardsOf(round, ds, fps);
      && Concat(shards, n) == Concat(shards, n - 1) + ShardOf(round, ds, fps, n - 1).rows
      && |Concat(shards, n - 1)| == Offset(ds.episodes, n - 1) && |Concat(shards, n)| == Offset(ds.episodes, n)
      && Offset(ds.episodes, n) == Offset(ds.episodes, n - 1) + |ds.episodes[n - 1]|
  {
    hide StepRow;
    IndexCountsFrames(round, ds, fps, n - 1);
  }

  predicate Indexed(rows: seq<TableRow>) {
    forall k :: 0 <= k < |rows| ==> IndexColumn in rows[k] && rows[k][IndexColumn].Integer?
  }

  predicate IndexIsPosition(rows: seq<TableRow>) {
    forall k :: 0 <= k < |rows| ==> IndexColumn in rows[k] && rows[k][IndexColumn] == Integer(k)
  }

  /** The index column is a bijection onto 0 .. total frames - 1. */
  lemma IndexCountsFrames(round: Rounding, ds: Loaded, fps: int, n: nat)
    requires fps != 0 && n <= |ds.episodes|
    ensures |Concat(ShardsOf(round, ds, fps), n)| == Offset(ds.episodes, n)
    ensures IndexIsPosition(Concat(ShardsOf(round, ds, fps), n))
  {
    hide IndexIsPosition, ShardOf, CountsFrom, Concat, Offset;
    forall e | 0 <= e < n { ShardCounts(round, ds, fps, e); }
    CountsJoin(ShardsOf(round, ds, fps), ds.episodes, n);
  }

  lemma {:induction false} CountsJoin(shards: seq<Table>, episodes: seq<seq<Step>>, n: nat)
    requires n <= |shards| == |episodes|
    requires forall e :: 0 <= e < n ==> |shards[e].rows| == |episodes[e]| && CountsFrom(shards[e].rows, Offset(episodes, e))
    ensures |Concat(shards, n)| == Offset(episodes, n) && IndexIsPosition(Concat(shards, n))
  {
    hide IndexIsPosition, CountsFrom, Concat, Offset;
    if n == 0 {
      NoPositions(shards, episodes);
    } else {
      CountsJoin(shards, episodes, n - 1);
      NextPositions(shards, episodes, n);
      PositionsJoin(Concat(shards, n - 1), shards[n - 1].rows);
    }
  }

  lemma NoPositions(shards: seq<Table>, episodes: seq<seq<Step>>)
    ensures Concat(shards, 0) == [] && Offset(episodes, 0) == 0 && IndexIsPosition([])
  {
  }

  lemma NextPositions(shards: seq<Table>, episodes: seq<seq<Step>>, n: nat)
    requires 0 < n <= |shards| == |episodes|
    ensures Concat(shards, n) == Concat(shards, n - 1) + shards[n - 1].rows
    ensures Offset(episodes, n) == Offset(episodes, n - 1) + |episodes[n - 1]|
  {
  }

  predicate CountsFrom(rows: seq<TableRow>, start: nat) {
    forall p :: 0 <= p < |rows| ==> IndexColumn in rows[p] && rows[p][IndexColumn] == Integer(start + p)
  }

  lemma ShardCounts(round: Rounding, ds: Loaded, fps: int, e: nat)
    requires fps != 0 && e < |ds.episodes|
    ensures |ShardOf(round, ds, fps, e).rows| == |ds.episodes[e]|
    ensures CountsFrom(ShardOf(round, ds, fps, e).rows, Offset(ds.episodes, e))
  {
    hide Cells, Cell, Offset;
  }

  lemma PositionsJoin(a: seq<TableRow>, b: seq<TableRow>)
    requires IndexIsPosition(a) && CountsFrom(b, |a|)
    ensures IndexIsPosition(a + b)
  {
  }

  // ----- Reading the shards back -----

  predicate AscendingByIndex(rows: seq<TableRow>)
    requires Indexed(rows)
  {
    forall j, k :: 0 <= j < k < |rows| ==> rows[j][IndexColumn].i <= rows[k][IndexColumn].i
  }

  /** Sorting by the index column; where an index is not an integer the order is not known. */
  ghost predicate IsSort(sort: seq<TableRow> -> seq<TableRow>) {
    forall rows :: multiset(sort(rows)) == multiset(rows) && (Indexed(rows) ==> Sorted(sort(rows)))
  }

  predicate Sorted(rows: seq<TableRow>) {
    Indexed(rows) && AscendingByIndex(rows)
  }

  lemma WithoutLast<T>(s: seq<T>, n: nat)
    requires |s| == n + 1
    ensures multiset(s[..n]) == multiset(s) - multiset{s[n]}
  {
    assert s == s[..n] + [s[n]];
  }

  lemma {:induction false} SortedIsUnique(rows: seq<TableRow>, sorted: seq<TableRow>)
    requires IndexIsPosition(rows) && multiset(sorted) == multiset(rows)
    requires Indexed(sorted) && AscendingByIndex(sorted)
    ensures sorted == rows
  {
    hide IndexIsPosition, AscendingByIndex, Indexed;
    SameLength(rows, sorted);
    if rows != [] {
      var n := |rows| - 1;
      LastIsLargest(rows, sorted, n);
      PrefixPermutes(rows, sorted, n);
      PrefixKeeps(rows, sorted, n);
      SortedIsUnique(rows[..n], sorted[..n]);
      assert rows == rows[..n] + [rows[n]] && sorted == sorted[..n] + [sorted[n]];
    }
  }

  lemma SameLength<T>(a: seq<T>, b: seq<T>)
    requires multiset(a) == multiset(b)
    ensures |a| == |b|
  {
    assert |multiset(a)| == |a| && |multiset(b)| == |b|;
  }

  lemma PrefixPermutes<T>(a: seq<T>, b: seq<T>, n: nat)
    requires multiset(a) == multiset(b) && |a| == |b| == n + 1 && a[n] == b[n]
    ensures multiset(a[..n]) == multiset(b[..n])
  {
    WithoutLast(a, n);
    WithoutLast(b, n);
  }

  lemma PrefixKeeps(rows: seq<TableRow>, sorted: seq<TableRow>, n: nat)
    requires n <= |rows| && n <= |sorted| && IndexIsPosition(rows) && Indexed(sorted) && AscendingByIndex(sorted)
    ensures IndexIsPosition(rows[..n]) && Indexed(sorted[..n]) && AscendingByIndex(sorted[..n])
  {
  }

  lemma LastIsLargest(rows: seq<TableRow>, sorted: seq<TableRow>, n: nat)
    requires IndexIsPosition(rows) && multiset(sorted) == multiset(rows)
    requires Indexed(sorted) && AscendingByIndex(sorted) && |rows| == |sorted| == n + 1
    ensures sorted[n] == rows[n]
  {
    assert sorted[n] in multiset(rows);
    var j :| 0 <= j < |rows| && rows[j] == sorted[n];
    assert rows[n] in multiset(sorted);
    var i :| 0 <= i < |sorted| && sorted[i] == rows[n];
    assert rows[j][IndexColumn] == Integer(j) && rows[n][IndexColumn] == Integer(n);
    if i < n { assert sorted[i][IndexColumn].i <= sorted[n][IndexColumn].i; }
  }

  lemma {:induction false} ConcatWithout(shards: seq<Table>, j: nat, n: nat)
    requires j < n <= |shards|
    ensures
      var without := shards[..j] + shards[j + 1..];
      multiset(Concat(shards, n)) == multiset(Concat(without, n - 1)) + multiset(shards[j].rows)
    decreases n
  {
    hide Concat;
    var without := shards[..j] + shards[j + 1..];
    ConcatGrows(shards, n);
    if n == j + 1 {
      ConcatOfPrefix(shards, without, j);
    } else {
      ConcatWithout(shards, j, n - 1);
      ConcatGrows(without, n - 1);
      assert without[n - 2] == shards[n - 1];
    }
  }

  lemma ConcatGrows(shards: seq<Table>, n: nat)
    requires 0 < n <= |shards|
    ensures multiset(Concat(shards, n)) == multiset(Concat(shards, n - 1)) + multiset(shards[n - 1].rows)
  {
  }

  lemma {:induction false} ConcatOfPrefix(a: seq<Table>, b: seq<Table>, n: nat)
    requires n <= |a| && n <= |b| && a[..n] == b[..n]
    ensures Concat(a, n) == Concat(b, n)
  {
    if n > 0 {
      assert a[..n - 1] == a[..n][..n - 1] && b[..n - 1] == b[..n][..n - 1];
      ConcatOfPrefix(a, b, n - 1);
      assert a[n - 1] == a[..n][n - 1] && b[n - 1] == b[..n][n - 1];
    }
  }

  lemma WithoutOne<T>(s: seq<T>, j: nat)
    requires j < |s|
    ensures multiset(s[..j] + s[j + 1..]) == multiset(s) - multiset{s[j]}
  {
    assert s == s[..j] + [s[j]] + s[j + 1..];
  }

  lemma ConcatLast(order: seq<Table>, n: nat)
    requires |order| == n + 1
    ensures multiset(Concat(order, n + 1)) == multiset(Concat(order[..n], n)) + multiset(order[n].rows)
  {
    ConcatOfPrefix(order, order[..n], n);
  }

  /** Reading the shards in another order reorders the rows and nothing else. */
  lemma {:induction false} ConcatPermutes(shards: seq<Table>, order: seq<Table>)
    requires multiset(order) == multiset(shards)
    ensures multiset(Concat(order, |order|)) == multiset(Concat(shards, |shards|))
    decreases |order|
  {
    hide Concat;
    assert |multiset(order)| == |order| && |multiset(shards)| == |shards|;
    if order == [] {
      assert shards == [];
    } else {
      var n := |order| - 1;
      assert order[n] in multiset(order);
      var j :| 0 <= j < |shards| && shards[j] == order[n];
      ConcatWithout(shards, j, |shards|);
      WithoutLast(order, n);
      WithoutOne(shards, j);
      ConcatPermutes(shards[..j] + shards[j + 1..], order[..n]);
      ConcatLast(order, n);
    }
  }

  datatype TableError = NoShards | SchemasDiffer

  /** `_load_data_table` on the shards in the order they are read. */
  function LoadDataTable(sort: seq<TableRow> -> seq<TableRow>, order: seq<Table>): Result<Table, TableError> {
    if order == [] then Err(NoShards)
    else if exists k :: 0 <= k < |order| && order[k].columns != order[0].columns then Err(SchemasDiffer)
    else
      var rows := Concat(order, |order|);
      Ok(Table(order[0].columns, if IndexColumn in order[0].columns then sort(rows) else rows))
  }

  lemma IndexedPermutes(a: seq<TableRow>, b: seq<TableRow>)
    requires multiset(a) == multiset(b) && Indexed(a)
    ensures Indexed(b)
  {
    forall k | 0 <= k < |b| ensures IndexColumn in b[k] && b[k][IndexColumn].Integer? {
      assert b[k] in multiset(a);
    }
  }

  /** Any sort puts rows back that were indexed by their positions. */
  lemma SortRestores(sort: seq<TableRow> -> seq<TableRow>, flat: seq<TableRow>, rows: seq<TableRow>)
    requires IsSort(sort) && IndexIsPosition(flat) && multiset(rows) == multiset(flat)
    ensures sort(rows) == flat
  {
    assert Indexed(flat);
    hide AscendingByIndex, Indexed;
    IndexedPermutes(flat, rows);
    assert multiset(sort(rows)) == multiset(rows) && Sorted(sort(rows));
    SortedIsUnique(flat, sort(rows));
  }

  /** Whatever order the shards of an export are read in, the table is the episodes in order. */
  lemma ShardOrderIsIrrelevant(round: Rounding, ds: Loaded, fps: int, sort: seq<TableRow> -> seq<TableRow>, order: seq<Table>)
    requires fps != 0 && ds.episodes != [] && IsSort(sort)
    requires multiset(order) == multiset(ShardsOf(round, ds, fps))
    ensures LoadDataTable(sort, order) == Ok(Table(ColumnsOf(ds.hasReward), Concat(ShardsOf(round, ds, fps), |ds.episodes|)))
  {
    var shards := ShardsOf(round, ds, fps);
    assert |multiset(order)| == |order| && |multiset(shards)| == |shards|;
    forall k | 0 <= k < |order| ensures order[k].columns == ColumnsOf(ds.hasReward) {
      assert order[k] in multiset(shards);
    }
    hide Concat, IsSort, IndexIsPosition, ShardsOf;
    ConcatPermutes(shards, order);
    IndexCountsFrames(round, ds, fps, |ds.episodes|);
    SortRestores(sort, Concat(shards, |shards|), Concat(order, |order|));
  }
}
