/**
 Trajectory files: three row shapes are parsed into episodes of validated steps. Rows are parsed
 JSON values; camera frames are not part of the model.
 */
module TrajectoryRows {
  import opened Outcomes

  /** The keys the loader looks up. */
  datatype Field =
    | TypeField | SamplesField | SampleHzField | ObservationField | StateField | ActionField | DoneField
    | TField | TimeField | TimestampField | RewardField | OtherField(name: string)

  /** A JSON value; `NonFinite` is a NaN or an infinity, which Python's reader accepts. */
  datatype Value =
    | Null | Flag(on: bool) | Integer(i: int) | Number(r: real) | NonFinite | Text(s: string)
    | List(items: seq<Value>) | Object(fields: Row)

  type Row = map<Field, Value>

  datatype Line = Blank | Broken | Parsed(value: Value)

  datatype Step = Step(observation: seq<real>, action: seq<real>, t: Option<real>, reward: Option<real>)

  datatype LoadError =
    | InvalidJson | RowNotObject | SamplesNotList | SampleNotObject | UnknownRowType | BadSampleHz
    | NotLists | EmptyVector | NotNumeric | NotFinite | DoneNotBoolean | InconsistentDimensions
    | BadTime | BadReward | MixedReward | EmptyDataset

  function Get(row: Row, key: Field): Value {
    if key in row then row[key] else Null
  }

  /** 2^256 */
  const BLOCK: int := 0x1_0000_0000_0000_0000_0000_0000_0000_0000_0000_0000_0000_0000_0000_0000_0000_0000

  /** 2^1024 - 2^970, from which on an integer rounds to no double. */
  function DoubleLimit(): int {
    BLOCK * BLOCK * BLOCK * (BLOCK - BLOCK / 0x40_0000_0000_0000)
  }

  predicate FitsDouble(i: int) {
    -DoubleLimit() < i < DoubleLimit()
  }

  lemma SmallFits(i: int)
    requires -1000 <= i <= 1000
    ensures FitsDouble(i)
  {
  }

  /** The finite real a JSON number denotes; `math.isfinite` raises on an integer that fits no double. */
  function Finite(v: Value): Option<real> {
    match v
    case Integer(i) => if FitsDouble(i) then Some(i as real) else None
    case Number(r) => Some(r)
    case _ => None
  }

  predicate IsNumber(v: Value) {
    v.Integer? || v.Number? || v.NonFinite?
  }

  function Reals(items: seq<Value>): (r: Option<seq<real>>)
    ensures r.Some? <==> forall k :: 0 <= k < |items| ==> Finite(items[k]).Some?
    ensures r.Some? ==> |r.value| == |items| && forall k :: 0 <= k < |items| ==> Finite(items[k]) == Some(r.value[k])
  {
    if forall k :: 0 <= k < |items| ==> Finite(items[k]).Some? then
      Some(seq(|items|, k requires 0 <= k < |items| => Finite(items[k]).value))
    else None
  }

  // ----- One step row -----

  datatype Vectors = Vectors(observation: seq<real>, action: seq<real>)

  function VectorError(items: seq<Value>): LoadError {
    if exists k :: 0 <= k < |items| && !IsNumber(items[k]) then NotNumeric else NotFinite
  }

  /** 'observation' may appear as 'state'. */
  function VectorsOf(row: Row): Result<Vectors, LoadError> {
    var obs := if ObservationField in row then row[ObservationField] else Get(row, StateField);
    var act := Get(row, ActionField);
    if !obs.List? || !act.List? then Err(NotLists)
    else if obs.items == [] || act.items == [] then Err(EmptyVector)
    else if Reals(obs.items).None? then Err(VectorError(obs.items))
    else if Reals(act.items).None? then Err(VectorError(act.items))
    else Ok(Vectors(Reals(obs.items).value, Reals(act.items).value))
  }

  function DoneOf(row: Row): Result<bool, LoadError> {
    if DoneField !in row then Ok(false)
    else if row[DoneField].Flag? then Ok(row[DoneField].on)
    else Err(DoneNotBoolean)
  }

  /** The first of the three time keys that is present. */
  function TimeOf(row: Row): Result<Option<real>, LoadError> {
    var key := if TField in row then TField else if TimeField in row then TimeField else TimestampField;
    if key !in row then Ok(None)
    else if Finite(row[key]).None? then Err(BadTime)
    else Ok(Finite(row[key]))
  }

  function RewardOf(row: Row): Result<Option<real>, LoadError> {
    if RewardField !in row then Ok(None)
    else if Finite(row[RewardField]).None? then Err(BadReward)
    else Ok(Finite(row[RewardField]))
  }

  // ----- The state of a load -----

  datatype Loaded = Loaded(episodes: seq<seq<Step>>, obsDim: Option<nat>, actDim: Option<nat>, hasReward: bool,
                           sampleHz: seq<real>, totalSteps: nat, current: seq<Step>)

  const EMPTY: Loaded := Loaded([], None, None, false, [], 0, [])

  /** The set of declared rates, as a sequence without repetitions. */
  function Declared(rates: seq<real>, hz: real): seq<real> {
    if hz in rates then rates else rates + [hz]
  }

  function Append(st: Loaded, step: Step, done: bool): Result<Loaded, LoadError> {
    var presence := if st.totalSteps == 0 then step.reward.Some? else st.hasReward;
    if step.reward.Some? != presence then Err(MixedReward)
    else
      var steps := st.current + [step];
      var counted := st.(hasReward := presence, totalSteps := st.totalSteps + 1);
      Ok(if done then counted.(episodes := st.episodes + [steps], current := []) else counted.(current := steps))
  }

  function CloseEpisode(st: Loaded): Loaded {
    if st.current == [] then st else st.(episodes := st.episodes + [st.current], current := [])
  }

  function TakeStep(st: Loaded, row: Row): Result<Loaded, LoadError> {
    match VectorsOf(row)
    case Err(e) => Err(e)
    case Ok(v) =>
      match DoneOf(row)
      case Err(e) => Err(e)
      case Ok(done) =>
        var fixed := if st.obsDim.None? then st.(obsDim := Some(|v.observation|), actDim := Some(|v.action|)) else st;
        if Some(|v.observation|) != fixed.obsDim || Some(|v.action|) != fixed.actDim then Err(InconsistentDimensions)
        else
          match TimeOf(row)
          case Err(e) => Err(e)
          case Ok(t) =>
            match RewardOf(row)
            case Err(e) => Err(e)
            case Ok(reward) => Append(fixed, Step(v.observation, v.action, t, reward), done)
  }

  /** Header, event, step, or refusal. */
  function TakeRecord(st: Loaded, row: Row): Result<Loaded, LoadError> {
    var kind := Get(row, TypeField);
    if kind == Text("event") then Ok(st)
    else if kind == Text("header") then
      var hz := Get(row, SampleHzField);
      if hz == Null then Ok(st)
      else
        match Finite(hz)
        case None => Err(BadSampleHz)
        case Some(value) => if value <= 0.0 then Err(BadSampleHz) else Ok(st.(sampleHz := Declared(st.sampleHz, value)))
    else if kind != Null && kind != Text("step") then Err(UnknownRowType)
    else TakeStep(st, row)
  }

  /** The first `n` samples of a telemetry envelope. */
  function TakeSamples(st: Loaded, samples: seq<Value>, n: nat): Result<Loaded, LoadError>
    requires n <= |samples|
  {
    if n == 0 then Ok(st)
    else
      match TakeSamples(st, samples, n - 1)
      case Err(e) => Err(e)
      case Ok(before) => if samples[n - 1].Object? then TakeRecord(before, samples[n - 1].fields) else Err(SampleNotObject)
  }

  function TakeLine(st: Loaded, line: Line): Result<Loaded, LoadError> {
    match line
    case Blank => Ok(st)
    case Broken => Err(InvalidJson)
    case Parsed(value) =>
      if !value.Object? then Err(RowNotObject)
      else if SamplesField in value.fields then
        var samples := value.fields[SamplesField];
        if samples.List? then TakeSamples(st, samples.items, |samples.items|) else Err(SamplesNotList)
      else TakeRecord(st, value.fields)
  }

  function TakeLines(st: Loaded, lines: seq<Line>, n: nat): Result<Loaded, LoadError>
    requires n <= |lines|
  {
    if n == 0 then Ok(st)
    else
      match TakeLines(st, lines, n - 1)
      case Err(e) => Err(e)
      case Ok(before) => TakeLine(before, lines[n - 1])
  }

  /** A file closes its open episode at its end. */
  function TakeFiles(st: Loaded, files: seq<seq<Line>>, n: nat): Result<Loaded, LoadError>
    requires n <= |files|
  {
    if n == 0 then Ok(st)
    else
      match TakeFiles(st, files, n - 1)
      case Err(e) => Err(e)
      case Ok(before) =>
        match TakeLines(before, files[n - 1], |files[n - 1]|)
        case Err(e) => Err(e)
        case Ok(after) => Ok(CloseEpisode(after))
  }

  function Load(files: seq<seq<Line>>): Result<Loaded, LoadError> {
    match TakeFiles(EMPTY, files, |files|)
    case Err(e) => Err(e)
    case Ok(st) => if st.episodes == [] then Err(EmptyDataset) else Ok(st)
  }

  // ----- The dataset object -----

  class TrajectoryDataset {
    var episodes: seq<seq<Step>>
    var obsDim: Option<nat>
    var actDim: Option<nat>
    var hasReward: bool
    var sampleHz: seq<real>
    var totalSteps: nat
    var current: seq<Step>

    ghost function State(): Loaded
      reads this
    {
      Loaded(episodes, obsDim, actDim, hasReward, sampleHz, totalSteps, current)
    }

    constructor ()
      ensures State() == EMPTY
    {
      episodes, obsDim, actDim, hasReward, sampleHz, totalSteps, current := [], None, None, false, [], 0, [];
    }

    /** An error leaves the dataset unusable: the exception ends the load. */
    method AppendStep(step: Step, done: bool) returns (failed: Option<LoadError>)
      modifies this
      ensures match Append(old(State()), step, done) {
        case Ok(st) => failed == None && State() == st
        case Err(e) => failed == Some(e)
      }
    {
      if totalSteps == 0 {
        hasReward := step.reward.Some?;
      } else if step.reward.Some? != hasReward {
        return Some(MixedReward);
      }
      totalSteps := totalSteps + 1;
      current := current + [step];
      if done {
        episodes := episodes + [current];
        current := [];
      }
      return None;
    }

    method Close()
      modifies this
      ensures State() == CloseEpisode(old(State()))
    {
      if current != [] {
        episodes := episodes + [current];
        current := [];
      }
    }

    method ConsumeStep(row: Row) returns (failed: Option<LoadError>)
      modifies this
      ensures match TakeStep(old(State()), row) {
        case Ok(st) => failed == None && State() == st
        case Err(e) => failed == Some(e)
      }
    {
      var vectors := VectorsOf(row);
      if vectors.Err? { return Some(vectors.error); }
      var obs, act := vectors.value.observation, vectors.value.action;
      var done := DoneOf(row);
      if done.Err? { return Some(done.error); }
      if obsDim == None {
        obsDim, actDim := Some(|obs|), Some(|act|);
      }
      if Some(|obs|) != obsDim || Some(|act|) != actDim { return Some(InconsistentDimensions); }
      var t := TimeOf(row);
      if t.Err? { return Some(t.error); }
      var reward := RewardOf(row);
      if reward.Err? { return Some(reward.error); }
      failed := AppendStep(Step(obs, act, t.value, reward.value), done.value);
    }

    method ConsumeRecord(row: Row) returns (failed: Option<LoadError>)
      modifies this
      ensures match TakeRecord(old(State()), row) {
        case Ok(st) => failed == None && State() == st
        case Err(e) => failed == Some(e)
      }
    {
      var kind := Get(row, TypeField);
      if kind == Text("event") { return None; }
      if kind == Text("header") {
        var hz := Get(row, SampleHzField);
        if hz == Null { return None; }
        var value := Finite(hz);
        if value.None? || value.value <= 0.0 { return Some(BadSampleHz); }
        sampleHz := Declared(sampleHz, value.value);
        return None;
      }
      if kind != Null && kind != Text("step") { return Some(UnknownRowType); }
      failed := ConsumeStep(row);
    }

    method ConsumeLine(line: Line) returns (failed: Option<LoadError>)
      modifies this
      ensures match TakeLine(old(State()), line) {
        case Ok(st) => failed == None && State() == st
        case Err(e) => failed == Some(e)
      }
    {
      if line.Blank? { return None; }
      if line.Broken? { return Some(InvalidJson); }
      if !line.value.Object? { return Some(RowNotObject); }
      var row := line.value.fields;
      if SamplesField !in row {
        failed := ConsumeRecord(row);
        return;
      }
      if !row[SamplesField].List? { return Some(SamplesNotList); }
      var samples := row[SamplesField].items;
      for k := 0 to |samples|
        invariant TakeSamples(old(State()), samples, k) == Ok(State())
      {
        if !samples[k].Object? {
          SamplesStayFailed(old(State()), samples, k + 1, |samples|);
          return Some(SampleNotObject);
        }
        failed := ConsumeRecord(samples[k].fields);
        if failed.Some? {
          SamplesStayFailed(old(State()), samples, k + 1, |samples|);
          return;
        }
      }
      return None;
    }
  }

  lemma {:induction false} SamplesStayFailed(st: Loaded, samples: seq<Value>, k: nat, n: nat)
    requires k <= n <= |samples| && TakeSamples(st, samples, k).Err?
    ensures TakeSamples(st, samples, n) == TakeSamples(st, samples, k)
    decreases n - k
  {
    if k < n { SamplesStayFailed(st, samples, k, n - 1); }
  }

  lemma {:induction false} LinesStayFailed(st: Loaded, lines: seq<Line>, k: nat, n: nat)
    requires k <= n <= |lines| && TakeLines(st, lines, k).Err?
    ensures TakeLines(st, lines, n) == TakeLines(st, lines, k)
    decreases n - k
  {
    if k < n { LinesStayFailed(st, lines, k, n - 1); }
  }

  lemma {:induction false} FilesStayFailed(st: Loaded, files: seq<seq<Line>>, k: nat, n: nat)
    requires k <= n <= |files| && TakeFiles(st, files, k).Err?
    ensures TakeFiles(st, files, n) == TakeFiles(st, files, k)
    decreases n - k
  {
    if k < n { FilesStayFailed(st, files, k, n - 1); }
  }

  /** `load_trajectory_dataset` */
  method LoadTrajectoryDataset(files: seq<seq<Line>>) returns (r: Result<Loaded, LoadError>)
    ensures r == Load(files)
  {
    var dataset := new TrajectoryDataset();
    for f := 0 to |files|
      invariant TakeFiles(EMPTY, files, f) == Ok(dataset.State())
    {
      ghost var start := dataset.State();
      var lines := files[f];
      for k := 0 to |lines|
        invariant TakeLines(start, lines, k) == Ok(dataset.State())
      {
        var failed := dataset.ConsumeLine(lines[k]);
        if failed.Some? {
          LinesStayFailed(start, lines, k + 1, |lines|);
          FilesStayFailed(EMPTY, files, f + 1, |files|);
          return Err(failed.value);
        }
      }
      dataset.Close();
    }
    if dataset.episodes == [] { return Err(EmptyDataset); }
    return Ok(Loaded(dataset.episodes, dataset.obsDim, dataset.actDim, dataset.hasReward, dataset.sampleHz,
                     dataset.totalSteps, dataset.current));
  }
}
