/**
 The streaming parser of the trainer's progress blocks: its result does not depend on how the
 stream is cut into chunks, and its points follow the iteration headers.
 */
module StreamParser {
  import opened Outcomes

  datatype Reading = Reading(name: string, value: real, episodeMetric: bool)

  /** What the regular expressions find in one line without its line end. */
  datatype Line = Blank | Header(iteration: nat, total: nat) | Body(readings: seq<Reading>, eta: bool)

  /** The text recognition and the rounding, of which only the empty line matters here. */
  datatype Env = Env(classify: string -> Line, round4: real -> real, round2: real -> real)

  predicate DropsEmptyLines(env: Env) {
    env.classify("") == Blank
  }

  /** A point of the curve, without its wall-clock field. */
  datatype Point = Point(
    iteration: nat, totalIterations: nat, meanReward: real,
    episodeLength: Option<real>, elapsed: Option<real>)

  datatype Pending = Pending(iteration: nat, total: nat)

  /** Everything but the buffer. */
  datatype Core = Core(
    pending: Option<Pending>, metrics: map<string, real>, points: seq<Point>,
    episodeMetrics: map<string, real>, iterationsSeen: nat)

  datatype State = State(buffer: string, core: Core)

  const START := State("", Core(None, map[], [], map[], 0))

  // ----- Lines -----

  function Get(m: map<string, real>, key: string): Option<real> {
    if key in m then Some(m[key]) else None
  }

  function RewardOf(metrics: map<string, real>): Option<real> {
    if Get(metrics, "mean reward").Some? then Get(metrics, "mean reward")
    else if Get(metrics, "mean total reward").Some? then Get(metrics, "mean total reward")
    else Get(metrics, "mean episode reward")
  }

  /** A block without a reward ends without a point. */
  function Commit(env: Env, c: Core): Core {
    if c.pending.None? then c
    else
      var p, reward := c.pending.value, RewardOf(c.metrics);
      var cleared := c.(pending := None, metrics := map[]);
      if reward.None? then cleared
      else
        var length := Get(c.metrics, "mean episode length");
        cleared.(points := c.points + [Point(
          p.iteration, if p.total != 0 then p.total else p.iteration, env.round4(reward.value),
          if length.Some? then Some(env.round2(length.value)) else None,
          Get(c.metrics, "total time"))])
  }

  function Store(c: Core, r: Reading): Core {
    c.(metrics := c.metrics[r.name := r.value],
       episodeMetrics := if r.episodeMetric then c.episodeMetrics[r.name := r.value] else c.episodeMetrics)
  }

  function StoreAll(c: Core, readings: seq<Reading>): Core {
    if readings == [] then c
    else Store(StoreAll(c, readings[..|readings| - 1]), readings[|readings| - 1])
  }

  function Max(a: nat, b: nat): nat {
    if a < b then b else a
  }

  function OnLine(env: Env, c: Core, line: Line): Core {
    match line
    case Blank => c
    case Header(iteration, total) =>
      Commit(env, c).(pending := Some(Pending(iteration, total)), iterationsSeen := Max(c.iterationsSeen, iteration))
    case Body(readings, eta) =>
      if c.pending.None? then c
      else if eta then Commit(env, StoreAll(c, readings))
      else StoreAll(c, readings)
  }

  // ----- Feeding -----

  /** `chunk.replace("\r\n", "\n")` */
  function ReplaceCrLf(s: string): string {
    if s == [] then []
    else if |s| >= 2 && s[0] == '\r' && s[1] == '\n' then ['\n'] + ReplaceCrLf(s[2..])
    else [s[0]] + ReplaceCrLf(s[1..])
  }

  /** `.replace("\r", "\n")` */
  function ReplaceCr(s: string): string {
    if s == [] then [] else [if s[0] == '\r' then '\n' else s[0]] + ReplaceCr(s[1..])
  }

  function Normalized(chunk: string): string {
    ReplaceCr(ReplaceCrLf(chunk))
  }

  function LineEnd(s: string): (i: nat)
    requires '\n' in s
    ensures i < |s| && s[i] == '\n' && '\n' !in s[..i]
  {
    if s[0] == '\n' then 0 else 1 + LineEnd(s[1..])
  }

  /** The loop that takes complete lines off the buffer. */
  function Drain(env: Env, st: State): State
    decreases |st.buffer|
  {
    if '\n' !in st.buffer then st
    else
      var i := LineEnd(st.buffer);
      Drain(env, State(st.buffer[i + 1..], OnLine(env, st.core, env.classify(st.buffer[..i]))))
  }

  function Fed(env: Env, st: State, chunk: string): State {
    Drain(env, st.(buffer := st.buffer + Normalized(chunk)))
  }

  function Flushed(env: Env, st: State): State {
    var core := if st.buffer != "" then OnLine(env, st.core, env.classify(st.buffer)) else st.core;
    State("", Commit(env, core))
  }

  class Parser {
    const env: Env
    var buffer: string
    var pending: Option<Pending>
    var metrics: map<string, real>
    var points: seq<Point>
    var episodeMetrics: map<string, real>
    var iterationsSeen: nat

    function Inner(): Core
      reads this
    {
      Core(pending, metrics, points, episodeMetrics, iterationsSeen)
    }

    function Current(): State
      reads this
    {
      State(buffer, Inner())
    }

    constructor (env: Env)
      ensures Current() == START && this.env == env
    {
      this.env := env;
      buffer, pending, metrics, points, episodeMetrics, iterationsSeen := "", None, map[], [], map[], 0;
    }

    method Feed(chunk: string)
      modifies this
      ensures Current() == Fed(env, old(Current()), chunk)
    {
      hide OnLine;
      hide Normalized;
      hide LineEnd;
      buffer := buffer + Normalized(chunk);
      while '\n' in buffer
        invariant Drain(env, Current()) == Fed(env, old(Current()), chunk)
        decreases |buffer|
      {
        var i := LineEnd(buffer);
        var line := buffer[..i];
        buffer := buffer[i + 1..];
        TakeLine(line);
      }
    }

    method Flush()
      modifies this
      ensures Current() == Flushed(env, old(Current()))
    {
      if buffer != "" {
        TakeLine(buffer);
        buffer := "";
      }
      CommitBlock();
    }

    method TakeLine(raw: string)
      modifies this
      ensures buffer == old(buffer) && Inner() == OnLine(env, old(Inner()), env.classify(raw))
    {
      match env.classify(raw) {
        case Blank =>
        case Header(iteration, total) =>
          CommitBlock();
          pending := Some(Pending(iteration, total));
          iterationsSeen := Max(iterationsSeen, iteration);
        case Body(readings, eta) =>
          if pending.None? { return; }
          StoreReadings(readings);
          if eta { CommitBlock(); }
      }
    }

    method StoreReadings(readings: seq<Reading>)
      modifies this
      ensures buffer == old(buffer) && Inner() == StoreAll(old(Inner()), readings)
    {
      for i := 0 to |readings|
        invariant buffer == old(buffer) && Inner() == StoreAll(old(Inner()), readings[..i])
      {
        assert readings[..i + 1][..i] == readings[..i];
        metrics := metrics[readings[i].name := readings[i].value];
        if readings[i].episodeMetric {
          episodeMetrics := episodeMetrics[readings[i].name := readings[i].value];
        }
      }
      assert readings[..|readings|] == readings;
    }

    method CommitBlock()
      modifies this
      ensures buffer == old(buffer) && Inner() == Commit(env, old(Inner()))
    {
      if pending.None? { return; }
      var block, reward := pending.value, RewardOf(metrics);
      var length, elapsed := Get(metrics, "mean episode length"), Get(metrics, "total time");
      pending, metrics := None, map[];
      if reward.None? { return; }
      points := points + [Point(
        block.iteration, if block.total != 0 then block.total else block.iteration, env.round4(reward.value),
        if length.Some? then Some(env.round2(length.value)) else None, elapsed)];
    }
  }

  // ----- Chunks do not matter -----

  /** One character at a time: a carriage return and a line feed both end the line. */
  function Take(env: Env, st: State, ch: char): State {
    if ch == '\n' || ch == '\r' then State("", OnLine(env, st.core, env.classify(st.buffer)))
    else st.(buffer := st.buffer + [ch])
  }

  function TakeAll(env: Env, st: State, s: string): State
    decreases |s|
  {
    if s == [] then st else TakeAll(env, Take(env, st, s[0]), s[1..])
  }

  lemma {:induction false} TakeAllJoins(env: Env, st: State, a: string, b: string)
    ensures TakeAll(env, st, a + b) == TakeAll(env, TakeAll(env, st, a), b)
    decreases |a|
  {
    if a == [] {
      assert a + b == b;
    } else {
      assert (a + b)[1..] == a[1..] + b;
      TakeAllJoins(env, Take(env, st, a[0]), a[1..], b);
    }
  }

  /** Normalising first changes nothing: the extra line end leaves an empty line behind. */
  lemma {:induction false} NormalizingIsIdle(env: Env, st: State, s: string)
    requires DropsEmptyLines(env)
    ensures TakeAll(env, st, Normalized(s)) == TakeAll(env, st, s)
    decreases |s|
  {
    if s == [] {
    } else if |s| >= 2 && s[0] == '\r' && s[1] == '\n' {
      var after := Take(env, st, '\r');
      assert Take(env, after, '\n') == after;
      assert Normalized(s) == ['\n'] + Normalized(s[2..]);
      NormalizingIsIdle(env, after, s[2..]);
      assert s[1..][1..] == s[2..];
    } else {
      assert Normalized(s) == [if s[0] == '\r' then '\n' else s[0]] + Normalized(s[1..]);
      NormalizingIsIdle(env, Take(env, st, s[0]), s[1..]);
    }
  }

  lemma {:induction false} NoReturnsLeft(s: string)
    ensures '\r' !in ReplaceCr(s)
  {
    if s != [] { NoReturnsLeft(s[1..]); }
  }

  lemma {:induction false} TakePlain(env: Env, st: State, s: string)
    requires '\n' !in s && '\r' !in s
    ensures TakeAll(env, st, s) == st.(buffer := st.buffer + s)
    decreases |s|
  {
    if s == [] {
      assert st.buffer + s == st.buffer;
    } else {
      TakePlain(env, Take(env, st, s[0]), s[1..]);
      assert st.buffer + s == (st.buffer + [s[0]]) + s[1..];
    }
  }

  /** Taking whole lines off the buffer is taking its characters from an empty one. */
  lemma {:induction false} DrainIsTaking(env: Env, core: Core, text: string)
    requires '\r' !in text
    ensures Drain(env, State(text, core)) == TakeAll(env, State("", core), text)
    decreases |text|
  {
    if '\n' !in text {
      TakePlain(env, State("", core), text);
      assert "" + text == text;
    } else {
      var i := LineEnd(text);
      var line, rest := text[..i], text[i + 1..];
      var next := State("", OnLine(env, core, env.classify(line)));
      assert text == line + (['\n'] + rest);
      TakePlain(env, State("", core), line);
      assert "" + line == line;
      TakeAllJoins(env, State("", core), line, ['\n'] + rest);
      assert TakeAll(env, State(line, core), ['\n'] + rest) == TakeAll(env, next, rest) by {
        assert (['\n'] + rest)[1..] == rest;
      }
      DrainIsTaking(env, next.core, rest);
    }
  }

  predicate NoLineEnd(s: string) {
    '\n' !in s && '\r' !in s
  }

  /** Feeding a chunk is taking its characters. */
  lemma FeedingIsTaking(env: Env, st: State, chunk: string)
    requires DropsEmptyLines(env) && NoLineEnd(st.buffer)
    ensures Fed(env, st, chunk) == TakeAll(env, st, chunk)
    ensures NoLineEnd(Fed(env, st, chunk).buffer)
  {
    var text := Normalized(chunk);
    NoReturnsLeft(ReplaceCrLf(chunk));
    DrainIsTaking(env, st.core, st.buffer + text);
    TakeAllJoins(env, State("", st.core), st.buffer, text);
    TakePlain(env, State("", st.core), st.buffer);
    assert "" + st.buffer == st.buffer;
    NormalizingIsIdle(env, st, chunk);
    TakingLeavesNoEnd(env, st, chunk);
  }

  lemma {:induction false} TakingLeavesNoEnd(env: Env, st: State, s: string)
    requires NoLineEnd(st.buffer)
    ensures NoLineEnd(TakeAll(env, st, s).buffer)
    decreases |s|
  {
    if s != [] { TakingLeavesNoEnd(env, Take(env, st, s[0]), s[1..]); }
  }

  function FedAll(env: Env, chunks: seq<string>): State {
    if chunks == [] then START else Fed(env, FedAll(env, chunks[..|chunks| - 1]), chunks[|chunks| - 1])
  }

  function Joined(chunks: seq<string>): string {
    if chunks == [] then "" else Joined(chunks[..|chunks| - 1]) + chunks[|chunks| - 1]
  }

  lemma {:induction false} ChunksAreTaken(env: Env, chunks: seq<string>)
    requires DropsEmptyLines(env)
    ensures FedAll(env, chunks) == TakeAll(env, START, Joined(chunks)) && NoLineEnd(FedAll(env, chunks).buffer)
  {
    if chunks != [] {
      var init, last := chunks[..|chunks| - 1], chunks[|chunks| - 1];
      ChunksAreTaken(env, init);
      FeedingIsTaking(env, FedAll(env, init), last);
      TakeAllJoins(env, START, Joined(init), last);
    }
  }

  /** However a text is cut, between CR and LF too, the parser ends in the same state. */
  lemma ChunkInvariance(env: Env, chunks: seq<string>, others: seq<string>)
    requires DropsEmptyLines(env) && Joined(chunks) == Joined(others)
    ensures FedAll(env, chunks) == FedAll(env, others)
    ensures Flushed(env, FedAll(env, chunks)) == Flushed(env, FedAll(env, others))
  {
    ChunksAreTaken(env, chunks);
    ChunksAreTaken(env, others);
  }

  // ----- Points follow headers -----

  /** The lines of a text, the unfinished one last. */
  function LinesOf(s: string): (lines: seq<string>)
    ensures lines != []
  {
    if s == [] then [""]
    else
      var before := LinesOf(s[..|s| - 1]);
      var ch := s[|s| - 1];
      if ch == '\n' || ch == '\r' then before + [""]
      else before[|before| - 1 := before[|before| - 1] + [ch]]
  }

  function AfterLines(env: Env, lines: seq<string>): Core {
    if lines == [] then START.core
    else OnLine(env, AfterLines(env, lines[..|lines| - 1]), env.classify(lines[|lines| - 1]))
  }

  lemma {:induction false} TakenByLines(env: Env, s: string)
    ensures
      var lines := LinesOf(s);
      TakeAll(env, START, s) == State(lines[|lines| - 1], AfterLines(env, lines[..|lines| - 1]))
  {
    if s != [] {
      var init, last := s[..|s| - 1], s[|s| - 1];
      TakenByLines(env, init);
      TakeAllJoins(env, START, init, [last]);
      assert init + [last] == s;
      var st, before, lines := TakeAll(env, START, init), LinesOf(init), LinesOf(s);
      assert TakeAll(env, st, [last]) == Take(env, st, last);
      if last == '\n' || last == '\r' {
        assert lines[..|lines| - 1] == before;
      } else {
        assert lines[..|lines| - 1] == before[..|before| - 1];
      }
    }
  }

  function HeadersOf(env: Env, lines: seq<string>): seq<nat> {
    if lines == [] then []
    else
      var before, line := HeadersOf(env, lines[..|lines| - 1]), env.classify(lines[|lines| - 1]);
      if line.Header? then before + [line.iteration] else before
  }

  function Iterations(points: seq<Point>): (its: seq<nat>)
    ensures |its| == |points|
  {
    seq(|points|, i requires 0 <= i < |points| => points[i].iteration)
  }

  /** `a` is `b` with some entries left out, the order kept. */
  predicate Subsequence(a: seq<nat>, b: seq<nat>) {
    a == [] || (b != [] &&
      (Subsequence(a, b[..|b| - 1]) ||
       (a[|a| - 1] == b[|b| - 1] && Subsequence(a[..|a| - 1], b[..|b| - 1]))))
  }

  function MaxOf(xs: seq<nat>): nat {
    if xs == [] then 0 else Max(MaxOf(xs[..|xs| - 1]), xs[|xs| - 1])
  }

  /** The points so far come from headers before the pending one. */
  predicate Follows(c: Core, headers: seq<nat>) {
    && c.iterationsSeen == MaxOf(headers)
    && if c.pending.None? then Subsequence(Iterations(c.points), headers)
       else headers != [] && c.pending.value.iteration == headers[|headers| - 1]
            && Subsequence(Iterations(c.points), headers[..|headers| - 1])
  }

  lemma CommitFollows(env: Env, c: Core, headers: seq<nat>)
    requires Follows(c, headers)
    ensures Follows(Commit(env, c), headers) && Commit(env, c).pending.None?
  {
    var next := Commit(env, c);
    if |next.points| > |c.points| {
      assert Iterations(next.points)[..|c.points|] == Iterations(c.points);
    }
  }

  lemma {:induction false} StoringKeepsBlocks(c: Core, readings: seq<Reading>)
    ensures
      var d := StoreAll(c, readings);
      d.pending == c.pending && d.points == c.points && d.iterationsSeen == c.iterationsSeen
  {
    if readings != [] { StoringKeepsBlocks(c, readings[..|readings| - 1]); }
  }

  lemma {:induction false} PointsFollowHeaders(env: Env, lines: seq<string>)
    ensures Follows(AfterLines(env, lines), HeadersOf(env, lines))
  {
    if lines != [] {
      var init, line := lines[..|lines| - 1], env.classify(lines[|lines| - 1]);
      var c, headers := AfterLines(env, init), HeadersOf(env, init);
      PointsFollowHeaders(env, init);
      match line
      case Blank =>
      case Header(iteration, total) =>
        CommitFollows(env, c, headers);
        assert (headers + [iteration])[..|headers|] == headers;
      case Body(readings, eta) =>
        StoringKeepsBlocks(c, readings);
        CommitFollows(env, StoreAll(c, readings), headers);
    }
  }

  /** After the flush the points are a subsequence of the headers, at most one for each. */
  lemma FlushedPointsFollowHeaders(env: Env, chunks: seq<string>)
    requires DropsEmptyLines(env)
    ensures
      var final, headers := Flushed(env, FedAll(env, chunks)).core, HeadersOf(env, LinesOf(Joined(chunks)));
      Subsequence(Iterations(final.points), headers) && final.iterationsSeen == MaxOf(headers)
  {
    var lines := LinesOf(Joined(chunks));
    ChunksAreTaken(env, chunks);
    TakenByLines(env, Joined(chunks));
    PointsFollowHeaders(env, lines);
    CommitFollows(env, AfterLines(env, lines), HeadersOf(env, lines));
  }
}
