/**
 What the curve shows: one point for every block with a reward, built from the last readings of the block,
 and the last reading of every episode metric.
 */
module StreamPoints {
  import opened Outcomes
  import opened StreamParser

  // ----- Blocks of a stream, read off its lines -----

  function Kinds(env: Env, lines: seq<string>): (kinds: seq<Line>)
    ensures |kinds| == |lines| && forall i :: 0 <= i < |lines| ==> kinds[i] == env.classify(lines[i])
  {
    seq(|lines|, i requires 0 <= i < |lines| => env.classify(lines[i]))
  }

  predicate Ends(line: Line) {
    line.Header? || (line.Body? && line.eta)
  }

  /** The block of the header in line `h` is over within the first `n` lines. */
  predicate Over(kinds: seq<Line>, h: nat, n: nat)
    requires n <= |kinds|
  {
    exists i :: h < i < n && Ends(kinds[i])
  }

  /** The readings of that block within the first `n` lines. */
  function ReadingsIn(kinds: seq<Line>, h: nat, n: nat): seq<Reading>
    requires n <= |kinds|
  {
    if n <= h + 1 then []
    else if Over(kinds, h, n - 1) || !kinds[n - 1].Body? then ReadingsIn(kinds, h, n - 1)
    else ReadingsIn(kinds, h, n - 1) + kinds[n - 1].readings
  }

  /** The last reading of a metric. */
  function Last(readings: seq<Reading>, name: string): Option<real> {
    if readings == [] then None
    else if readings[|readings| - 1].name == name then Some(readings[|readings| - 1].value)
    else Last(readings[..|readings| - 1], name)
  }

  function Reward(readings: seq<Reading>): Option<real> {
    if Last(readings, "mean reward").Some? then Last(readings, "mean reward")
    else if Last(readings, "mean total reward").Some? then Last(readings, "mean total reward")
    else Last(readings, "mean episode reward")
  }

  function Rounded(round: real -> real, x: Option<real>): Option<real> {
    if x.Some? then Some(round(x.value)) else None
  }

  /** The point of a block, if it has a reward. */
  function PointOf(env: Env, iteration: nat, total: nat, readings: seq<Reading>): seq<Point> {
    if Reward(readings).None? then []
    else
      [Point(iteration, if total == 0 then iteration else total, env.round4(Reward(readings).value),
             Rounded(env.round2, Last(readings, "mean episode length")), Last(readings, "total time"))]
  }

  /** The points of the blocks whose headers stand in the first `m` lines, read from the first `n`. */
  function PointsIn(env: Env, kinds: seq<Line>, m: nat, n: nat): seq<Point>
    requires m <= n <= |kinds|
  {
    if m == 0 then []
    else
      var before := PointsIn(env, kinds, m - 1, n);
      match kinds[m - 1]
      case Header(iteration, total) => before + PointOf(env, iteration, total, ReadingsIn(kinds, m - 1, n))
      case _ => before
  }

  /** Line `i` belongs to the block of a header before it. */
  predicate InBlock(kinds: seq<Line>, i: nat)
    requires i < |kinds|
  {
    exists h :: 0 <= h < i && kinds[h].Header? && !Over(kinds, h, i)
  }

  /** The readings of all blocks within the first `n` lines. */
  function AllReadings(kinds: seq<Line>, n: nat): seq<Reading>
    requires n <= |kinds|
  {
    if n == 0 then []
    else if kinds[n - 1].Body? && InBlock(kinds, n - 1) then AllReadings(kinds, n - 1) + kinds[n - 1].readings
    else AllReadings(kinds, n - 1)
  }

  function EpisodeOnly(readings: seq<Reading>): seq<Reading> {
    if readings == [] then []
    else
      var before, r := EpisodeOnly(readings[..|readings| - 1]), readings[|readings| - 1];
      if r.episodeMetric then before + [r] else before
  }

  // ----- Maps of last readings -----

  ghost predicate Latest(m: map<string, real>, readings: seq<Reading>) {
    forall name :: Get(m, name) == Last(readings, name)
  }

  lemma {:induction false} StoringIsLatest(c: Core, readings: seq<Reading>, stored: seq<Reading>, episode: seq<Reading>)
    requires Latest(c.metrics, stored) && Latest(c.episodeMetrics, EpisodeOnly(episode))
    ensures Latest(StoreAll(c, readings).metrics, stored + readings)
    ensures Latest(StoreAll(c, readings).episodeMetrics, EpisodeOnly(episode + readings))
  {
    if readings == [] {
      assert stored + readings == stored && episode + readings == episode;
    } else {
      var init, r := readings[..|readings| - 1], readings[|readings| - 1];
      StoringIsLatest(c, init, stored, episode);
      var before := StoreAll(c, init);
      assert (stored + readings)[..|stored + readings| - 1] == stored + init;
      assert (episode + readings)[..|episode + readings| - 1] == episode + init;
      var kept := EpisodeOnly(episode + init);
      assert (kept + [r])[..|kept|] == kept;
    }
  }

  // ----- The parser against the blocks -----

  /** The pending block is that of the header in line `h`, and its metrics are the block's last readings. */
  ghost predicate Pends(env: Env, c: Core, kinds: seq<Line>, h: nat, n: nat)
    requires n <= |kinds|
  {
    && h < n && kinds[h].Header? && c.pending == Some(Pending(kinds[h].iteration, kinds[h].total))
    && (forall i :: h < i < n ==> !kinds[i].Header?)
    && Latest(c.metrics, ReadingsIn(kinds, h, n)) && c.points == PointsIn(env, kinds, h, n)
  }

  /** No block is open: every header's block is over and shown. */
  ghost predicate Settled(env: Env, c: Core, kinds: seq<Line>, n: nat)
    requires n <= |kinds|
  {
    && c.pending.None? && c.metrics == map[] && c.points == PointsIn(env, kinds, n, n)
  }

  ghost predicate AllOver(kinds: seq<Line>, n: nat)
    requires n <= |kinds|
  {
    forall h: nat :: h < n && kinds[h].Header? ==> Over(kinds, h, n)
  }

  ghost predicate Shows(env: Env, c: Core, kinds: seq<Line>, n: nat)
    requires n <= |kinds|
  {
    && Latest(c.episodeMetrics, EpisodeOnly(AllReadings(kinds, n)))
    && ((Settled(env, c, kinds, n) && AllOver(kinds, n))
        || exists h: nat :: Pends(env, c, kinds, h, n) && !Over(kinds, h, n))
  }

  /** A line changes no point of a block that is over, nor any point if it holds no readings. */
  lemma {:induction false} PointsKeep(env: Env, kinds: seq<Line>, m: nat, n: nat)
    requires m <= n < |kinds|
    requires forall h: nat :: h < m && kinds[h].Header? ==> Over(kinds, h, n) || !kinds[n].Body?
    ensures PointsIn(env, kinds, m, n + 1) == PointsIn(env, kinds, m, n)
  {
    hide PointOf;
    if m > 0 { PointsKeep(env, kinds, m - 1, n); }
  }

  /** Lines that are no headers add no points. */
  lemma {:induction false} NoHeaderNoPoint(env: Env, kinds: seq<Line>, m: nat, k: nat, n: nat)
    requires m <= k <= n <= |kinds| && forall i :: m <= i < k ==> !kinds[i].Header?
    ensures PointsIn(env, kinds, k, n) == PointsIn(env, kinds, m, n)
  {
    hide PointOf;
    if m < k { NoHeaderNoPoint(env, kinds, m, k - 1, n); }
  }

  lemma CommitAdds(env: Env, c: Core, readings: seq<Reading>)
    requires c.pending.Some? && Latest(c.metrics, readings)
    ensures
      var d := Commit(env, c);
      && d.pending.None? && d.metrics == map[] && d.episodeMetrics == c.episodeMetrics
      && d.points == c.points + PointOf(env, c.pending.value.iteration, c.pending.value.total, readings)
  {
    hide Last, Get;
  }

  /** Committing settles the pending block with its point. */
  lemma CommitSettles(env: Env, c: Core, kinds: seq<Line>, h: nat, n: nat)
    requires n <= |kinds| && Pends(env, c, kinds, h, n)
    ensures Settled(env, Commit(env, c), kinds, n) && Commit(env, c).episodeMetrics == c.episodeMetrics
  {
    hide Over, ReadingsIn, Latest, PointOf, Commit;
    CommitAdds(env, c, ReadingsIn(kinds, h, n));
    NoHeaderNoPoint(env, kinds, h + 1, n, n);
  }

  lemma HeadersAreOver(kinds: seq<Line>, h: nat, n: nat)
    requires h < n <= |kinds| && Ends(kinds[h])
    ensures forall g: nat :: g < h ==> Over(kinds, g, n)
  {
  }

  lemma BlankSettles(env: Env, c: Core, kinds: seq<Line>, n: nat)
    requires n < |kinds| && !kinds[n].Header? && Settled(env, c, kinds, n) && AllOver(kinds, n)
    ensures Settled(env, c, kinds, n + 1) && AllOver(kinds, n + 1)
  {
    hide ReadingsIn, PointOf;
    PointsKeep(env, kinds, n, n);
  }

  lemma BlankPends(env: Env, c: Core, kinds: seq<Line>, h: nat, n: nat)
    requires n < |kinds| && kinds[n].Blank? && Pends(env, c, kinds, h, n) && !Over(kinds, h, n)
    ensures Pends(env, c, kinds, h, n + 1) && !Over(kinds, h, n + 1)
  {
    hide PointsIn, Latest;
    PointsKeep(env, kinds, h, n);
  }

  lemma BlankShows(env: Env, c: Core, kinds: seq<Line>, n: nat)
    requires n < |kinds| && kinds[n].Blank? && Shows(env, c, kinds, n)
    ensures Shows(env, c, kinds, n + 1)
  {
    hide Latest, EpisodeOnly, Pends, Settled, AllOver, Over;
    if Settled(env, c, kinds, n) && AllOver(kinds, n) {
      BlankSettles(env, c, kinds, n);
    } else {
      var h: nat :| Pends(env, c, kinds, h, n) && !Over(kinds, h, n);
      BlankPends(env, c, kinds, h, n);
    }
  }

  lemma HeaderShows(env: Env, c: Core, kinds: seq<Line>, n: nat)
    requires n < |kinds| && kinds[n].Header? && Shows(env, c, kinds, n)
    ensures Shows(env, OnLine(env, c, kinds[n]), kinds, n + 1)
  {
    hide Over, ReadingsIn;
    var next := OnLine(env, c, kinds[n]);
    if !Settled(env, c, kinds, n) {
      var h: nat :| Pends(env, c, kinds, h, n) && !Over(kinds, h, n);
      CommitSettles(env, c, kinds, h, n);
    }
    assert Settled(env, Commit(env, c), kinds, n);
    PointsKeep(env, kinds, n, n);
    NothingRead(kinds, n);
    assert Latest(map[], []);
    assert Pends(env, next, kinds, n, n + 1);
  }

  lemma NothingRead(kinds: seq<Line>, n: nat)
    requires n < |kinds|
    ensures ReadingsIn(kinds, n, n + 1) == [] && !Over(kinds, n, n + 1)
  {
  }

  /** Without a block a body line is ignored. */
  lemma StrayShows(env: Env, c: Core, kinds: seq<Line>, n: nat)
    requires n < |kinds| && kinds[n].Body? && Shows(env, c, kinds, n) && c.pending.None?
    ensures Shows(env, c, kinds, n + 1)
  {
    hide Latest, EpisodeOnly;
    assert !InBlock(kinds, n);
    BlankSettles(env, c, kinds, n);
  }

  lemma BodyStores(env: Env, c: Core, kinds: seq<Line>, h: nat, n: nat)
    requires n < |kinds| && kinds[n].Body? && Pends(env, c, kinds, h, n) && !Over(kinds, h, n)
    requires Latest(c.episodeMetrics, EpisodeOnly(AllReadings(kinds, n)))
    ensures
      var stored := StoreAll(c, kinds[n].readings);
      Pends(env, stored, kinds, h, n + 1) && Latest(stored.episodeMetrics, EpisodeOnly(AllReadings(kinds, n + 1)))
  {
    hide Latest, Over, EpisodeOnly, PointsIn, StoreAll, Last;
    StoringIsLatest(c, kinds[n].readings, ReadingsIn(kinds, h, n), AllReadings(kinds, n));
    StoringKeepsBlocks(c, kinds[n].readings);
    HeadersAreOver(kinds, h, n);
    PointsKeep(env, kinds, h, n);
    assert InBlock(kinds, n);
  }

  lemma BodyShows(env: Env, c: Core, kinds: seq<Line>, n: nat)
    requires n < |kinds| && kinds[n].Body? && Shows(env, c, kinds, n) && c.pending.Some?
    ensures Shows(env, OnLine(env, c, kinds[n]), kinds, n + 1)
  {
    hide Latest, StoreAll, Commit, AllReadings, EpisodeOnly, PointsIn;
    var h: nat :| Pends(env, c, kinds, h, n) && !Over(kinds, h, n);
    BodyStores(env, c, kinds, h, n);
    var stored := StoreAll(c, kinds[n].readings);
    if kinds[n].eta {
      CommitSettles(env, stored, kinds, h, n + 1);
      HeadersAreOver(kinds, h, n + 1);
      assert Ends(kinds[n]) && Over(kinds, h, n + 1);
      assert AllOver(kinds, n + 1);
    } else {
      assert !Over(kinds, h, n + 1);
    }
  }

  /** After every line the parser shows the blocks so far. */
  lemma {:induction false} ParserShows(env: Env, lines: seq<string>, n: nat)
    requires n <= |lines|
    ensures Shows(env, AfterLines(env, lines[..n]), Kinds(env, lines), n)
  {
    hide Shows, OnLine;
    var kinds := Kinds(env, lines);
    if n == 0 {
      NothingShown(env, kinds);
    } else {
      ParserShows(env, lines, n - 1);
      assert lines[..n][..n - 1] == lines[..n - 1];
      OnLineShows(env, AfterLines(env, lines[..n - 1]), kinds, n - 1);
    }
  }

  lemma NothingShown(env: Env, kinds: seq<Line>)
    ensures Shows(env, START.core, kinds, 0)
  {
  }

  lemma OnLineShows(env: Env, c: Core, kinds: seq<Line>, n: nat)
    requires n < |kinds| && Shows(env, c, kinds, n)
    ensures Shows(env, OnLine(env, c, kinds[n]), kinds, n + 1)
  {
    match kinds[n] {
      case Blank => BlankShows(env, c, kinds, n);
      case Header(_, _) => HeaderShows(env, c, kinds, n);
      case Body(_, _) => if c.pending.None? { StrayShows(env, c, kinds, n); } else { BodyShows(env, c, kinds, n); }
    }
  }

  /**
   However a stream is cut into chunks: after the flush the curve is one point for every block with a
   reward, in the order of the headers, each from the last readings of its own block; and the episode
   metrics are the last ones read in any block.
   */
  lemma CurveOfStream(env: Env, chunks: seq<string>)
    requires DropsEmptyLines(env)
    ensures
      var final, kinds := Flushed(env, FedAll(env, chunks)).core, Kinds(env, LinesOf(Joined(chunks)));
      && final.points == PointsIn(env, kinds, |kinds|, |kinds|)
      && forall name :: Get(final.episodeMetrics, name) == Last(EpisodeOnly(AllReadings(kinds, |kinds|)), name)
  {
    hide OnLine, Commit;
    var lines := LinesOf(Joined(chunks));
    var n := |lines| - 1;
    var st := FedAll(env, chunks);
    ChunksAreTaken(env, chunks);
    TakenByLines(env, Joined(chunks));
    var c := AfterLines(env, lines);
    assert lines[..|lines|] == lines;
    ParserShows(env, lines, |lines|);
    assert c == (if st.buffer != "" then OnLine(env, st.core, env.classify(st.buffer)) else st.core) by {
      assert st.buffer == lines[n] && st.core == AfterLines(env, lines[..n]);
      EmptyLineIsIdle(env, st.core);
    }
    FlushShows(env, c, Kinds(env, lines));
  }

  lemma EmptyLineIsIdle(env: Env, c: Core)
    requires DropsEmptyLines(env)
    ensures OnLine(env, c, env.classify("")) == c
  {
  }

  lemma FlushShows(env: Env, c: Core, kinds: seq<Line>)
    requires Shows(env, c, kinds, |kinds|)
    ensures Commit(env, c).points == PointsIn(env, kinds, |kinds|, |kinds|)
    ensures Latest(Commit(env, c).episodeMetrics, EpisodeOnly(AllReadings(kinds, |kinds|)))
  {
    hide Latest;
    if !Settled(env, c, kinds, |kinds|) {
      var h: nat :| Pends(env, c, kinds, h, |kinds|) && !Over(kinds, h, |kinds|);
      CommitSettles(env, c, kinds, h, |kinds|);
    }
  }
}
