/**
 The rollout of the recurrent trainer: an in-place frame history read through a view, recurrent
 state carried from step to step, and chunks recomputed from the stored states. The policy is an
 arbitrary function of one environment's column.
 */
module RecurrentRollout {
  // ----- The frame history -----

  /** The last `n` frames of an episode, oldest first, with zero frames in front of a short one. */
  function Window<F>(zero: F, n: nat, episode: seq<F>): (w: seq<F>)
    ensures |w| == n
  {
    seq(n, k requires 0 <= k < n => if |episode| + k < n then zero else episode[|episode| + k - n])
  }

  lemma WindowShifts<F>(zero: F, n: nat, episode: seq<F>, frame: F)
    requires n > 0
    ensures Window(zero, n, episode + [frame])[n - 1] == frame
    ensures forall k :: 0 <= k < n - 1 ==> Window(zero, n, episode + [frame])[k] == Window(zero, n, episode)[k + 1]
  {
  }

  /** An episode at least as long as the window shows its last frames and no zeros. */
  lemma WindowOfLongEpisode<F>(zero: F, n: nat, episode: seq<F>)
    ensures |episode| >= n ==> Window(zero, n, episode) == episode[|episode| - n..]
    ensures |episode| <= n ==> Window(zero, n, episode) == seq(n - |episode|, _ => zero) + episode
  {
  }

  /** `obs_history`, one row of frame slots for each environment. */
  class FrameHistory<F> {
    const zero: F
    const slots: array2<F>
    /** The frames of each environment's current episode. */
    ghost var episodes: seq<seq<F>>

    ghost predicate Valid()
      reads this, slots
    {
      && slots.Length1 > 0 && |episodes| == slots.Length0
      && forall i, k :: 0 <= i < slots.Length0 && 0 <= k < slots.Length1 ==>
        slots[i, k] == Window(zero, slots.Length1, episodes[i])[k]
    }

    constructor (envs: nat, frames: nat, zero: F)
      requires frames > 0
      ensures Valid() && fresh(slots)
      ensures slots.Length0 == envs && slots.Length1 == frames && this.zero == zero
      ensures forall i :: 0 <= i < envs ==> episodes[i] == []
    {
      this.zero := zero;
      slots := new F[envs, frames]((_, _) => zero);
      episodes := seq(envs, _ => []);
    }

    /** Shifts and appends in place; the result is the same memory, not a copy. */
    method Stack(frames: seq<F>) returns (view: array2<F>)
      requires Valid() && |frames| == slots.Length0
      modifies this, slots
      ensures Valid() && view == slots
      ensures forall i :: 0 <= i < slots.Length0 ==> episodes[i] == old(episodes[i]) + [frames[i]]
    {
      hide Window;
      var n := slots.Length1;
      forall i | 0 <= i < slots.Length0 {
        WindowShifts(zero, n, episodes[i], frames[i]);
      }
      forall i, k | 0 <= i < slots.Length0 && 0 <= k < n - 1 {
        slots[i, k] := slots[i, k + 1];
      }
      forall i | 0 <= i < slots.Length0 {
        slots[i, n - 1] := frames[i];
      }
      ghost var before := episodes;
      episodes := seq(|before|, i requires 0 <= i < |before| => before[i] + [frames[i]]);
      return slots;
    }

    method ClearHistory(indices: seq<nat>)
      requires Valid() && forall j :: 0 <= j < |indices| ==> indices[j] < slots.Length0
      modifies this, slots
      ensures Valid()
      ensures forall i :: 0 <= i < slots.Length0 ==> episodes[i] == if i in indices then [] else old(episodes[i])
    {
      for j := 0 to |indices|
        invariant Valid()
        invariant forall i :: 0 <= i < slots.Length0 ==> episodes[i] == if i in indices[..j] then [] else old(episodes[i])
      {
        var index := indices[j];
        forall k | 0 <= k < slots.Length1 {
          slots[index, k] := zero;
        }
        episodes := episodes[index := []];
      }
    }
  }

  /** `obs.copy()` */
  method Copy<F>(view: array2<F>) returns (rows: seq<seq<F>>)
    ensures |rows| == view.Length0
    ensures forall i :: 0 <= i < view.Length0 ==> |rows[i]| == view.Length1
    ensures forall i, k :: 0 <= i < view.Length0 && 0 <= k < view.Length1 ==> rows[i][k] == view[i, k]
  {
    rows := [];
    for i := 0 to view.Length0
      invariant |rows| == i && forall j :: 0 <= j < i ==> |rows[j]| == view.Length1
      invariant forall j, k :: 0 <= j < i && 0 <= k < view.Length1 ==> rows[j][k] == view[j, k]
    {
      var row := [];
      for k := 0 to view.Length1
        invariant |row| == k && forall l :: 0 <= l < k ==> row[l] == view[i, l]
      {
        row := row + [view[i, k]];
      }
      rows := rows + [row];
    }
  }

  // ----- What a rollout is told and what it means -----

  /** Frames and done flags of one control step, after the automatic resets. */
  datatype EnvStep<F> = EnvStep(frames: seq<F>, dones: seq<bool>)

  /** One step of the policy on one column: the heads' outputs and the next state. */
  datatype CellStep<O, S> = CellStep(output: O, next: S)

  predicate Sized<F>(script: seq<EnvStep<F>>, envs: nat) {
    forall t :: 0 <= t < |script| ==> |script[t].frames| == envs && |script[t].dones| == envs
  }

  /** The frames of environment `i`'s current episode before step `t`. */
  function EpisodeAt<F>(start: seq<F>, script: seq<EnvStep<F>>, i: nat, t: nat): seq<F>
    requires t <= |script| && forall j :: 0 <= j < |script| ==> i < |script[j].frames| && i < |script[j].dones|
  {
    if t == 0 then start
    else
      var step := script[t - 1];
      (if step.dones[i] then [] else EpisodeAt(start, script, i, t - 1)) + [step.frames[i]]
  }

  /** The recurrent state of environment `i` before step `t`, given the observation rows. */
  function StateAt<F, O, S>(cell: (seq<F>, S) -> CellStep<O, S>, zero: S, start: S, rows: seq<seq<F>>, dones: seq<bool>, t: nat): S
    requires t <= |rows| == |dones|
  {
    if t == 0 then start
    else if dones[t - 1] then zero
    else cell(rows[t - 1], StateAt(cell, zero, start, rows, dones, t - 1)).next
  }

  function Column<T>(buffer: seq<seq<T>>, i: nat): (c: seq<T>)
    requires forall t :: 0 <= t < |buffer| ==> i < |buffer[t]|
    ensures |c| == |buffer| && forall t :: 0 <= t < |c| ==> c[t] == buffer[t][i]
  {
    seq(|buffer|, t requires 0 <= t < |buffer| => buffer[t][i])
  }

  function Dones<F>(script: seq<EnvStep<F>>, i: nat): (d: seq<bool>)
    requires forall j :: 0 <= j < |script| ==> i < |script[j].dones|
    ensures |d| == |script| && forall t :: 0 <= t < |d| ==> d[t] == script[t].dones[i]
  {
    seq(|script|, t requires 0 <= t < |script| => script[t].dones[i])
  }

  /** `[index for index, flag in enumerate(dones) if flag]` */
  function DoneIndices(dones: seq<bool>): (r: seq<nat>)
    ensures forall i: nat :: i in r <==> i < |dones| && dones[i]
  {
    if dones == [] then []
    else
      var n := |dones| - 1;
      DoneIndices(dones[..n]) + if dones[n] then [n] else []
  }

  lemma {:induction false} LaterStepsIrrelevant<F, O, S>(cell: (seq<F>, S) -> CellStep<O, S>, zero: S, start: S,
      rows: seq<seq<F>>, dones: seq<bool>, row: seq<F>, done: bool, t: nat)
    requires t <= |rows| == |dones|
    ensures StateAt(cell, zero, start, rows + [row], dones + [done], t) == StateAt(cell, zero, start, rows, dones, t)
  {
    if t > 0 { LaterStepsIrrelevant(cell, zero, start, rows, dones, row, done, t - 1); }
  }

  // ----- One iteration's rollout -----

  /** The environments' episodes before step `t`. */
  predicate EpisodesAre<F(==)>(episodes: seq<seq<F>>, start: seq<seq<F>>, script: seq<EnvStep<F>>, t: nat)
    requires Sized(script, |start|) && t <= |script|
  {
    && |episodes| == |start|
    && forall i :: 0 <= i < |start| ==> episodes[i] == EpisodeAt(start[i], script, i, t)
  }

  /** Every recorded row is the window of its environment's episode at that step. */
  predicate RowsAreWindows<F(==)>(obsBuf: seq<seq<seq<F>>>, zero: F, n: nat, start: seq<seq<F>>, script: seq<EnvStep<F>>)
    requires Sized(script, |start|) && |obsBuf| <= |script|
  {
    forall t :: 0 <= t < |obsBuf| ==> RowIsWindow(obsBuf[t], zero, n, start, script, t)
  }

  predicate RowIsWindow<F(==)>(row: seq<seq<F>>, zero: F, n: nat, start: seq<seq<F>>, script: seq<EnvStep<F>>, t: nat)
    requires Sized(script, |start|) && t <= |script|
  {
    && |row| == |start|
    && forall i :: 0 <= i < |start| ==> row[i] == Window(zero, n, EpisodeAt(start[i], script, i, t))
  }

  /** The buffers and the carried state of one iteration. */
  datatype Buffers<F, O, S> = Buffers(obs: seq<seq<seq<F>>>, outputs: seq<seq<O>>, states: seq<seq<S>>, carried: seq<S>)

  predicate BuffersSized<F, O, S>(b: Buffers<F, O, S>, envs: nat, t: nat) {
    && |b.obs| == |b.outputs| == |b.states| == t && |b.carried| == envs
    && forall j :: 0 <= j < t ==> |b.obs[j]| == |b.outputs[j]| == |b.states[j]| == envs
  }

  /** Column `i`: each stored state and output, and the carried state, are those of the recurrence. */
  predicate ColumnTracks<F, O(==), S(==)>(cell: (seq<F>, S) -> CellStep<O, S>, zero: S, start: S, b: Buffers<F, O, S>,
                                          script: seq<EnvStep<F>>, envs: nat, i: nat, t: nat)
    requires t <= |script| && i < envs && Sized(script, envs) && BuffersSized(b, envs, t)
  {
    var rows, dones := Column(b.obs, i), Dones(script, i)[..t];
    && (forall j :: 0 <= j < t ==>
         && b.states[j][i] == StateAt(cell, zero, start, rows, dones, j)
         && b.outputs[j][i] == cell(rows[j], b.states[j][i]).output)
    && b.carried[i] == StateAt(cell, zero, start, rows, dones, t)
  }

  function Record<F, O, S>(cell: (seq<F>, S) -> CellStep<O, S>, zero: S, b: Buffers<F, O, S>, rows: seq<seq<F>>, dones: seq<bool>):
    (r: Buffers<F, O, S>)
    requires |rows| == |b.carried| == |dones|
  {
    var envs := |rows|;
    var steps := seq(envs, i requires 0 <= i < envs => cell(rows[i], b.carried[i]));
    Buffers(b.obs + [rows],
            b.outputs + [seq(envs, i requires 0 <= i < envs => steps[i].output)],
            b.states + [b.carried],
            seq(envs, i requires 0 <= i < envs => if dones[i] then zero else steps[i].next))
  }

  /** What column `i` of the buffers holds after one more step. */
  lemma RecordedCells<F, O, S>(cell: (seq<F>, S) -> CellStep<O, S>, zero: S, b: Buffers<F, O, S>, rows: seq<seq<F>>,
                               dones: seq<bool>, envs: nat, i: nat, t: nat)
    requires |rows| == |dones| == envs && i < envs && BuffersSized(b, envs, t)
    ensures
      var r := Record(cell, zero, b, rows, dones);
      && BuffersSized(r, envs, t + 1) && r.obs == b.obs + [rows]
      && (forall j :: 0 <= j < t ==> r.states[j] == b.states[j] && r.outputs[j] == b.outputs[j])
      && r.states[t] == b.carried && r.outputs[t][i] == cell(rows[i], b.carried[i]).output
      && r.carried[i] == if dones[i] then zero else cell(rows[i], b.carried[i]).next
  {
  }

  lemma RecordTracks<F, O, S>(cell: (seq<F>, S) -> CellStep<O, S>, zero: S, start: S, b: Buffers<F, O, S>, rows: seq<seq<F>>,
                              script: seq<EnvStep<F>>, envs: nat, i: nat, t: nat)
    requires t < |script| && i < envs == |rows| && Sized(script, envs) && BuffersSized(b, envs, t)
    requires ColumnTracks(cell, zero, start, b, script, envs, i, t)
    ensures BuffersSized(Record(cell, zero, b, rows, script[t].dones), envs, t + 1)
    ensures ColumnTracks(cell, zero, start, Record(cell, zero, b, rows, script[t].dones), script, envs, i, t + 1)
  {
    RecordedCells(cell, zero, b, rows, script[t].dones, envs, i, t);
    GrowsByOne(cell, zero, start, b.obs, rows, script, i, t);
    hide StateAt, Dones, Record, Column;
    var r := Record(cell, zero, b, rows, script[t].dones);
    var after, dones := Column(r.obs, i), Dones(script, i)[..t + 1];
    forall j | 0 <= j < t + 1
      ensures r.states[j][i] == StateAt(cell, zero, start, after, dones, j)
      ensures r.outputs[j][i] == cell(after[j], r.states[j][i]).output
    {
      assert r.obs[j] == if j < t then b.obs[j] else rows;
    }
  }

  lemma ViewIsWindow<F>(history: FrameHistory<F>, rows: seq<seq<F>>, start: seq<seq<F>>, script: seq<EnvStep<F>>, t: nat)
    requires history.Valid() && |rows| == history.slots.Length0 == |start|
    requires forall i :: 0 <= i < |rows| ==> |rows[i]| == history.slots.Length1
    requires forall i, k :: 0 <= i < |rows| && 0 <= k < history.slots.Length1 ==> rows[i][k] == history.slots[i, k]
    requires Sized(script, |start|) && t <= |script| && EpisodesAre(history.episodes, start, script, t)
    ensures RowIsWindow(rows, history.zero, history.slots.Length1, start, script, t)
  {
  }

  /** `batch.step`, `clear_history` and `stack` as they touch the history. */
  method Advance<F>(history: FrameHistory<F>, ghost start: seq<seq<F>>, script: seq<EnvStep<F>>, t: nat)
    returns (obs: array2<F>)
    requires history.Valid() && |start| == history.slots.Length0 && Sized(script, |start|) && t < |script|
    requires EpisodesAre(history.episodes, start, script, t)
    modifies history, history.slots
    ensures history.Valid() && obs == history.slots
    ensures EpisodesAre(history.episodes, start, script, t + 1)
  {
    var doneIndices := DoneIndices(script[t].dones);
    assert forall j :: 0 <= j < |doneIndices| ==> doneIndices[j] in doneIndices;
    if doneIndices != [] {
      history.ClearHistory(doneIndices);
    }
    obs := history.Stack(script[t].frames);
  }

  /**
   One iteration. `obs` stays a view of the history that the next step overwrites, and what is
   recorded is a copy of it.
   */
  method Collect<F(==), O(==), S(==)>(history: FrameHistory<F>, view: array2<F>, cell: (seq<F>, S) -> CellStep<O, S>, zeroState: S,
                                      start: seq<S>, script: seq<EnvStep<F>>)
    returns (b: Buffers<F, O, S>)
    requires history.Valid() && view == history.slots
    requires |start| == view.Length0 && Sized(script, view.Length0)
    modifies history, view
    ensures history.Valid() && EpisodesAre(history.episodes, old(history.episodes), script, |script|)
    ensures BuffersSized(b, view.Length0, |script|)
    ensures RowsAreWindows(b.obs, history.zero, view.Length1, old(history.episodes), script)
    ensures forall i :: 0 <= i < view.Length0 ==>
      ColumnTracks(cell, zeroState, start[i], b, script, view.Length0, i, |script|)
  {
    hide ColumnTracks, Record, RowIsWindow, EpisodesAre, Window;
    ghost var episodes := history.episodes;
    StartsInStep(episodes, script);
    b := Buffers([], [], [], start);
    forall i | 0 <= i < view.Length0 {
      StartTracks(cell, zeroState, start, script, i);
    }
    var obs := view;
    for t := 0 to |script|
      invariant history.Valid() && obs == history.slots && EpisodesAre(history.episodes, episodes, script, t)
      invariant BuffersSized(b, view.Length0, t) && RowsAreWindows(b.obs, history.zero, view.Length1, episodes, script)
      invariant forall i :: 0 <= i < view.Length0 ==> ColumnTracks(cell, zeroState, start[i], b, script, view.Length0, i, t)
    {
      var rows := Copy(obs);
      ViewIsWindow(history, rows, episodes, script, t);
      forall i | 0 <= i < view.Length0 {
        RecordTracks(cell, zeroState, start[i], b, rows, script, view.Length0, i, t);
      }
      RecordKeeps(cell, zeroState, b, rows, script[t].dones, view.Length0, t);
      b := Record(cell, zeroState, b, rows, script[t].dones);
      obs := Advance(history, episodes, script, t);
    }
  }

  lemma RecordKeeps<F, O, S>(cell: (seq<F>, S) -> CellStep<O, S>, zero: S, b: Buffers<F, O, S>, rows: seq<seq<F>>, dones: seq<bool>,
                             envs: nat, t: nat)
    requires |rows| == |dones| == envs && BuffersSized(b, envs, t)
    ensures BuffersSized(Record(cell, zero, b, rows, dones), envs, t + 1)
    ensures Record(cell, zero, b, rows, dones).obs == b.obs + [rows]
  {
  }

  lemma StartsInStep<F>(episodes: seq<seq<F>>, script: seq<EnvStep<F>>)
    requires Sized(script, |episodes|)
    ensures EpisodesAre(episodes, episodes, script, 0)
  {
  }

  lemma StartTracks<F, O, S>(cell: (seq<F>, S) -> CellStep<O, S>, zero: S, start: seq<S>, script: seq<EnvStep<F>>, i: nat)
    requires i < |start| && Sized(script, |start|)
    ensures ColumnTracks(cell, zero, start[i], Buffers([], [], [], start), script, |start|, i, 0)
  {
  }

  /** Appending step `t` to the buffers changes no earlier state and gives the next one. */
  lemma GrowsByOne<F, O, S>(cell: (seq<F>, S) -> CellStep<O, S>, zero: S, start: S, obsBuf: seq<seq<seq<F>>>, rows: seq<seq<F>>,
                            script: seq<EnvStep<F>>, i: nat, t: nat)
    requires |obsBuf| == t < |script| && i < |rows|
    requires forall j :: 0 <= j < t ==> i < |obsBuf[j]|
    requires forall j :: 0 <= j < |script| ==> i < |script[j].dones|
    ensures
      var before, after := Column(obsBuf, i), Column(obsBuf + [rows], i);
      var d, d' := Dones(script, i)[..t], Dones(script, i)[..t + 1];
      && (forall j :: 0 <= j <= t ==> StateAt(cell, zero, start, after, d', j) == StateAt(cell, zero, start, before, d, j))
      && StateAt(cell, zero, start, after, d', t + 1)
         == if script[t].dones[i] then zero else cell(rows[i], StateAt(cell, zero, start, before, d, t)).next
  {
    var before, d, done := Column(obsBuf, i), Dones(script, i)[..t], script[t].dones[i];
    assert Column(obsBuf + [rows], i) == before + [rows[i]];
    assert Dones(script, i)[..t + 1] == d + [done];
    forall j | 0 <= j <= t { LaterStepsIrrelevant(cell, zero, start, before, d, rows[i], done, j); }
  }

  // ----- Recomputing chunks -----

  /** `sequence` on one column: the outputs of the steps from an opening state, with no resets. */
  function Sequence<F, O, S>(cell: (seq<F>, S) -> CellStep<O, S>, rows: seq<seq<F>>, state: S): (outputs: seq<O>)
    ensures |outputs| == |rows|
  {
    if rows == [] then []
    else
      var step := cell(rows[0], state);
      [step.output] + Sequence(cell, rows[1..], step.next)
  }

  /**
   A chunk with no done before its last row reproduces, from the stored state, the outputs that the
   step-by-step rollout recorded.
   */
  lemma {:induction false} ChunkReproduces<F, O, S>(cell: (seq<F>, S) -> CellStep<O, S>, zero: S, start: S, rows: seq<seq<F>>,
      dones: seq<bool>, first: nat, chunk: nat, t: nat)
    requires first <= t < first + chunk <= |rows| == |dones|
    requires forall j :: first <= j < first + chunk - 1 ==> !dones[j]
    ensures Sequence(cell, rows[first..first + chunk], StateAt(cell, zero, start, rows, dones, first))[t - first]
            == cell(rows[t], StateAt(cell, zero, start, rows, dones, t)).output
    decreases chunk
  {
    if first < t {
      assert rows[first..first + chunk][1..] == rows[first + 1..first + chunk];
      ChunkReproduces(cell, zero, start, rows, dones, first + 1, chunk - 1, t);
    }
  }

  /** A cell that counts the steps since its state was zeroed. */
  function Counting(row: seq<int>, state: int): CellStep<int, int> {
    CellStep(state, state + 1)
  }

  lemma {:induction false} CountsAreNatural(start: int, rows: seq<seq<int>>, dones: seq<bool>, t: nat)
    requires start >= 0 && t <= |rows| == |dones|
    ensures StateAt(Counting, 0, start, rows, dones, t) >= 0
  {
    if t > 0 { CountsAreNatural(start, rows, dones, t - 1); }
  }

  lemma {:induction false} CountingSequence(rows: seq<seq<int>>, state: int, k: nat)
    requires k < |rows|
    ensures Sequence(Counting, rows, state)[k] == state + k
  {
    if k > 0 { CountingSequence(rows[1..], state + 1, k - 1); }
  }

  /** Any done before the last row of a chunk can make the recomputation differ. */
  lemma StaleStateDiverges(start: int, rows: seq<seq<int>>, dones: seq<bool>, first: nat, chunk: nat, t: nat)
    requires start >= 0 && first <= t < first + chunk - 1 && first + chunk <= |rows| == |dones| && dones[t]
    ensures Sequence(Counting, rows[first..first + chunk], StateAt(Counting, 0, start, rows, dones, first))[t + 1 - first]
            != Counting(rows[t + 1], StateAt(Counting, 0, start, rows, dones, t + 1)).output
  {
    CountsAreNatural(start, rows, dones, first);
    CountingSequence(rows[first..first + chunk], StateAt(Counting, 0, start, rows, dones, first), t + 1 - first);
  }

  /** Chunk `c` starts here. */
  function ChunkStart(c: nat, chunk: nat): nat {
    if c == 0 then 0 else ChunkStart(c - 1, chunk) + chunk
  }

  /** `outputs` is the recomputed chunk of every column from the state stored at `first`. */
  predicate IsRecomputed<F, O(==), S>(cell: (seq<F>, S) -> CellStep<O, S>, envs: nat, obsBuf: seq<seq<seq<F>>>, stateBuf: seq<seq<S>>,
                                   chunk: nat, first: nat, outputs: seq<seq<O>>)
    requires |obsBuf| == |stateBuf| && forall t :: 0 <= t < |obsBuf| ==> |obsBuf[t]| == |stateBuf[t]| == envs
  {
    && first < first + chunk <= |obsBuf| && |outputs| == envs
    && forall i :: 0 <= i < envs ==> outputs[i] == Sequence(cell, Column(obsBuf, i)[first..first + chunk], stateBuf[first][i])
  }

  function RecomputedChunk<F, O, S>(cell: (seq<F>, S) -> CellStep<O, S>, envs: nat, obsBuf: seq<seq<seq<F>>>, stateBuf: seq<seq<S>>,
                                    chunk: nat, first: nat): (outputs: seq<seq<O>>)
    requires |obsBuf| == |stateBuf| && forall t :: 0 <= t < |obsBuf| ==> |obsBuf[t]| == |stateBuf[t]| == envs
    requires first < first + chunk <= |obsBuf|
    ensures IsRecomputed(cell, envs, obsBuf, stateBuf, chunk, first, outputs)
  {
    seq(envs, i requires 0 <= i < envs => Sequence(cell, Column(obsBuf, i)[first..first + chunk], stateBuf[first][i]))
  }

  /** `range(0, steps_per_env - chunk + 1, chunk)` with `sequence` on every column. */
  method RecomputeChunks<F, O(==), S>(cell: (seq<F>, S) -> CellStep<O, S>, envs: nat, obsBuf: seq<seq<seq<F>>>,
                                   stateBuf: seq<seq<S>>, chunk: nat)
    returns (outputs: seq<seq<seq<O>>>)
    requires chunk > 0 && |obsBuf| == |stateBuf|
    requires forall t :: 0 <= t < |obsBuf| ==> |obsBuf[t]| == |stateBuf[t]| == envs
    ensures ChunkStart(|outputs|, chunk) <= |obsBuf| < ChunkStart(|outputs|, chunk) + chunk
    ensures forall c :: 0 <= c < |outputs| ==>
      IsRecomputed(cell, envs, obsBuf, stateBuf, chunk, ChunkStart(c, chunk), outputs[c])
  {
    hide IsRecomputed, RecomputedChunk;
    outputs := [];
    var start := 0;
    while start < |obsBuf| - chunk + 1
      invariant start == ChunkStart(|outputs|, chunk) && start <= |obsBuf|
      invariant forall c :: 0 <= c < |outputs| ==>
        IsRecomputed(cell, envs, obsBuf, stateBuf, chunk, ChunkStart(c, chunk), outputs[c])
    {
      outputs := outputs + [RecomputedChunk(cell, envs, obsBuf, stateBuf, chunk, start)];
      start := start + chunk;
    }
  }

  /**
   The update sees what the rollout saw: for every column and every chunk with no done before its
   last row, the recomputed outputs are the recorded ones.
   */
  lemma RecomputedIsRecorded<F, O, S>(cell: (seq<F>, S) -> CellStep<O, S>, zero: S, start: S, b: Buffers<F, O, S>,
      script: seq<EnvStep<F>>, envs: nat, i: nat, chunk: nat, first: nat, outputs: seq<seq<O>>, t: nat)
    requires i < envs && Sized(script, envs) && BuffersSized(b, envs, |script|)
    requires ColumnTracks(cell, zero, start, b, script, envs, i, |script|)
    requires first <= t < first + chunk <= |script|
    requires IsRecomputed(cell, envs, b.obs, b.states, chunk, first, outputs)
    requires forall j :: first <= j < first + chunk - 1 ==> !script[j].dones[i]
    ensures outputs[i][t - first] == b.outputs[t][i]
  {
    var rows, dones := Column(b.obs, i), Dones(script, i);
    assert dones[..|script|] == dones;
    ChunkReproduces(cell, zero, start, rows, dones, first, chunk, t);
  }
}
