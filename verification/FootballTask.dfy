/**
 The football task machine: a hysteresis state machine from sightings of the ball to actions,
 with bounds that hold over every run.
 */
module FootballTask {

  datatype Phase = Search | Approach | Align | Kick | Recover

  const STAGE_DISTANCE: real := 0.27
  const STAGE_EXIT: real := 0.38
  const KICK_WINDOW: real := 0.42
  const KICK_ALIGN_ERROR: real := 0.5
  const HISTORY_LIMIT := 64
  /** `math.pi`, the double nearest to the circle number. */
  const PI: real := 3.141592653589793115997963468544185161590576171875

  // ----- Small helpers -----

  function Clamp(x: real): (r: real)
    ensures -1.0 <= r <= 1.0 && (-1.0 <= x <= 1.0 ==> r == x)
  {
    if x > 1.0 then 1.0 else if x < -1.0 then -1.0 else x
  }

  function Abs(x: real): real {
    if x < 0.0 then -x else x
  }

  function Turns(n: int): real {
    n as real * (2.0 * PI)
  }

  /** Equal up to full turns. */
  ghost predicate SameDirection(a: real, b: real) {
    exists n :: a == b + Turns(n)
  }

  /** `_wrap_angle`: the same direction, named between `-PI` and `PI`. */
  method WrapAngle(angle: real) returns (r: real)
    ensures -PI <= r <= PI && SameDirection(r, angle)
    ensures -PI <= angle <= PI ==> r == angle
  {
    r := angle;
    ghost var n: int := 0;
    while r > PI
      invariant r == angle + Turns(n) && (n == 0 || r > -PI)
      invariant -PI <= angle <= PI ==> n == 0
      decreases r
    {
      r, n := r - 2.0 * PI, n - 1;
    }
    while r < -PI
      invariant r == angle + Turns(n) && r <= PI
      invariant -PI <= angle <= PI ==> n == 0
      decreases -r
    {
      r, n := r + 2.0 * PI, n + 1;
    }
  }

  // ----- One tick on a sighting -----

  /** What a tick sees: ball distance, heading error to the stance, error to the shot line. */
  datatype Sight = Sight(distance: real, headingError: real, alignError: real)

  datatype Action = Action(forward: real, strafe: real, turn: real, kick: real)

  datatype Machine = Machine(phase: Phase, stepsInPhase: nat, kicks: nat, history: seq<Phase>)

  const START := Machine(Search, 0, 0, [])

  function LastEntries(log: seq<Phase>): seq<Phase> {
    if |log| > HISTORY_LIMIT then log[|log| - HISTORY_LIMIT..] else log
  }

  function Switched(m: Machine, phase: Phase): Machine {
    if phase == m.phase then m
    else m.(phase := phase, stepsInPhase := 0, history := LastEntries(m.history + [phase]))
  }

  predicate KickAllowed(s: Sight) {
    s.alignError <= KICK_ALIGN_ERROR && s.distance <= KICK_WINDOW
  }

  /** The machine after the phase logic and the unclamped command. */
  function Decide(m: Machine, s: Sight): (Machine, Action) {
    match m.phase
    case Search =>
      (Switched(m, Approach), Action(if s.distance > 1.5 then 0.4 else 0.0, 0.0, Clamp(s.headingError * 2.0), 0.0))
    case Approach =>
      (if s.distance <= STAGE_DISTANCE + 0.06 then Switched(m, Align) else m,
       Action(Clamp(s.distance * 1.6), 0.0, Clamp(s.headingError * 2.0), 0.0))
    case Align =>
      var forward, strafe := Clamp((s.distance - STAGE_DISTANCE) * 1.2), Clamp(-s.headingError * 1.5);
      if s.distance > STAGE_EXIT then (Switched(m, Approach), Action(forward, strafe, 0.0, 0.0))
      else if KickAllowed(s) then
        (Switched(m.(kicks := m.kicks + 1), Recover), Action(forward, strafe, 0.0, 1.0))
      else (m, Action(forward, strafe, 0.0, 0.0))
    case Kick =>
      if KickAllowed(s) then (Switched(m.(kicks := m.kicks + 1), Recover), Action(0.0, 0.0, 0.0, 1.0))
      else (Switched(m, Recover), Action(0.0, 0.0, 0.0, 0.0))
    case Recover =>
      (if s.distance > STAGE_EXIT then Switched(m, Approach) else m,
       Action(-0.5, Clamp(-s.headingError * 1.0), 0.0, 0.0))
  }

  function Tick(m: Machine, s: Sight): Machine {
    var next := Decide(m, s).0;
    next.(stepsInPhase := next.stepsInPhase + 1)
  }

  function Command(m: Machine, s: Sight): Action {
    var a := Decide(m, s).1;
    Action(Clamp(a.forward), Clamp(a.strafe), Clamp(a.turn), a.kick)
  }

  // ----- The machine as an object -----

  /** The library functions the geometry rests on. */
  datatype Geometry = Geometry(hypot: (real, real) -> real, atan2: (real, real) -> real)

  datatype Point = Point(x: real, y: real)

  function Normalize(g: Geometry, v: Point): Point {
    var norm := g.hypot(v.x, v.y);
    if norm < 0.000000001 then Point(0.0, 0.0) else Point(v.x / norm, v.y / norm)
  }

  /** The unit vector from the ball to the goal. */
  function GoalDirection(g: Geometry, goal: Point, ball: Point): Point {
    Normalize(g, Point(goal.x - ball.x, goal.y - ball.y))
  }

  /** The stance behind the ball. */
  function Stage(g: Geometry, goal: Point, ball: Point): Point {
    var d := GoalDirection(g, goal, ball);
    Point(ball.x - d.x * STAGE_DISTANCE, ball.y - d.y * STAGE_DISTANCE)
  }

  /** The bearing from the duck to the stance. */
  function StageBearing(g: Geometry, goal: Point, duck: Point, ball: Point): real {
    var stage := Stage(g, goal, ball);
    var toStage := Normalize(g, Point(stage.x - duck.x, stage.y - duck.y));
    g.atan2(toStage.y, toStage.x)
  }

  function ShotBearing(g: Geometry, goal: Point, ball: Point): real {
    g.atan2(GoalDirection(g, goal, ball).y, GoalDirection(g, goal, ball).x)
  }

  /** A sighting of the world: distance, and angles off the two bearings. */
  ghost predicate Sees(g: Geometry, goal: Point, duck: Point, heading: real, ball: Point, s: Sight) {
    && s.distance == g.hypot(ball.x - duck.x, ball.y - duck.y)
    && -PI <= s.headingError <= PI && SameDirection(s.headingError, StageBearing(g, goal, duck, ball) - heading)
    && 0.0 <= s.alignError <= PI
    && (|| SameDirection(s.alignError, ShotBearing(g, goal, ball) - heading)
        || SameDirection(-s.alignError, ShotBearing(g, goal, ball) - heading))
  }

  /**
   The stance lies on the line through goal and ball, on the far side of the ball: seen from the ball, it
   is the way to the goal reversed and scaled to the staging distance.
   */
  lemma StageIsBehindBall(g: Geometry, goal: Point, ball: Point)
    requires g.hypot(goal.x - ball.x, goal.y - ball.y) >= 0.000000001
    ensures
      var stage, distance := Stage(g, goal, ball), g.hypot(goal.x - ball.x, goal.y - ball.y);
      && (stage.x - ball.x) * distance == STAGE_DISTANCE * (ball.x - goal.x)
      && (stage.y - ball.y) * distance == STAGE_DISTANCE * (ball.y - goal.y)
  {
    var distance := g.hypot(goal.x - ball.x, goal.y - ball.y);
    Reversed(goal.x - ball.x, distance);
    Reversed(goal.y - ball.y, distance);
  }

  lemma Reversed(way: real, distance: real)
    requires distance > 0.0
    ensures (-(way / distance * STAGE_DISTANCE)) * distance == STAGE_DISTANCE * -way
  {
    var u := way / distance;
    assert u * distance == way;
    assert (-(u * STAGE_DISTANCE)) * distance == -STAGE_DISTANCE * (u * distance);
  }

  class FootballTaskMachine {
    const goal: Point
    const geometry: Geometry
    var phase: Phase
    var stepsInPhase: nat
    var kicks: nat
    var history: seq<Phase>

    function State(): Machine
      reads this
    {
      Machine(phase, stepsInPhase, kicks, history)
    }

    constructor (goal: Point, geometry: Geometry)
      ensures State() == START
    {
      this.goal, this.geometry := goal, geometry;
      phase, stepsInPhase, kicks, history := Search, 0, 0, [];
    }

    method Switch(next: Phase)
      modifies this`phase, this`stepsInPhase, this`history
      ensures State() == Switched(old(State()), next)
    {
      if next != phase {
        phase, stepsInPhase := next, 0;
        history := history + [next];
        if |history| > HISTORY_LIMIT {
          history := history[|history| - HISTORY_LIMIT..];
        }
      }
    }

    method Look(duck: Point, heading: real, ball: Point) returns (s: Sight)
      ensures Sees(geometry, goal, duck, heading, ball, s)
    {
      var distance := geometry.hypot(ball.x - duck.x, ball.y - duck.y);
      var headingError := WrapAngle(StageBearing(geometry, goal, duck, ball) - heading);
      var alignError := WrapAngle(ShotBearing(geometry, goal, ball) - heading);
      assert alignError < 0.0 ==> -Abs(alignError) == alignError;
      s := Sight(distance, headingError, Abs(alignError));
    }

    /** One decision tick; the sighting is returned for the record only. */
    method Step(duck: Point, heading: real, ball: Point) returns (a: Action, ghost s: Sight)
      modifies this
      ensures Sees(geometry, goal, duck, heading, ball, s)
      ensures State() == Tick(old(State()), s) && a == Command(old(State()), s)
    {
      var sight := Look(duck, heading, ball);
      s := sight;
      a := StepOn(sight);
    }

    method StepOn(s: Sight) returns (a: Action)
      modifies this
      ensures State() == Tick(old(State()), s) && a == Command(old(State()), s)
    {
      var forward, strafe, turn, kick := 0.0, 0.0, 0.0, 0.0;
      match phase {
        case Search =>
          turn := Clamp(s.headingError * 2.0);
          forward := if s.distance > 1.5 then 0.4 else 0.0;
          Switch(Approach);
        case Approach =>
          turn := Clamp(s.headingError * 2.0);
          forward := Clamp(s.distance * 1.6);
          if s.distance <= STAGE_DISTANCE + 0.06 { Switch(Align); }
        case Align =>
          strafe := Clamp(-s.headingError * 1.5);
          forward := Clamp((s.distance - STAGE_DISTANCE) * 1.2);
          if s.distance > STAGE_EXIT {
            Switch(Approach);
          } else if KickAllowed(s) {
            kick := 1.0;
            kicks := kicks + 1;
            Switch(Recover);
          }
        case Kick =>
          kick := if KickAllowed(s) then 1.0 else 0.0;
          if kick > 0.0 { kicks := kicks + 1; }
          Switch(Recover);
        case Recover =>
          forward := -0.5;
          strafe := Clamp(-s.headingError * 1.0);
          if s.distance > STAGE_EXIT { Switch(Approach); }
      }
      stepsInPhase := stepsInPhase + 1;
      a := Action(Clamp(forward), Clamp(strafe), Clamp(turn), kick);
    }
  }

  // ----- Whole runs, from the default start -----

  /** The machine after the first `n` sightings. */
  function After(sights: seq<Sight>, n: nat): Machine
    requires n <= |sights|
  {
    if n == 0 then START else Tick(After(sights, n - 1), sights[n - 1])
  }

  predicate KicksAt(sights: seq<Sight>, i: nat)
    requires i < |sights|
  {
    Command(After(sights, i), sights[i]).kick == 1.0
  }

  function KickCount(sights: seq<Sight>, n: nat): nat
    requires n <= |sights|
  {
    if n == 0 then 0 else KickCount(sights, n - 1) + if KicksAt(sights, n - 1) then 1 else 0
  }

  /** Ticks that have surely passed since the last kick. */
  function Lead(p: Phase): nat {
    match p
    case Approach => 1
    case Align => 2
    case _ => 0
  }

  lemma TickCounts(m: Machine, s: Sight)
    requires m.phase != Kick
    ensures Tick(m, s).phase != Kick && Tick(m, s).phase != Search
    ensures Tick(m, s).kicks == m.kicks + if Command(m, s).kick == 1.0 then 1 else 0
    ensures 3 * Tick(m, s).kicks + Lead(Tick(m, s).phase) <= 3 * m.kicks + Lead(m.phase) + 1
    ensures Tick(m, s).history ==
      if Tick(m, s).phase == m.phase then m.history else LastEntries(m.history + [Tick(m, s).phase])
  {
  }

  /** From the default start the kick phase is never entered, and the search is over after one tick. */
  lemma {:induction false} KickPhaseIsDead(sights: seq<Sight>, n: nat)
    requires n <= |sights|
    ensures After(sights, n).phase != Kick && (After(sights, n).phase == Search <==> n == 0)
  {
    if n > 0 {
      KickPhaseIsDead(sights, n - 1);
      TickCounts(After(sights, n - 1), sights[n - 1]);
    }
  }

  /** Kicks are counted, and each costs three ticks. */
  lemma {:induction false} KicksAreRare(sights: seq<Sight>, n: nat)
    requires n <= |sights|
    ensures After(sights, n).kicks == KickCount(sights, n)
    ensures 3 * After(sights, n).kicks + Lead(After(sights, n).phase) <= n
  {
    hide Tick, Command;
    if n > 0 {
      KicksAreRare(sights, n - 1);
      KickPhaseIsDead(sights, n - 1);
      TickCounts(After(sights, n - 1), sights[n - 1]);
    }
  }

  lemma KicksAtMostEveryThirdTick(sights: seq<Sight>)
    ensures 3 * KickCount(sights, |sights|) <= |sights|
  {
    KicksAreRare(sights, |sights|);
  }

  /** A kick is released exactly in the stance: aligned, and inside the exit radius. */
  lemma KickExactly(sights: seq<Sight>, i: nat)
    requires i < |sights|
    ensures KicksAt(sights, i) <==>
      After(sights, i).phase == Align && sights[i].distance <= STAGE_EXIT && sights[i].alignError <= KICK_ALIGN_ERROR
  {
    KickPhaseIsDead(sights, i);
  }

  lemma ActionsStayNormal(m: Machine, s: Sight)
    ensures
      var a := Command(m, s);
      -1.0 <= a.forward <= 1.0 && -1.0 <= a.strafe <= 1.0 && -1.0 <= a.turn <= 1.0 && (a.kick == 0.0 || a.kick == 1.0)
  {
    match m.phase case _ =>
  }

  /** When each phase is entered or kept, after the first tick. */
  lemma PhasesExactly(sights: seq<Sight>, i: nat)
    requires 0 < i < |sights|
    ensures
      var before, after, s := After(sights, i).phase, After(sights, i + 1).phase, sights[i];
      var close, lost := s.distance <= 0.33, s.distance > 0.38;
      && (after == Approach <==> (before == Approach && !close) || (before != Approach && lost))
      && (after == Align <==> (before == Approach && close) || (before == Align && !lost && !KicksAt(sights, i)))
      && (after == Recover <==> KicksAt(sights, i) || (before == Recover && !lost))
  {
    KickPhaseIsDead(sights, i);
  }

  // ----- Where a command drives -----

  /** The command is the share of the error in `full`, and at full strength beyond `full`. */
  predicate Steers(command: real, error: real, full: real) {
    && (-full <= error <= full ==> command * full == error)
    && (error > full ==> command == 1.0)
    && (error < -full ==> command == -1.0)
  }

  /**
   On the way to the ball the duck turns towards the stance; in the stance it steps sideways against the
   heading error and keeps the staging distance, and after a kick it backs off.
   */
  lemma CommandsSteer(m: Machine, s: Sight)
    ensures
      var a := Command(m, s);
      match m.phase {
        case Search =>
          && Steers(a.turn, s.headingError, 0.5) && a.strafe == 0.0
          && a.forward == if s.distance > 1.5 then 0.4 else 0.0
        case Approach => Steers(a.turn, s.headingError, 0.5) && a.strafe == 0.0 && Steers(a.forward, s.distance, 0.625)
        case Align =>
          && a.turn == 0.0 && Steers(a.strafe, -s.headingError, 2.0 / 3.0)
          && Steers(a.forward, s.distance - STAGE_DISTANCE, 5.0 / 6.0)
        case Kick => a.turn == a.strafe == a.forward == 0.0
        case Recover => a.turn == 0.0 && Steers(a.strafe, -s.headingError, 1.0) && a.forward == -0.5
      }
  {
    hide Switched, KickAllowed;
  }

  /** `turn` drives the error towards zero and, in half a second, not past it. */
  lemma TurnWithin(turn: real, e: real, seconds: real)
    requires Steers(turn, e, 0.5) && 0.0 < seconds <= 0.5
    ensures e > 0.0 ==> 0.0 < seconds * turn <= e
    ensures e < 0.0 ==> e <= seconds * turn < 0.0
    ensures e == 0.0 ==> turn == 0.0
  {
    if e > 0.5 {
      assert seconds * turn == seconds;
    } else if e < -0.5 {
      assert seconds * turn == -seconds;
    } else if e > 0.0 {
      PartOf(seconds, turn);
    } else if e < 0.0 {
      PartOf(seconds, -turn);
      assert seconds * -turn == -(seconds * turn);
    }
  }

  lemma PartOf(seconds: real, turn: real)
    requires 0.0 < seconds <= 0.5 && turn > 0.0
    ensures 0.0 < seconds * turn <= turn * 0.5
  {
    assert (0.5 - seconds) * turn >= 0.0;
    assert (0.5 - seconds) * turn == turn * 0.5 - seconds * turn;
  }

  lemma Closer(e: real, d: real)
    requires if e > 0.0 then 0.0 < d <= e else if e < 0.0 then e <= d < 0.0 else d == 0.0
    ensures Abs(e - d) <= Abs(e) && (e != 0.0 ==> Abs(e - d) < Abs(e))
  {
  }

  /** A turn of at most half a second at the commanded rate brings the heading closer to the stance. */
  lemma TurnClosesIn(m: Machine, s: Sight, seconds: real)
    requires (m.phase == Search || m.phase == Approach) && 0.0 < seconds <= 0.5
    ensures
      var left := s.headingError - seconds * Command(m, s).turn;
      Abs(left) <= Abs(s.headingError) && (s.headingError != 0.0 ==> Abs(left) < Abs(s.headingError))
  {
    hide Command;
    CommandsSteer(m, s);
    var e, turn := s.headingError, Command(m, s).turn;
    TurnWithin(turn, e, seconds);
    Closer(e, seconds * turn);
  }

  /** From recovery to a kick at `j`, some tick loses the ball beyond the exit radius. */
  lemma {:induction false} LeavesStance(sights: seq<Sight>, i: nat, j: nat) returns (a: nat)
    requires i <= j < |sights| && After(sights, i).phase == Recover && KicksAt(sights, j)
    ensures i <= a < j && sights[a].distance > STAGE_EXIT && After(sights, a + 1).phase == Approach
    decreases j - i
  {
    hide Command;
    KickExactly(sights, j);
    if sights[i].distance > STAGE_EXIT {
      a := i;
    } else {
      a := LeavesStance(sights, i + 1, j);
    }
  }

  /** From the approach to a kick at `j`, some tick comes within the stance again. */
  lemma {:induction false} EntersStance(sights: seq<Sight>, i: nat, j: nat) returns (b: nat)
    requires i <= j < |sights| && After(sights, i).phase == Approach && KicksAt(sights, j)
    ensures i <= b < j && sights[b].distance <= STAGE_DISTANCE + 0.06
    decreases j - i
  {
    KickExactly(sights, j);
    if sights[i].distance <= STAGE_DISTANCE + 0.06 {
      b := i;
    } else {
      b := EntersStance(sights, i + 1, j);
    }
  }

  lemma KickRecovers(sights: seq<Sight>, i: nat)
    requires i < |sights| && KicksAt(sights, i)
    ensures After(sights, i + 1).phase == Recover
  {
    KickExactly(sights, i);
  }

  /** Hysteresis: between two kicks the ball leaves the exit radius and is approached anew. */
  lemma BetweenKicks(sights: seq<Sight>, i: nat, j: nat) returns (a: nat, b: nat)
    requires i < j < |sights| && KicksAt(sights, i) && KicksAt(sights, j)
    ensures i < a < b < j && sights[a].distance > STAGE_EXIT && sights[b].distance <= STAGE_DISTANCE + 0.06
  {
    hide After, KicksAt;
    KickRecovers(sights, i);
    a := LeavesStance(sights, i + 1, j);
    b := EntersStance(sights, a + 1, j);
  }

  /** Every phase the machine has switched to, oldest first. */
  function SwitchLog(sights: seq<Sight>, n: nat): seq<Phase>
    requires n <= |sights|
  {
    if n == 0 then []
    else
      var before, now := After(sights, n - 1).phase, After(sights, n).phase;
      SwitchLog(sights, n - 1) + if before == now then [] else [now]
  }

  /** The kept history is the end of the full log. */
  lemma {:induction false} HistoryIsEndOfLog(sights: seq<Sight>, n: nat)
    requires n <= |sights|
    ensures After(sights, n).history == LastEntries(SwitchLog(sights, n))
  {
    hide Tick, LastEntries;
    if n > 0 {
      HistoryIsEndOfLog(sights, n - 1);
      KickPhaseIsDead(sights, n - 1);
      HistoryStep(After(sights, n - 1), sights[n - 1], SwitchLog(sights, n - 1));
    } else {
      NoEntries();
    }
  }

  lemma NoEntries()
    ensures LastEntries([]) == []
  {
  }

  lemma HistoryStep(m: Machine, s: Sight, log: seq<Phase>)
    requires m.phase != Kick && m.history == LastEntries(log)
    ensures Tick(m, s).history ==
      LastEntries(log + if m.phase == Tick(m, s).phase then [] else [Tick(m, s).phase])
  {
    TickCounts(m, s);
    LastOfLast(log, Tick(m, s).phase);
    assert log + [] == log;
  }

  lemma LastOfLast(log: seq<Phase>, p: Phase)
    ensures LastEntries(LastEntries(log) + [p]) == LastEntries(log + [p])
  {
  }
}
