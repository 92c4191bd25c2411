/** One tick of the game (`Game.update`): the car drives, then the camera follows
    the car where it now is, then the lap manager looks at the car where it now is. */
module GameLoop {
  import opened Geometry
  import opened Controls
  import opened CarPhysics
  import opened CameraRig
  import opened TrackData
  import opened LapCounting

  /** Everything `Game.update` changes: the car, the camera position and the lap state. */
  datatype GameState = GameState(car: CarState, camera: Vec, laps: LapState)

  /** The state `new Game()` sets up: the car parked at (0, -250) with heading 0,
      the camera at the origin, no lap counted. */
  const Start := GameState(Parked(CarStart), Origin, Initial)

  /** One `update()` on the game's track. Camera and lap manager both see the car
      after its own update of this tick. */
  function GameStep(g: GameState, k: Arrows, math: Trig): (r: GameState)
    ensures r.car == Step(g.car, k, math)
    ensures Between(r.camera.x, g.camera.x, r.car.pos.x) && Between(r.camera.y, g.camera.y, r.car.pos.y)
    ensures r.camera.x - r.car.pos.x == (1.0 - Smoothness) * (g.camera.x - r.car.pos.x)
    ensures r.camera.y - r.car.pos.y == (1.0 - Smoothness) * (g.camera.y - r.car.pos.y)
    ensures g.laps.currentLap <= r.laps.currentLap <= g.laps.currentLap + 1
    ensures r.laps.lastCross <==> r.car.pos.x > 0.0
    ensures r.laps.currentLap == g.laps.currentLap + 1 <==>
              r.car.pos.x > 0.0 && !g.laps.lastCross && r.car.speed > 1.0
  {
    var car := Step(g.car, k, math);
    EmbeddedStartLineSide(car.pos);
    GameState(car, FollowPoint(g.camera, car.pos, Smoothness),
              LapStep(g.laps, Embedded.startLine, car.pos, car.speed))
  }

  /** `update()` once per element of `ks`, first element first. */
  function GameRun(g: GameState, ks: seq<Arrows>, math: Trig): GameState
    decreases |ks|
  {
    if ks == [] then g else GameRun(GameStep(g, ks[0], math), ks[1..], math)
  }

  /** The car part of a game run is a run of the car alone: camera and laps never
      feed back into the driving. */
  lemma {:induction false} GameRunDrivesTheCar(g: GameState, ks: seq<Arrows>, math: Trig)
    ensures GameRun(g, ks, math).car == Run(g.car, ks, math)
    decreases |ks|
  {
    if ks != [] {
      GameRunDrivesTheCar(GameStep(g, ks[0], math), ks[1..], math);
    }
  }

  /** Speed grows by at most 0.15 per tick and a lap needs a speed above 1, so
      however the keys are pressed no lap can be counted during the first six
      ticks after the start. */
  lemma NoLapInTheFirstSixTicks(ks: seq<Arrows>, math: Trig)
    requires |ks| <= 6
    ensures GameRun(Start, ks, math).laps.currentLap == 0
  {
    EarlyTicksCountNoLap(Start, ks, math, 0);
  }

  /** The induction behind `NoLapInTheFirstSixTicks`, from tick `t` on. */
  lemma {:induction false} EarlyTicksCountNoLap(g: GameState, ks: seq<Arrows>, math: Trig, t: nat)
    requires Abs(g.car.speed) <= t as real * Acceleration
    requires t + |ks| <= 6
    ensures GameRun(g, ks, math).laps.currentLap == g.laps.currentLap
    decreases |ks|
  {
    if ks != [] {
      var next := GameStep(g, ks[0], math);
      RunSpeedGrowth(g.car, [ks[0]], math);
      assert Run(g.car, [ks[0]], math) == Run(next.car, [], math) == next.car;
      EarlyTicksCountNoLap(next, ks[1..], math, t + 1);
    }
  }

  /** The host's trigonometry is exact at angle 0, as every `Math.cos`/`Math.sin` is. */
  predicate ExactAtZero(math: Trig) {
    math.Cos(0.0) == 1.0 && math.Sin(0.0) == 0.0
  }

  /** Driving straight ahead from the start: heading 0, speed in `[0, 4.85)`, moving
      along `+x` on the row `y = -250` at or right of the start line, no lap, and
      the remembered side is exactly "right of the line". A car still on the line
      is at rest. */
  predicate StraightFromStart(g: GameState) {
    g.car.angle == 0.0 && 0.0 <= g.car.speed < TerminalSpeed &&
    g.car.velocity.x >= 0.0 && g.car.velocity.y == 0.0 &&
    g.car.pos.y == CarStart.y && g.car.pos.x >= 0.0 &&
    g.laps.currentLap == 0 && (g.laps.lastCross <==> g.car.pos.x > 0.0) &&
    (g.car.pos.x == 0.0 ==> g.car.speed == 0.0)
  }

  /** One tick of holding the up arrow keeps driving straight and moves the car
      strictly further right. The first tick already takes it over the line, but at
      speed `0.15 * 0.97`, too slow to count a lap. */
  lemma StraightStep(g: GameState, math: Trig)
    requires ExactAtZero(math) && StraightFromStart(g)
    ensures var r := GameStep(g, Arrows(true, false, false, false), math);
            StraightFromStart(r) && g.car.pos.x < r.car.pos.x
  {
    AcceleratingStep(g.car, math);
    var r := GameStep(g, Arrows(true, false, false, false), math);
    var s := ClampSpeed(Throttle(g.car.speed, Arrows(true, false, false, false)));
    assert s > 0.0;
    assert r.car.velocity.x == (g.car.velocity.x + s) * DriftFactor;
    assert r.car.velocity.x > 0.0;
    assert g.car.pos.x == 0.0 ==> r.car.speed <= 1.0;
  }

  /** Holding only the up arrow from the start, the car's `x` grows strictly on every
      tick while `y` stays -250 (so its distance from the origin grows strictly too),
      and no lap is ever counted: the car crosses the line on the first tick, too
      slowly, and never comes back to the other side. */
  lemma {:induction false} StraightAheadCountsNoLap(g: GameState, n: nat, math: Trig)
    requires ExactAtZero(math) && StraightFromStart(g)
    ensures StraightFromStart(GameRun(g, Accelerating(n), math))
    ensures GameRun(g, Accelerating(n), math).car.pos.x < GameRun(g, Accelerating(n + 1), math).car.pos.x
    decreases n
  {
    var next := GameStep(g, Arrows(true, false, false, false), math);
    StraightStep(g, math);
    assert Accelerating(n + 1)[1..] == Accelerating(n);
    if n > 0 {
      assert Accelerating(n)[1..] == Accelerating(n - 1);
      StraightAheadCountsNoLap(next, n - 1, math);
    } else {
      assert GameRun(next, Accelerating(0), math) == next;
    }
  }

  /** The scenario from the start position: holding the up arrow for `n` ticks
      counts no lap, and the car keeps moving right along `y = -250`. */
  lemma DrivingStraightFromStart(n: nat, math: Trig)
    requires ExactAtZero(math)
    ensures var g := GameRun(Start, Accelerating(n), math);
            g.laps.currentLap == 0 && g.car.pos.y == CarStart.y && g.car.angle == 0.0 &&
            g.car.pos.x < GameRun(Start, Accelerating(n + 1), math).car.pos.x
  {
    StraightAheadCountsNoLap(Start, n, math);
  }

  /** The `Game` object: its track, car, camera and lap manager, built once. */
  class Game {
    const track: Track
    const car: Car
    const camera: Camera
    const laps: LapManager

    /** The lap manager watches the game's own track, and the camera keeps its
        smoothness. */
    predicate Valid() {
      track == Embedded && laps.track == track && camera.smoothness == Smoothness
    }

    function State(): GameState
      reads car, camera, laps
    {
      GameState(car.State(), camera.Pos(), laps.State())
    }

    constructor ()
      ensures Valid() && State() == Start
      ensures fresh(car) && fresh(camera) && fresh(laps)
    {
      camera := new Camera();
      track := Embedded;
      car := new Car(CarStart.x, CarStart.y);
      laps := new LapManager(Embedded);
    }

    /** One frame's update, with the keys the `Input` object holds at that moment. */
    method Update(keys: map<string, bool>, math: Trig)
      requires Valid()
      modifies car, camera, laps
      ensures State() == GameStep(old(State()), ArrowsOf(keys), math)
    {
      car.Update(keys, math);
      camera.Follow(car);
      laps.Update(car);
    }
  }
}
