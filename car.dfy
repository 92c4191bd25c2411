/** The car's per-tick kinematics (`Car.update`): throttle, speed clamp, speed-scaled
    steering, accumulated and damped velocity, position integration, friction.
    `Math.cos` and `Math.sin` come in as a `Trig` value: nothing proved here depends
    on what they return. */
module CarPhysics {
  import opened Geometry
  import opened Controls

  // The tuning that the `Car` constructor gives every car; nothing changes it later.
  const MaxSpeed := 6.0
  const Acceleration := 0.15
  const TurnSpeed := 0.045
  const Friction := 0.97
  const DriftFactor := 0.85

  /** Braking / reversing is 0.7 times as strong as forward thrust. */
  const BrakeRatio := 0.7

  /** The lowest speed the clamp allows: reverse top speed is half the forward one. */
  const MinSpeed := -MaxSpeed / 2.0

  /** The speed interval `[-maxSpeed/2, maxSpeed]` that every update ends inside. */
  predicate SpeedInBounds(s: real) {
    MinSpeed <= s <= MaxSpeed
  }

  /** Everything `Car.update` reads or writes: position, heading, speed, velocity. */
  datatype CarState = CarState(pos: Vec, angle: real, speed: real, velocity: Vec)

  /** The state of a car built by `new Car(x, y)`: heading 0, at rest. */
  function Parked(at: Vec): CarState {
    CarState(at, 0.0, 0.0, Origin)
  }

  /** Step 1: the up arrow adds `acceleration`, the down arrow takes away `0.7 * acceleration`. */
  function Throttle(speed: real, k: Arrows): (r: real)
    ensures speed - Acceleration * BrakeRatio <= r <= speed + Acceleration
    ensures !k.up && !k.down ==> r == speed
    ensures k.up && !k.down ==> r > speed
    ensures k.down && !k.up ==> r < speed
    ensures k.up && !k.down ==> r == speed + Acceleration
    ensures k.down && !k.up ==> r == speed - Acceleration * BrakeRatio
    ensures k.up && k.down ==> r == speed + Acceleration - Acceleration * BrakeRatio
  {
    var s := if k.up then speed + Acceleration else speed;
    if k.down then s - Acceleration * BrakeRatio else s
  }

  /** Step 2: `Math.max(Math.min(speed, maxSpeed), -maxSpeed / 2)`. */
  function ClampSpeed(s: real): (r: real)
    ensures SpeedInBounds(r)
    ensures SpeedInBounds(s) ==> r == s
    ensures s > MaxSpeed ==> r == MaxSpeed
    ensures s < MinSpeed ==> r == MinSpeed
    ensures Abs(r) <= Abs(s)
  {
    Max(Min(s, MaxSpeed), -MaxSpeed / 2.0)
  }

  /** Step 3: `Math.min(Math.abs(speed) / maxSpeed, 1)`, the steering authority. */
  function TurnInfluence(s: real): (r: real)
    ensures 0.0 <= r <= 1.0
    ensures r == 0.0 <==> s == 0.0
    ensures Abs(s) >= MaxSpeed ==> r == 1.0
    ensures Abs(s) <= MaxSpeed ==> r * MaxSpeed == Abs(s)
  {
    Min(Abs(s) / MaxSpeed, 1.0)
  }

  /** Step 4: the left arrow turns by `-turnSpeed * influence`, the right one by `+turnSpeed * influence`. */
  function Steer(angle: real, influence: real, k: Arrows): (r: real)
    requires 0.0 <= influence <= 1.0
    ensures angle - TurnSpeed <= r <= angle + TurnSpeed
    ensures influence == 0.0 || k.left == k.right ==> r == angle
    ensures k.left && !k.right ==> r == angle - TurnSpeed * influence
    ensures k.right && !k.left ==> r == angle + TurnSpeed * influence
  {
    var turn := TurnSpeed * influence;
    var a := if k.left then angle - turn else angle;
    if k.right then a + turn else a
  }

  /** Steps 5 and 6: the heading's unit vector, scaled by the speed, is added to the
      velocity (velocity accumulates: this is what makes the car drift). */
  function Push(v: Vec, angle: real, s: real, math: Trig): Vec {
    Vec(v.x + math.Cos(angle) * s, v.y + math.Sin(angle) * s)
  }

  /** Step 7: the accumulated velocity is damped by `driftFactor`. */
  function Drift(v: Vec): Vec {
    Vec(v.x * DriftFactor, v.y * DriftFactor)
  }

  /** Step 8: the position moves by the velocity. */
  function Move(p: Vec, v: Vec): Vec {
    Vec(p.x + v.x, p.y + v.y)
  }

  /** Step 9: friction scales the clamped speed; it stays in bounds and shrinks in magnitude. */
  function Decay(s: real): (r: real)
    ensures SpeedInBounds(s) ==> SpeedInBounds(r)
    ensures Abs(r) <= Abs(s)
    ensures s > 0.0 ==> 0.0 < r < s
    ensures s < 0.0 ==> s < r < 0.0
  {
    s * Friction
  }

  /** One call of `Car.update(input)` on the state `c`, with the host's trigonometry `math`. */
  function Step(c: CarState, k: Arrows, math: Trig): (r: CarState)
    ensures SpeedInBounds(r.speed)
    ensures c.angle - TurnSpeed <= r.angle <= c.angle + TurnSpeed
    ensures r.pos == Move(c.pos, r.velocity)
  {
    var s := ClampSpeed(Throttle(c.speed, k));
    var angle := Steer(c.angle, TurnInfluence(s), k);
    var velocity := Drift(Push(c.velocity, angle, s, math));
    CarState(Move(c.pos, velocity), angle, Decay(s), velocity)
  }

  /** With no key held, the new speed is the old one clamped first and decayed by
      `friction` second; an in-range speed therefore only decays. */
  lemma CoastingSpeed(c: CarState, math: Trig)
    ensures Step(c, NoArrows, math).speed == ClampSpeed(c.speed) * Friction
    ensures SpeedInBounds(c.speed) ==> Step(c, NoArrows, math).speed == c.speed * Friction
  {
  }

  /** The order of clamp and friction is observable: a car whose speed is 10 coasts
      to `6 * 0.97`, whereas clamping `10 * 0.97` would give 6. */
  lemma ClampComesBeforeFriction(c: CarState, math: Trig)
    requires c.speed == 10.0
    ensures Step(c, NoArrows, math).speed == 5.82
    ensures ClampSpeed(c.speed * Friction) == 6.0
  {
  }

  /** The heading changes only when exactly one turn key is held and the clamped
      speed is not zero (so the speed after friction is not zero either). */
  lemma HeadingKeptUnlessSteering(c: CarState, k: Arrows, math: Trig)
    ensures ClampSpeed(Throttle(c.speed, k)) == 0.0 || k.left == k.right ==>
              Step(c, k, math).angle == c.angle
    ensures Step(c, k, math).angle != c.angle ==>
              k.left != k.right && Step(c, k, math).speed != 0.0
  {
  }

  /** A car at rest with no key held stays exactly as it is, whatever cos and sin return. */
  lemma RestIsAFixedPoint(c: CarState, math: Trig)
    requires c.speed == 0.0 && c.velocity == Origin
    ensures Step(c, NoArrows, math) == c
  {
  }

  /** `Car.update` applied once per element of `ks`, first element first. */
  function Run(c: CarState, ks: seq<Arrows>, math: Trig): CarState
    decreases |ks|
  {
    if ks == [] then c else Run(Step(c, ks[0], math), ks[1..], math)
  }

  /** For every sequence of ticks the speed ends in `[-maxSpeed/2, maxSpeed]`
      (after at least one tick, or from any start that already lies inside). */
  lemma {:induction false} RunKeepsSpeedInBounds(c: CarState, ks: seq<Arrows>, math: Trig)
    requires ks != [] || SpeedInBounds(c.speed)
    ensures SpeedInBounds(Run(c, ks, math).speed)
    decreases |ks|
  {
    if ks != [] {
      RunKeepsSpeedInBounds(Step(c, ks[0], math), ks[1..], math);
    }
  }

  /** Speed magnitude grows by at most `acceleration` per tick: the clamp and the
      friction only ever pull it toward zero. */
  lemma {:induction false} RunSpeedGrowth(c: CarState, ks: seq<Arrows>, math: Trig)
    ensures Abs(Run(c, ks, math).speed) <= Abs(c.speed) + |ks| as real * Acceleration
    decreases |ks|
  {
    if ks != [] {
      var next := Step(c, ks[0], math);
      assert Abs(next.speed) <= Abs(c.speed) + Acceleration;
      RunSpeedGrowth(next, ks[1..], math);
    }
  }

  /** `n` ticks of holding only the up arrow. */
  function Accelerating(n: nat): (ks: seq<Arrows>)
    ensures |ks| == n
    ensures forall i :: 0 <= i < n ==> ks[i] == Arrows(true, false, false, false)
  {
    if n == 0 then [] else [Arrows(true, false, false, false)] + Accelerating(n - 1)
  }

  /** The speed a car approaches when the up arrow is held forever: the fixed point
      of `s -> (s + 0.15) * 0.97`, which lies below `maxSpeed`. */
  const TerminalSpeed := 4.85

  /** One tick of holding the up arrow from a speed in `[0, 4.85)`: the speed rises
      strictly, stays below 4.85 (so the `maxSpeed` clamp never engages) and the
      heading does not change. */
  lemma AcceleratingStep(c: CarState, math: Trig)
    requires 0.0 <= c.speed < TerminalSpeed
    ensures var r := Step(c, Arrows(true, false, false, false), math);
            c.speed < r.speed < TerminalSpeed && r.angle == c.angle
  {
  }

  /** Holding the up arrow from rest or from any speed below 4.85: the speed rises
      strictly on every tick and never reaches 4.85. */
  lemma {:induction false} AcceleratingRun(c: CarState, n: nat, math: Trig)
    requires 0.0 <= c.speed < TerminalSpeed
    ensures var r := Run(c, Accelerating(n), math);
            c.speed <= r.speed < TerminalSpeed && r.angle == c.angle &&
            (n > 0 ==> c.speed < r.speed)
    ensures Run(c, Accelerating(n), math).speed < Run(c, Accelerating(n + 1), math).speed
    decreases n
  {
    var next := Step(c, Arrows(true, false, false, false), math);
    AcceleratingStep(c, math);
    assert Accelerating(n + 1)[1..] == Accelerating(n);
    if n > 0 {
      assert Accelerating(n)[1..] == Accelerating(n - 1);
      AcceleratingRun(next, n - 1, math);
    } else {
      assert Run(next, Accelerating(0), math) == next;
    }
  }

  /** The `Car` object: position, heading, speed and velocity, all changed in place
      by `Update`. Its tuning fields are the constants above. */
  class Car {
    var x: real
    var y: real
    var angle: real
    var speed: real
    var velocity: Vec

    function Pos(): Vec
      reads this
    {
      Vec(x, y)
    }

    function State(): CarState
      reads this
    {
      CarState(Vec(x, y), angle, speed, velocity)
    }

    constructor (x: real, y: real)
      ensures State() == Parked(Vec(x, y))
    {
      this.x := x;
      this.y := y;
      angle := 0.0;
      speed := 0.0;
      velocity := Origin;
    }

    /** One tick of driving with the keys held in `keys`: the statements of the
        source's `update`, in its order, in four steps. */
    method Update(keys: map<string, bool>, math: Trig)
      modifies this
      ensures State() == Step(old(State()), ArrowsOf(keys), math)
      ensures SpeedInBounds(speed)
    {
      ApplyThrottle(keys);
      ApplySteering(keys);
      Integrate(math);
      speed := speed * Friction;
    }

    /** Throttle and clamp: the first four statements of `update`. */
    method ApplyThrottle(keys: map<string, bool>)
      modifies this`speed
      ensures speed == ClampSpeed(Throttle(old(speed), ArrowsOf(keys)))
    {
      if Held(keys, "ArrowUp") { speed := speed + Acceleration; }
      if Held(keys, "ArrowDown") { speed := speed - Acceleration * BrakeRatio; }

      speed := Max(Min(speed, MaxSpeed), -MaxSpeed / 2.0);
    }

    /** Speed-scaled steering on the already clamped speed. */
    method ApplySteering(keys: map<string, bool>)
      modifies this`angle
      ensures angle == Steer(old(angle), TurnInfluence(speed), ArrowsOf(keys))
    {
      var turnInfluence := Min(Abs(speed) / MaxSpeed, 1.0);
      if Held(keys, "ArrowLeft") { angle := angle - TurnSpeed * turnInfluence; }
      if Held(keys, "ArrowRight") { angle := angle + TurnSpeed * turnInfluence; }
    }

    /** Velocity accumulation, drift damping and position integration. */
    method Integrate(math: Trig)
      modifies this`velocity, this`x, this`y
      ensures velocity == Drift(Push(old(velocity), angle, speed, math))
      ensures Pos() == Move(old(Pos()), velocity)
    {
      var forwardX := math.Cos(angle);
      var forwardY := math.Sin(angle);

      velocity := Vec(velocity.x + forwardX * speed, velocity.y + forwardY * speed);
      velocity := Vec(velocity.x * DriftFactor, velocity.y * DriftFactor);

      x := x + velocity.x;
      y := y + velocity.y;
    }
  }
}
