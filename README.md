# drift-racer: the per-tick simulation, modelled in Dafny

drift-racer is a top-down drift-racing toy that runs in the browser. On each frame
`Game.update` does three things, in this order:

1. The `Car` applies the arrow keys to its speed and heading. It clamps the speed
   to `[-maxSpeed/2, maxSpeed]`, adds its heading vector times its speed to its
   velocity, damps the velocity by `driftFactor`, moves by the velocity and decays
   the speed by `friction`.
2. The `Camera` moves a fixed fraction (`smoothness = 0.08`) of the way toward the
   car.
3. The `LapManager` counts a lap when the car goes from the non-positive side of
   the start line to its positive side faster than 1.

The model has one module per part of the game:

- `Geometry`: points, `min`/`max`/`abs`, and the host's `Math.cos`/`Math.sin`. These
  two come in as a `Trig` value.
- `Controls`: the `Input` object's key map. A key that is absent counts as not held.
- `CarPhysics`: the `Car` class. Its `Update` is proved equal to the pure
  function `Step`, and the speed, steering and run properties are proved about
  `Step`.
- `CameraRig`: the `Camera` class. Its `Follow` is proved equal to `FollowPoint`,
  and the no-overshoot and convergence properties are proved about `Approach`.
- `TrackData`: the immutable track record, the game's built-in track and the car's
  start point.
- `LapCounting`: the `LapManager` class. Its `Update` is proved equal to
  `LapStep`. The rising-edge counting of whole runs and the side test of the
  built-in track are proved about `LapStep`.
- `GameLoop`: the `Game` class. Its `Update` is proved equal to `GameStep`, which
  composes the three steps above. There are also scenarios starting from the
  game's initial state.

Every number is a mathematical real, except the lap counts, which are integers.

## Model

| member | source | states |
|---|---|---|
| `Controls.ArrowsOf` | drift-racer/main.js:38-48 | an arrow counts as held exactly when its key is in the map with value true: a key mapped to true is held, and an absent key or one explicitly released is not |
| `Controls.ReleasedKeysAreNoArrows` | drift-racer/main.js:38-48 | a map where no key is true (including the empty map) drives exactly like no keys |
| `CarPhysics.Throttle` | drift-racer/main.js:38-39 | up alone adds exactly 0.15, down alone subtracts exactly 0.105, both together add 0.045, and no key leaves the speed unchanged; so the speed moves by at most +0.15 or -0.105 |
| `CarPhysics.ClampSpeed` | drift-racer/main.js:41-44 | the result lies in `[-3, 6]`; it is the identity inside that range; it is 6 above and -3 below; it never increases the magnitude |
| `CarPhysics.TurnInfluence` | drift-racer/main.js:46 | the steering authority lies in `[0, 1]`; up to `maxSpeed` it equals `abs(speed) / maxSpeed`, so it is 0 exactly when the speed is 0; it is 1 at or beyond `maxSpeed` |
| `CarPhysics.Steer` | drift-racer/main.js:47-48 | the heading moves by at most `turnSpeed`; it is unchanged with zero authority or with both or neither turn key; left subtracts and right adds `turnSpeed * influence` |
| `CarPhysics.Decay` | drift-racer/main.js:62 | friction keeps an in-bounds speed in bounds, keeps its sign, and strictly shrinks a non-zero magnitude |
| `CarPhysics.Step` | drift-racer/main.js:37-63 | after one update the speed is in `[-maxSpeed/2, maxSpeed]` whatever the start speed and keys; the heading moved by at most `turnSpeed`; the position moved by the new velocity |
| `CarPhysics.CoastingSpeed` | drift-racer/main.js:41-62 | with no key held the new speed is the old one clamped, then multiplied by `friction` |
| `CarPhysics.ClampComesBeforeFriction` | drift-racer/main.js:41-62 | a coasting car at speed 10 ends at 5.82, whereas friction before the clamp would give 6 |
| `CarPhysics.HeadingKeptUnlessSteering` | drift-racer/main.js:46-48 | the heading is unchanged when the clamped speed is 0 or the turn keys are both or neither; a changed heading implies exactly one turn key and a non-zero speed |
| `CarPhysics.RestIsAFixedPoint` | drift-racer/main.js:37-63 | a car at rest with zero velocity and no key held stays exactly as it is, whatever cos and sin return |
| `CarPhysics.RunKeepsSpeedInBounds` | drift-racer/main.js:41-62 | after any non-empty sequence of updates the speed is in bounds |
| `CarPhysics.RunSpeedGrowth` | drift-racer/main.js:38-62 | over `n` updates the speed's magnitude grows by at most `n * acceleration` |
| `CarPhysics.AcceleratingStep` | drift-racer/main.js:38-62 | one tick of holding up, from a speed in `[0, 4.85)`, raises the speed strictly, keeps it below 4.85 and leaves the heading unchanged |
| `CarPhysics.AcceleratingRun` | drift-racer/main.js:38-62 | holding up from a speed in `[0, 4.85)` raises the speed strictly on every tick, never reaches 4.85 (so `maxSpeed` is never hit), and leaves the heading unchanged |
| `CarPhysics.Car.constructor` | drift-racer/main.js:23-35 | a new car stands at the given point with heading 0, speed 0 and zero velocity |
| `CarPhysics.Car.Update` | drift-racer/main.js:37-63 | the car's new state is `Step` of its old state and the arrows held; the speed ends in bounds |
| `CarPhysics.Car.ApplyThrottle` | drift-racer/main.js:38-44 | the speed becomes the throttled speed, clamped |
| `CarPhysics.Car.ApplySteering` | drift-racer/main.js:46-48 | the heading is steered with the authority of the clamped speed |
| `CarPhysics.Car.Integrate` | drift-racer/main.js:50-60 | the velocity gains the heading vector times the speed, is damped by `driftFactor`, and the position moves by it |
| `CameraRig.Approach` | drift-racer/main.js:17-18 | with a smoothness in `[0, 1]` the new coordinate lies between the old one and the target; the gap to the target shrinks by exactly `1 - smoothness`; a camera on the target stays there |
| `CameraRig.FollowPoint` | drift-racer/main.js:16-19 | on both axes the camera never overshoots the target and stays on it once it is there |
| `CameraRig.ApproachStrictlyCloser` | drift-racer/main.js:17-18 | with a smoothness in `(0, 1)` the gap strictly shrinks and the target is never reached exactly |
| `CameraRig.FollowTimesGap` | drift-racer/main.js:16-19 | after `n` follows toward a fixed target the gap is the initial gap times `(1 - smoothness)^n` |
| `CameraRig.FollowTimesNeverOvershoots` | drift-racer/main.js:16-19 | any number of follows toward a fixed target stays between the start and the target |
| `CameraRig.Camera.constructor` | drift-racer/main.js:10-14 | a new camera is at the origin with smoothness 0.08 |
| `CameraRig.Camera.Follow` | drift-racer/main.js:16-19 | the camera moves to `FollowPoint` of its old position and the car's position |
| `LapCounting.SideIgnoresSegmentEnds` | drift-racer/main.js:113-115 | the side test is against the infinite line: sliding a point along `b - a` never changes its side; both endpoints are on the non-positive side |
| `LapCounting.SwappedEndsFlipSide` | drift-racer/main.js:113-115 | exchanging `a` and `b` negates the cross product, so it swaps the positive and negative sides |
| `LapCounting.EmbeddedStartLineSide` | drift-racer/main.js:166-180 | for the built-in start line the positive side is exactly `x > 0`; the car's start point (0, -250) is not on it |
| `LapCounting.LapStep` | drift-racer/main.js:109-121 | the count rises by exactly 1 iff the car is now on the positive side, the last tick was not, and the speed exceeds 1; otherwise it is unchanged; the remembered side is the current one |
| `LapCounting.TwoTicksAtMostOneLap` | drift-racer/main.js:113-120 | two consecutive updates, for any two car states, count at most one lap and never lower the count |
| `LapCounting.SameCarTwiceIsOnce` | drift-racer/main.js:113-120 | a second update with an unchanged car changes nothing |
| `LapCounting.LapRun` | drift-racer/main.js:109-121 | over a run of updates the count never decreases and rises by at most one per tick; the remembered side is the last sample's |
| `LapCounting.LapRunAppend` | drift-racer/main.js:109-121 | a run extended by one sample is the shorter run followed by one more update |
| `LapCounting.LapRunCountsRisingEdges` | drift-racer/main.js:113-120 | a run adds exactly the number of samples that are on the positive side, were preceded by a non-positive one, and are faster than 1 |
| `LapCounting.SlowRunCountsNoLap` | drift-racer/main.js:117-119 | a run in which the speed never exceeds 1 counts no lap |
| `LapCounting.OneSideCountsAtMostOneLap` | drift-racer/main.js:117-120 | a run that stays on the positive side counts at most one lap, and none if the last tick was already there |
| `LapCounting.ThreeLapsOnTheEmbeddedTrack` | drift-racer/main.js:109-121 | three fast passes from `x < 0` to `x > 0` across the built-in start line bring a fresh manager to lap 3 |
| `LapCounting.LapManager.constructor` | drift-racer/main.js:103-107 | a new manager watches the given track, has counted no lap and remembers the non-positive side |
| `LapCounting.LapManager.Update` | drift-racer/main.js:109-121 | the manager's new state is `LapStep` of its old state, its track's start line, and the car's current position and speed |
| `GameLoop.GameStep` | drift-racer/main.js:198-202 | the car takes one `Step`; the camera's gap to the car's new position is the old gap times `1 - 0.08`, so it never overshoots; the lap test sees the new position and speed, which on the built-in track means `x > 0`; the count rises by 1 exactly on such a crossing faster than 1, and otherwise stays |
| `GameLoop.GameRunDrivesTheCar` | drift-racer/main.js:198-202 | the car part of any game run is a run of the car alone: camera and laps never feed back |
| `GameLoop.NoLapInTheFirstSixTicks` | drift-racer/main.js:198-202 | from the initial game state no key sequence of up to six ticks counts a lap, because the speed cannot exceed 0.9 by then |
| `GameLoop.EarlyTicksCountNoLap` | drift-racer/main.js:198-202 | from a speed of at most `t * 0.15` at tick `t`, no lap is counted until tick 6 |
| `GameLoop.StraightStep` | drift-racer/main.js:198-202 | with exact `cos 0 = 1` and `sin 0 = 0`, a tick of holding up keeps the car on `y = -250` heading 0, moves it strictly right and counts no lap |
| `GameLoop.StraightAheadCountsNoLap` | drift-racer/main.js:198-202 | holding up from such a state, `x` grows strictly on every tick and no lap is ever counted |
| `GameLoop.DrivingStraightFromStart` | drift-racer/main.js:198-202 | from the game's start, holding up for any number of ticks counts no lap: the car crosses the line on the first tick at speed 0.1455 and never returns |
| `GameLoop.Game.constructor` | drift-racer/main.js:154-185 | a new game has the built-in track, a car parked at (0, -250), a camera at the origin and a lap manager on the same track |
| `GameLoop.Game.Update` | drift-racer/main.js:198-202 | the car, camera and lap manager together take one `GameStep`, with the camera and laps seeing the already-updated car |

## Left out

- Drawing is not modelled: `Car.draw`, `Track.draw`, `Minimap.draw` and `Game.render`, including the `Lap {current}/{required}` text. These are canvas side effects. The `Minimap` class holds only a drawing scale.
- DOM wiring is not modelled. This covers the `Input` listeners for keydown and keyup, `document.getElementById`, the canvas context, and `resize`. `Game.update`'s `this.input` becomes the parameter `keys`, which is the key map the listeners have built by the time of the call.
- The `requestAnimationFrame` loop never ends. The model gives one `Game.Update` and finite runs of `GameStep`.
- `Math.cos` and `Math.sin` come in as a `Trig` parameter, and nothing constrains their values. The only exception is the straight-ahead scenario, which requires `cos 0 = 1` and `sin 0 = 0`.
- Floating-point rounding is not modelled. Numbers are reals. For example, a left and a right turn in the same tick cancel exactly here, and 0.15 + 0.15 is exactly 0.3.
- The car's tuning fields (`maxSpeed`, `acceleration`, `turnSpeed`, `friction`, `driftFactor`) are set once by the constructor and never reassigned. So they are module constants rather than per-object fields.
- The car's `velocity` is a separate object whose fields the source updates in place. Here it is a value field that is reassigned. Nothing else holds a reference to it, so no aliasing is lost.
- `Car.Update` runs the source's statements in their order, split into three helper methods (`ApplyThrottle`, `ApplySteering`, `Integrate`) and the friction step.
- The track's `path` and `laps` are stored but nothing in the update reads them. No race end is modelled, because the source has none.
- The speed of a car holding the up arrow does not approach `maxSpeed`. It approaches 4.85, the fixed point of `s ↦ (s + 0.15) · 0.97`. `CarPhysics.AcceleratingRun` proves the speed rises strictly and stays below 4.85. The limit itself is not proved.
