/** The track: immutable data, a closed polygon path, a start/finish segment and
    the number of laps a race takes. */
module TrackData {
  import opened Geometry

  /** A segment between two endpoints, the `startLine` record `{ a, b }`. */
  datatype Segment = Segment(a: Vec, b: Vec)

  /** What `new Track(data)` stores: the path, the start line and the lap count. */
  datatype Track = Track(path: seq<Vec>, startLine: Segment, laps: int)

  /** The track the game builds: a hexagon around the origin with a vertical start
      line on the y axis, three laps. */
  const Embedded := Track(
    [Vec(0.0, -300.0), Vec(400.0, -200.0), Vec(400.0, 200.0),
     Vec(0.0, 300.0), Vec(-400.0, 200.0), Vec(-400.0, -200.0)],
    Segment(Vec(0.0, -200.0), Vec(0.0, -120.0)),
    3)

  /** Where the game puts the car: `new Car(0, -250)`. */
  const CarStart := Vec(0.0, -250.0)
}
