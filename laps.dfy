/** Lap counting (`LapManager`): a lap is counted on the tick the car passes from
    the non-positive side of the start line to its positive side while moving
    faster than 1. The side test is the sign of a 2D cross product against the
    infinite line through the start segment's endpoints. */
module LapCounting {
  import opened Geometry
  import opened TrackData
  import CarPhysics

  /** The cross product of `b - a` and `p - a`, with the operands in the order
      `update` multiplies them. */
  function Cross(line: Segment, p: Vec): real {
    (p.x - line.a.x) * (line.b.y - line.a.y) - (p.y - line.a.y) * (line.b.x - line.a.x)
  }

  /** The boolean `cross` of `update`: `p` is strictly on the positive side. */
  predicate Side(line: Segment, p: Vec) {
    Cross(line, p) > 0.0
  }

  /** The test is against the whole line, not the segment: sliding a point any
      distance along the direction `b - a` never changes its side, so a car far
      beyond either end of the start segment still changes side when its `x`
      does. Points on the line, the endpoints among them, are on the non-positive side. */
  lemma SideIgnoresSegmentEnds(line: Segment, p: Vec, t: real)
    ensures var d := Vec(line.b.x - line.a.x, line.b.y - line.a.y);
            Side(line, Vec(p.x + t * d.x, p.y + t * d.y)) == Side(line, p)
    ensures !Side(line, line.a) && !Side(line, line.b)
  {
    var dx, dy := line.b.x - line.a.x, line.b.y - line.a.y;
    var u, v := p.x - line.a.x, p.y - line.a.y;
    var q := Vec(p.x + t * dx, p.y + t * dy);
    assert q.x - line.a.x == u + t * dx && q.y - line.a.y == v + t * dy;
    assert (u + t * dx) * dy == u * dy + (t * dx) * dy;
    assert (v + t * dy) * dx == v * dx + (t * dy) * dx;
    assert (t * dx) * dy == (t * dy) * dx;
    assert Cross(line, q) == u * dy - v * dx == Cross(line, p);
    assert Cross(line, line.a) == 0.0;
    assert Cross(line, line.b) == dx * dy - dy * dx == 0.0;
  }

  /** Listing the endpoints the other way round flips the positive side. */
  lemma SwappedEndsFlipSide(line: Segment, p: Vec)
    ensures Cross(Segment(line.b, line.a), p) == -Cross(line, p)
    ensures Side(Segment(line.b, line.a), p) <==> Cross(line, p) < 0.0
  {
    var a, b := line.a, line.b;
    assert (p.x - b.x) * (a.y - b.y) == (p.x - a.x) * (a.y - b.y) + (a.x - b.x) * (a.y - b.y);
    assert (p.y - b.y) * (a.x - b.x) == (p.y - a.y) * (a.x - b.x) + (a.y - b.y) * (a.x - b.x);
  }

  /** For the game's track the start segment runs from (0, -200) to (0, -120), so
      the positive side is exactly `x > 0`; the car's start point (0, -250) lies on
      the line, on the non-positive side. */
  lemma EmbeddedStartLineSide(p: Vec)
    ensures Side(Embedded.startLine, p) <==> p.x > 0.0
    ensures !Side(Embedded.startLine, CarStart)
  {
    assert Cross(Embedded.startLine, p) == 80.0 * p.x;
    assert Cross(Embedded.startLine, CarStart) == 0.0;
  }

  /** What `LapManager` remembers between ticks: the lap count and the side of
      the previous tick. */
  datatype LapState = LapState(currentLap: int, lastCross: bool)

  /** A fresh `LapManager`: no lap, and the "previous" side taken as non-positive. */
  const Initial := LapState(0, false)

  /** One call of `update(car)` with the car at `pos` moving at `speed`: the count
      goes up by exactly one when the car is now on the positive side, was not on
      it on the previous tick, and is faster than 1; otherwise it stays. The side
      just seen is remembered whether or not a lap was counted. */
  function LapStep(s: LapState, line: Segment, pos: Vec, speed: real): (r: LapState)
    ensures r.lastCross == Side(line, pos)
    ensures r.currentLap == s.currentLap + 1 <==> Side(line, pos) && !s.lastCross && speed > 1.0
    ensures r.currentLap == s.currentLap || r.currentLap == s.currentLap + 1
  {
    var cross := Side(line, pos);
    LapState(if cross && !s.lastCross && speed > 1.0 then s.currentLap + 1 else s.currentLap, cross)
  }

  /** Two consecutive ticks never count two laps: a counted lap leaves the car on
      the positive side, and the next tick needs it to have been off it. */
  lemma TwoTicksAtMostOneLap(s: LapState, line: Segment, p1: Vec, v1: real, p2: Vec, v2: real)
    ensures var r := LapStep(LapStep(s, line, p1, v1), line, p2, v2);
            s.currentLap <= r.currentLap <= s.currentLap + 1
  {
  }

  /** Calling `update` again with the car unchanged changes nothing more: the
      second call sees the side it has just remembered. */
  lemma SameCarTwiceIsOnce(s: LapState, line: Segment, pos: Vec, speed: real)
    ensures var once := LapStep(s, line, pos, speed);
            LapStep(once, line, pos, speed) == once
  {
  }

  /** Where the car is and how fast it goes on one tick, as `LapManager` sees it. */
  datatype Sample = Sample(pos: Vec, speed: real)

  /** `update` called once per sample, first sample first. The count never goes
      down, goes up at most once per tick, and the side remembered is the last
      sample's. */
  function LapRun(s: LapState, line: Segment, samples: seq<Sample>): (r: LapState)
    ensures s.currentLap <= r.currentLap <= s.currentLap + |samples|
    ensures samples == [] ==> r == s
    ensures samples != [] ==> r.lastCross == Side(line, samples[|samples| - 1].pos)
    decreases |samples|
  {
    if samples == [] then s
    else LapRun(LapStep(s, line, samples[0].pos, samples[0].speed), line, samples[1..])
  }

  /** Sample `i` completes a lap: it is on the positive side, faster than 1, and the
      sample before it (or, for the first, the remembered side `before`) was not on
      the positive side. */
  predicate RisingAt(line: Segment, before: bool, samples: seq<Sample>, i: nat)
    requires i < |samples|
  {
    var previous := if i == 0 then before else Side(line, samples[i - 1].pos);
    Side(line, samples[i].pos) && !previous && samples[i].speed > 1.0
  }

  /** The number of samples that complete a lap, counted from the last one back. */
  function Laps(line: Segment, before: bool, samples: seq<Sample>): nat
    decreases |samples|
  {
    if samples == [] then 0
    else
      var n := |samples| - 1;
      Laps(line, before, samples[..n]) + if RisingAt(line, before, samples, n) then 1 else 0
  }

  /** Feeding one more sample to a run is one more `update`. */
  lemma {:induction false} LapRunAppend(s: LapState, line: Segment, samples: seq<Sample>, x: Sample)
    ensures LapRun(s, line, samples + [x]) == LapStep(LapRun(s, line, samples), line, x.pos, x.speed)
    decreases |samples|
  {
    if samples == [] {
      assert LapRun(LapStep(s, line, x.pos, x.speed), line, []) == LapStep(s, line, x.pos, x.speed);
      assert (samples + [x])[1..] == [];
    } else {
      var next := LapStep(s, line, samples[0].pos, samples[0].speed);
      assert (samples + [x])[1..] == samples[1..] + [x];
      LapRunAppend(next, line, samples[1..], x);
    }
  }

  /** A run counts exactly the samples that complete a lap, whatever the order the
      ticks arrive in between. */
  lemma {:induction false} LapRunCountsRisingEdges(s: LapState, line: Segment, samples: seq<Sample>)
    ensures LapRun(s, line, samples).currentLap == s.currentLap + Laps(line, s.lastCross, samples)
    decreases |samples|
  {
    if samples != [] {
      var n := |samples| - 1;
      var init := samples[..n];
      assert samples == init + [samples[n]];
      LapRunCountsRisingEdges(s, line, init);
      LapRunAppend(s, line, init, samples[n]);
      var mid := LapRun(s, line, init);
      assert mid.lastCross == if n == 0 then s.lastCross else Side(line, samples[n - 1].pos);
    }
  }

  /** While the car never goes faster than 1, no lap is ever counted. */
  lemma {:induction false} SlowRunCountsNoLap(s: LapState, line: Segment, samples: seq<Sample>)
    requires forall i :: 0 <= i < |samples| ==> samples[i].speed <= 1.0
    ensures LapRun(s, line, samples).currentLap == s.currentLap
    decreases |samples|
  {
    if samples != [] {
      SlowRunCountsNoLap(LapStep(s, line, samples[0].pos, samples[0].speed), line, samples[1..]);
    }
  }

  /** Staying on the positive side counts at most one lap (the first tick there),
      and none when the previous tick was already there: circling back over the
      line without leaving that side scores nothing. */
  lemma {:induction false} OneSideCountsAtMostOneLap(s: LapState, line: Segment, samples: seq<Sample>)
    requires forall i :: 0 <= i < |samples| ==> Side(line, samples[i].pos)
    ensures LapRun(s, line, samples).currentLap <= s.currentLap + (if s.lastCross then 0 else 1)
    decreases |samples|
  {
    if samples != [] {
      OneSideCountsAtMostOneLap(LapStep(s, line, samples[0].pos, samples[0].speed), line, samples[1..]);
    }
  }

  /** Three passes from `x < 0` to `x > 0` at speed 2 on the game's track count
      three laps from a fresh manager. */
  lemma ThreeLapsOnTheEmbeddedTrack()
    ensures var west, east := Sample(Vec(-10.0, -150.0), 2.0), Sample(Vec(10.0, -150.0), 2.0);
            LapRun(Initial, Embedded.startLine, [west, east, west, east, west, east]).currentLap == 3
  {
    var line := Embedded.startLine;
    var west, east := Sample(Vec(-10.0, -150.0), 2.0), Sample(Vec(10.0, -150.0), 2.0);
    EmbeddedStartLineSide(west.pos);
    EmbeddedStartLineSide(east.pos);
    var samples := [west, east, west, east, west, east];
    var s1 := LapStep(Initial, line, west.pos, west.speed);
    var s2 := LapStep(s1, line, east.pos, east.speed);
    var s3 := LapStep(s2, line, west.pos, west.speed);
    var s4 := LapStep(s3, line, east.pos, east.speed);
    var s5 := LapStep(s4, line, west.pos, west.speed);
    var s6 := LapStep(s5, line, east.pos, east.speed);
    assert s2 == LapState(1, true) && s4 == LapState(2, true) && s6 == LapState(3, true);
    assert samples[1..] == [east, west, east, west, east];
    assert samples[2..] == [west, east, west, east];
    assert samples[3..] == [east, west, east];
    assert samples[4..] == [west, east];
    assert samples[5..] == [east];
    calc {
      LapRun(Initial, line, samples);
      LapRun(s1, line, samples[1..]);
      { assert samples[1..][1..] == samples[2..]; }
      LapRun(s2, line, samples[2..]);
      { assert samples[2..][1..] == samples[3..]; }
      LapRun(s3, line, samples[3..]);
      { assert samples[3..][1..] == samples[4..]; }
      LapRun(s4, line, samples[4..]);
      { assert samples[4..][1..] == samples[5..]; }
      LapRun(s5, line, samples[5..]);
      { assert samples[5..][1..] == []; }
      LapRun(s6, line, []);
    }
  }

  /** The `LapManager` object: the track it watches, and the count and last side
      that `Update` changes in place. */
  class LapManager {
    const track: Track
    var currentLap: int
    var lastCross: bool

    function State(): LapState
      reads this
    {
      LapState(currentLap, lastCross)
    }

    constructor (track: Track)
      ensures this.track == track && State() == Initial
    {
      this.track := track;
      currentLap := 0;
      lastCross := false;
    }

    /** Reads the car's position and speed after its own update of this tick. */
    method Update(car: CarPhysics.Car)
      modifies this
      ensures State() == LapStep(old(State()), track.startLine, car.Pos(), car.speed)
    {
      var a := track.startLine.a;
      var b := track.startLine.b;

      var cross := (car.x - a.x) * (b.y - a.y) - (car.y - a.y) * (b.x - a.x) > 0.0;

      if cross && !lastCross && car.speed > 1.0 {
        currentLap := currentLap + 1;
      }
      lastCross := cross;
    }
  }
}
