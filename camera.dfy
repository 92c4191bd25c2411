/** The following camera (`Camera.follow`): one-pole exponential smoothing of its
    position toward a target, axis by axis, with no clamping. */
module CameraRig {
  import opened Geometry
  import CarPhysics

  /** The fraction of the remaining distance covered on each call. */
  const Smoothness := 0.08

  /** One axis of `follow`: `c += (target - c) * smoothness`. For a smoothness in
      `[0, 1]` the new value lies between the old one and the target, and the gap
      to the target shrinks by exactly the factor `1 - smoothness`. */
  function Approach(c: real, target: real, smoothness: real): (r: real)
    ensures 0.0 <= smoothness <= 1.0 ==> Between(r, c, target)
    ensures r - target == (1.0 - smoothness) * (c - target)
    ensures c == target ==> r == target
  {
    ApproachFacts(c, target, smoothness);
    c + (target - c) * smoothness
  }

  /** The arithmetic behind `Approach`, with the step `(target - c) * smoothness`
      kept as one term. */
  lemma ApproachFacts(c: real, target: real, smoothness: real)
    ensures var r := c + (target - c) * smoothness;
            (0.0 <= smoothness <= 1.0 ==> Between(r, c, target)) &&
            r - target == (1.0 - smoothness) * (c - target)
  {
    var d := target - c;
    var step := d * smoothness;
    FractionBetween(d, smoothness);
    assert step - d == (1.0 - smoothness) * (c - target);
    assert c + step - target == step - d;
  }

  /** A fraction in `[0, 1]` of `d` lies between 0 and `d`. */
  lemma FractionBetween(d: real, f: real)
    ensures 0.0 <= f <= 1.0 ==> Between(d * f, 0.0, d)
  {
    if 0.0 <= f <= 1.0 {
      var e := Abs(d);
      assert e * f >= 0.0 && e * (1.0 - f) >= 0.0;
      assert e * f + e * (1.0 - f) == e;
      assert d * f == if d >= 0.0 then e * f else -(e * f);
    }
  }

  /** `follow` on both axes. */
  function FollowPoint(c: Vec, target: Vec, smoothness: real): (r: Vec)
    ensures 0.0 <= smoothness <= 1.0 ==> Between(r.x, c.x, target.x) && Between(r.y, c.y, target.y)
    ensures c == target ==> r == target
  {
    Vec(Approach(c.x, target.x, smoothness), Approach(c.y, target.y, smoothness))
  }

  /** With a smoothness in `(0, 1)` each call strictly closes the gap to a target it
      has not reached, and never lands on it: the camera only converges. */
  lemma ApproachStrictlyCloser(c: real, target: real, smoothness: real)
    requires 0.0 < smoothness < 1.0 && c != target
    ensures Abs(Approach(c, target, smoothness) - target) < Abs(c - target)
    ensures Approach(c, target, smoothness) != target
  {
    var q, d := 1.0 - smoothness, c - target;
    var r := Approach(c, target, smoothness);
    assert r - target == q * d;
    assert q * d == d - smoothness * d;
    if d > 0.0 {
      assert smoothness * d > 0.0;
      assert 0.0 < r - target < d;
    } else {
      assert smoothness * d < 0.0;
      assert d < r - target < 0.0;
    }
  }

  /** `q` raised to the power `n`. */
  function Power(q: real, n: nat): real {
    if n == 0 then 1.0 else q * Power(q, n - 1)
  }

  /** `follow` applied `n` times toward a target that does not move. */
  function FollowTimes(c: real, target: real, smoothness: real, n: nat): real
    decreases n
  {
    if n == 0 then c else FollowTimes(Approach(c, target, smoothness), target, smoothness, n - 1)
  }

  /** After `n` calls toward a fixed target the gap is the first gap times
      `(1 - smoothness)^n`. */
  lemma {:induction false} FollowTimesGap(c: real, target: real, smoothness: real, n: nat)
    ensures FollowTimes(c, target, smoothness, n) - target ==
            Power(1.0 - smoothness, n) * (c - target)
    decreases n
  {
    if n > 0 {
      var q := 1.0 - smoothness;
      var c1 := Approach(c, target, smoothness);
      FollowTimesGap(c1, target, smoothness, n - 1);
      calc {
        FollowTimes(c, target, smoothness, n) - target;
        FollowTimes(c1, target, smoothness, n - 1) - target;
        Power(q, n - 1) * (c1 - target);
        Power(q, n - 1) * (q * (c - target));
        { assert Power(q, n - 1) * (q * (c - target)) == (q * Power(q, n - 1)) * (c - target); }
        Power(q, n) * (c - target);
      }
    }
  }

  /** Toward a fixed target and with a smoothness in `[0, 1]`, every call keeps the
      camera between where it started and the target: it never overshoots. */
  lemma {:induction false} FollowTimesNeverOvershoots(c: real, target: real, smoothness: real, n: nat)
    requires 0.0 <= smoothness <= 1.0
    ensures Between(FollowTimes(c, target, smoothness, n), c, target)
    decreases n
  {
    if n > 0 {
      var c1 := Approach(c, target, smoothness);
      FollowTimesNeverOvershoots(c1, target, smoothness, n - 1);
    }
  }

  /** The `Camera` object: a position that `Follow` moves in place. */
  class Camera {
    var x: real
    var y: real
    const smoothness: real

    function Pos(): Vec
      reads this
    {
      Vec(x, y)
    }

    constructor ()
      ensures Pos() == Origin && smoothness == Smoothness
    {
      x := 0.0;
      y := 0.0;
      smoothness := Smoothness;
    }

    /** Moves the camera a `smoothness` fraction of the way toward the car. */
    method Follow(target: CarPhysics.Car)
      modifies this
      ensures Pos() == FollowPoint(old(Pos()), target.Pos(), smoothness)
    {
      x := x + (target.x - x) * smoothness;
      y := y + (target.y - y) * smoothness;
    }
  }
}
