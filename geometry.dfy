/** Plain 2D points and the `Math.min`/`Math.max`/`Math.abs` helpers the game uses.
    Every number of the game is modelled as a mathematical real, except the lap
    counts, which are integers. */
module Geometry {

  /** A point or a vector of the game world, `{ x, y }` in the source. */
  datatype Vec = Vec(x: real, y: real)

  const Origin := Vec(0.0, 0.0)

  /** The host's `Math.cos` and `Math.sin`, supplied from outside: no property of
      the model depends on what they return. The model applies them only through
      `Cos` and `Sin`. */
  datatype Trig = Trig(cos: real -> real, sin: real -> real) {

    function Cos(a: real): real {
      cos(a)
    }

    function Sin(a: real): real {
      sin(a)
    }
  }

  function Min(a: real, b: real): real {
    if a <= b then a else b
  }

  function Max(a: real, b: real): real {
    if a >= b then a else b
  }

  function Abs(a: real): real {
    if a >= 0.0 then a else -a
  }

  /** `r` lies on the closed interval between `a` and `b`, whichever order they come in. */
  predicate Between(r: real, a: real, b: real) {
    (a <= b ==> a <= r <= b) && (b <= a ==> b <= r <= a)
  }
}
