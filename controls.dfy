/** The key map that the `Input` object keeps (key name to "held"), and the four
    arrow keys the car reads from it. Only the resulting map is modelled: the
    keydown/keyup listeners that fill it are host events. */
module Controls {

  /** `keys[name]` read as a JavaScript truth value: a key that was never pressed
      is `undefined` in the source, which is falsy, so it counts as not held. */
  predicate Held(keys: map<string, bool>, name: string) {
    name in keys && keys[name]
  }

  /** The four arrow keys that `Car.update` looks at. */
  datatype Arrows = Arrows(up: bool, down: bool, left: bool, right: bool)

  const NoArrows := Arrows(false, false, false, false)

  function ArrowsOf(keys: map<string, bool>): (k: Arrows)
    ensures k.up ==> "ArrowUp" in keys
    ensures k.down ==> "ArrowDown" in keys
    ensures k.left ==> "ArrowLeft" in keys
    ensures k.right ==> "ArrowRight" in keys
    ensures ("ArrowUp" in keys && !keys["ArrowUp"]) ==> !k.up
    ensures ("ArrowDown" in keys && !keys["ArrowDown"]) ==> !k.down
    ensures ("ArrowLeft" in keys && !keys["ArrowLeft"]) ==> !k.left
    ensures ("ArrowRight" in keys && !keys["ArrowRight"]) ==> !k.right
    ensures ("ArrowUp" in keys && keys["ArrowUp"]) ==> k.up
    ensures ("ArrowDown" in keys && keys["ArrowDown"]) ==> k.down
    ensures ("ArrowLeft" in keys && keys["ArrowLeft"]) ==> k.left
    ensures ("ArrowRight" in keys && keys["ArrowRight"]) ==> k.right
  {
    Arrows(Held(keys, "ArrowUp"), Held(keys, "ArrowDown"),
           Held(keys, "ArrowLeft"), Held(keys, "ArrowRight"))
  }

  /** A map in which no arrow key is present, or every arrow key is released,
      drives the car exactly as if nothing were held. */
  lemma ReleasedKeysAreNoArrows(keys: map<string, bool>)
    requires forall name :: name in keys ==> !keys[name]
    ensures ArrowsOf(keys) == NoArrows
  {
  }
}
