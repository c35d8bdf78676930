/**
 * `KeysSystem` (src/system/keys.rs): steers a velocity by the movement keys.
 * W and S add and subtract one on y, D and A add and subtract one on x.
 * Velocities are `f64` in the source and `real` here.
 */
module KeysSystem {
  import opened Util
  import opened Input
  import opened Components
  import opened Time

  /** `[key]`: 1 when the key's bit is set in the key state, else 0. */
  function Pressed(keys: BitVector, key: Key): (r: real)
    ensures r == 0.0 || r == 1.0
    ensures r == 1.0 <==> keys.IsSet(key.Ordinal())
  {
    if keys.IsSet(key.Ordinal()) then 1.0 else 0.0
  }

  /** The effect of one `update`: the velocity moved by the net direction of the keys held. */
  function Step(dependent: Component, independent: Component): Component {
    match (dependent, independent)
    case (Velocity(x, y), KeysPressed(keys)) =>
      Velocity(x + Pressed(keys, D) - Pressed(keys, A), y + Pressed(keys, W) - Pressed(keys, S))
    case _ => dependent
  }

  /**
   * `update`: one conditional step per key, in the source's order W, S, A, D;
   * `dependent` is the `&mut Component` the source changes in place, here
   * passed in and returned; `delta` is not used.
   */
  method Update(dependent: Component, independent: Component, delta: Duration) returns (updated: Component)
    ensures updated == Step(dependent, independent)
  {
    updated := dependent;
    if dependent.Velocity? && independent.KeysPressed? {
      var x, y := dependent.x, dependent.y;
      var state := independent.keys;
      if state.IsSet(W.Ordinal()) { y := y + 1.0; }
      if state.IsSet(S.Ordinal()) { y := y - 1.0; }
      if state.IsSet(A.Ordinal()) { x := x - 1.0; }
      if state.IsSet(D.Ordinal()) { x := x + 1.0; }
      updated := Velocity(x, y);
    }
  }

  /** Only the bits of W, S, A and D matter: key states that agree on them give the same velocity. */
  lemma OnlyMovementKeysMatter(dependent: Component, keys: BitVector, other: BitVector)
    requires forall k: Key :: k != Escape ==> keys.IsSet(k.Ordinal()) == other.IsSet(k.Ordinal())
    ensures Step(dependent, KeysPressed(keys)) == Step(dependent, KeysPressed(other))
  {
    forall k: Key | k != Escape
      ensures Pressed(keys, k) == Pressed(other, k)
    {
      assert keys.IsSet(k.Ordinal()) == other.IsSet(k.Ordinal());
    }
  }

  /** Escape in particular leaves the velocity as it is. */
  lemma EscapeIgnored(dependent: Component, keys: BitVector)
    ensures Step(dependent, KeysPressed(keys.Set(Escape.Ordinal()))) == Step(dependent, KeysPressed(keys))
  {
    SetFrame(keys, Escape.Ordinal());
    OnlyMovementKeysMatter(dependent, keys.Set(Escape.Ordinal()), keys);
  }

  /** Any pair other than (Velocity, KeysPressed) is left alone. */
  lemma MismatchIsNoOp(dependent: Component, independent: Component)
    requires !(dependent.Velocity? && independent.KeysPressed?)
    ensures Step(dependent, independent) == dependent
  {
  }

  /** Unit test `no_keys_pressed`. */
  lemma NoKeysPressed()
    ensures Step(Velocity(1.0, 0.0), KeysPressed(From(0))) == Velocity(1.0, 0.0)
  {
  }

  /** Unit test `key_w_pressed`: the state `1 << W`. */
  lemma KeyWPressed()
    ensures Step(Velocity(1.0, 0.0), KeysPressed(From(0x2))) == Velocity(1.0, 1.0)
  {
    var keys := From(0x2);
    assert keys.IsSet(1) && !keys.IsSet(2) && !keys.IsSet(3) && !keys.IsSet(4);
  }

  /** Unit test `keys_w_and_d_pressed`: the state `1 << W | 1 << D`. */
  lemma KeysWAndDPressed()
    ensures Step(Velocity(1.0, 0.0), KeysPressed(From(0x12))) == Velocity(2.0, 1.0)
  {
    var keys := From(0x12);
    assert keys.IsSet(1) && !keys.IsSet(2) && !keys.IsSet(3) && keys.IsSet(4);
  }

  /** With no key pressed, any velocity is unchanged. */
  lemma NoKeysNoChange(x: real, y: real)
    ensures Step(Velocity(x, y), KeysPressed(New())) == Velocity(x, y)
  {
  }
}
