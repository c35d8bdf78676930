/**
 * `Component` (src/component.rs, extended with the flag-carrying variants that
 * src/main.rs and the systems use): one value of state attached to an entity,
 * and an entity is whatever components share its index.
 * Coordinates are `f64` in the source and `real` here.
 */
module Components {
  import opened Util

  datatype Component =
    | Empty                                  // a slot with nothing in it
    | Position(x: real, y: real)             // where the entity is
    | Velocity(x: real, y: real)             // how fast it moves, per axis
    | KeysPressed(keys: BitVector)           // keys held down, one bit per key
    | Commands(commands: BitVector)          // commands issued, one bit per command
}
