/**
 * Keyboard keys (src/input.rs) and player commands (src/command.rs).
 * Each variant converts to its declaration-order discriminant, and that
 * number is the bit it occupies in a `BitVector`.
 */
module Input {
  /** `Keys`: the keys the game reacts to. */
  datatype Key = Escape | W | S | A | D {
    /** `key as u64`: the discriminant, which is always a valid bit position. */
    function Ordinal(): (n: bv64)
      ensures n < 5
    {
      match this
      case Escape => 0
      case W => 1
      case S => 2
      case A => 3
      case D => 4
    }
  }

  /** `Command`: what the player can ask of the program. */
  datatype Command = Quit {
    /** `command as u64`. */
    function Ordinal(): (n: bv64)
      ensures n < 1
    {
      0
    }
  }

  /** Distinct keys occupy distinct bits. */
  lemma KeyOrdinalsDistinct(a: Key, b: Key)
    ensures a.Ordinal() == b.Ordinal() ==> a == b
  {
  }
}
