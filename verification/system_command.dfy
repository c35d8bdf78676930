/**
 * `CommandSystem` (src/system/command.rs): turns a pressed Escape key into the
 * Quit command on the same entity.
 */
module CommandSystem {
  import opened Util
  import opened Input
  import opened Components
  import opened Time

  /** The effect of one `update` on the dependent component. */
  function Step(dependent: Component, independent: Component): Component {
    match (dependent, independent)
    case (Commands(commands), KeysPressed(keys)) =>
      if keys.IsSet(Escape.Ordinal()) then Commands(commands.Set(Quit.Ordinal())) else dependent
    case _ => dependent
  }

  /**
   * `update`: `dependent` is the `&mut Component` the source changes in place,
   * here passed in and returned; `delta` is not used.
   */
  method Update(dependent: Component, independent: Component, delta: Duration) returns (updated: Component)
    ensures updated == Step(dependent, independent)
  {
    updated := dependent;
    if dependent.Commands? && independent.KeysPressed? {
      if independent.keys.IsSet(Escape.Ordinal()) {
        var commands := dependent.commands;
        commands := commands.Set(Quit.Ordinal());
        updated := Commands(commands);
      }
    }
  }

  /**
   * Against a key state, a Commands component stays a Commands component; its
   * Quit bit is on afterwards exactly when it was on before or Escape is
   * pressed; and no other command bit changes.
   */
  lemma StepCommands(commands: BitVector, keys: BitVector)
    ensures Step(Commands(commands), KeysPressed(keys)).Commands?
    ensures Step(Commands(commands), KeysPressed(keys)).commands.IsSet(Quit.Ordinal()) <==>
      commands.IsSet(Quit.Ordinal()) || keys.IsSet(Escape.Ordinal())
    ensures forall b: bv64 :: 0 < b < 64 ==>
      Step(Commands(commands), KeysPressed(keys)).commands.IsSet(b) == commands.IsSet(b)
  {
    if keys.IsSet(Escape.Ordinal()) {
      SetFrame(commands, Quit.Ordinal());
    }
  }

  /** With Escape not pressed, the commands are unchanged. */
  lemma EscapeClearLeavesCommands(commands: BitVector, keys: BitVector)
    requires !keys.IsSet(Escape.Ordinal())
    ensures Step(Commands(commands), KeysPressed(keys)) == Commands(commands)
  {
  }

  /** Any pair other than (Commands, KeysPressed) is left alone: a no-op, never a failure. */
  lemma MismatchIsNoOp(dependent: Component, independent: Component)
    requires !(dependent.Commands? && independent.KeysPressed?)
    ensures Step(dependent, independent) == dependent
  {
  }

  /** Running the update a second time against the same keys changes nothing more. */
  lemma StepIdempotent(dependent: Component, independent: Component)
    ensures Step(Step(dependent, independent), independent) == Step(dependent, independent)
  {
    if dependent.Commands? && independent.KeysPressed? && independent.keys.IsSet(Escape.Ordinal()) {
      SetUnsetIdempotent(dependent.commands, Quit.Ordinal());
    }
  }

  /** End to end: Commands(0) with Escape pressed gets Quit; with no key pressed it stays Commands(0). */
  lemma EscapeSetsQuit()
    ensures Step(Commands(From(0)), KeysPressed(From(1))) == Commands(From(1))
    ensures Step(Commands(From(0)), KeysPressed(From(0))) == Commands(From(0))
  {
  }
}
