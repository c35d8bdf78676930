/**
 * `MovementSystem` (src/system/movement.rs): moves a position by its velocity
 * times the elapsed time. Coordinates are `f64` in the source and `real` here.
 */
module MovementSystem {
  import opened Components
  import opened Time

  /** The effect of one `update` as written: the velocity scaled by `delta.as_secs()`, whole seconds only. */
  function Step(dependent: Component, independent: Component, delta: Duration): Component {
    match (dependent, independent)
    case (Position(px, py), Velocity(vx, vy)) =>
      Position(px + vx * AsSecs(delta) as real, py + vy * AsSecs(delta) as real)
    case _ => dependent
  }

  /** `update`: `dependent` is the `&mut Component` the source changes in place, here passed in and returned. */
  method Update(dependent: Component, independent: Component, delta: Duration) returns (updated: Component)
    ensures updated == Step(dependent, independent, delta)
  {
    updated := dependent;
    if dependent.Position? && independent.Velocity? {
      var secs := AsSecs(delta) as real;
      updated := Position(dependent.x + independent.x * secs, dependent.y + independent.y * secs);
    }
  }

  /** Unit test `position_is_updated`: Position(2, 2) with Velocity(1, 1) over 3 s ends at (5, 5). */
  lemma PositionIsUpdated()
    ensures Step(Position(2.0, 2.0), Velocity(1.0, 1.0), Duration(3, 0)) == Position(5.0, 5.0)
  {
  }

  /**
   * As written, any delta under one second moves nothing: two half-second
   * frames leave the position where it was, while one whole second moves it.
   */
  lemma SubSecondFramesDoNotMove()
    ensures Step(Step(Position(0.0, 0.0), Velocity(1.0, 1.0), Duration(0, 500_000_000)), Velocity(1.0, 1.0), Duration(0, 500_000_000))
      == Position(0.0, 0.0)
    ensures Step(Position(0.0, 0.0), Velocity(1.0, 1.0), Plus(Duration(0, 500_000_000), Duration(0, 500_000_000)))
      == Position(1.0, 1.0)
  {
  }

  /** The corrected step: the velocity scaled by the exact elapsed time, fraction included. */
  function ExactStep(dependent: Component, independent: Component, delta: Duration): Component {
    match (dependent, independent)
    case (Position(px, py), Velocity(vx, vy)) =>
      Position(px + vx * Seconds(delta), py + vy * Seconds(delta))
    case _ => dependent
  }

  /** Moving over two frames in turn is moving over their total time. */
  lemma ExactStepAdditive(dependent: Component, independent: Component, d: Duration, e: Duration)
    requires Valid(d) && Valid(e)
    ensures ExactStep(ExactStep(dependent, independent, d), independent, e) == ExactStep(dependent, independent, Plus(d, e))
  {
    if dependent.Position? && independent.Velocity? {
      var vx, vy := independent.x, independent.y;
      assert vx * Seconds(d) + vx * Seconds(e) == vx * (Seconds(d) + Seconds(e));
      assert vy * Seconds(d) + vy * Seconds(e) == vy * (Seconds(d) + Seconds(e));
    }
  }

  /** On whole-second deltas the step as written and the corrected step agree. */
  lemma WholeSecondsAgree(dependent: Component, independent: Component, secs: nat)
    ensures Step(dependent, independent, Duration(secs, 0)) == ExactStep(dependent, independent, Duration(secs, 0))
  {
  }
}
