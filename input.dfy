/** The movement direction read from the keyboard. `move_character` in
    src/main.rs and `move_player` in src/player.rs build it in the same way:
    W and S drive the y axis, A and D the x axis, and the result is
    normalised so that a diagonal is no faster than a straight move. */
module Input {
  import opened Geometry

  /** Which of W (up), S (down), A (left) and D (right) are held. */
  datatype Keys = Keys(up: bool, down: bool, left: bool, right: bool)

  /** One axis of the direction: 1 for the positive key alone, -1 for the
      negative key alone, 0 for neither or both. */
  function Axis(positive: bool, negative: bool): (a: real)
    ensures a == 1.0 || a == 0.0 || a == -1.0
    ensures a == 0.0 <==> positive == negative
    ensures a == 1.0 <==> positive && !negative
    ensures a == -1.0 <==> negative && !positive
  {
    (if positive then 1.0 else 0.0) - (if negative then 1.0 else 0.0)
  }

  /** The direction before normalisation. */
  function RawDirection(keys: Keys): Vec2
  {
    Vec2(Axis(keys.right, keys.left), Axis(keys.up, keys.down))
  }

  /** The direction is built up from zero, one key at a time. */
  method KeyDirection(keys: Keys) returns (direction: Vec2)
    ensures direction.x == Axis(keys.right, keys.left)
    ensures direction.y == Axis(keys.up, keys.down)
  {
    direction := Zero2;
    if keys.up {
      direction := direction.(y := direction.y + 1.0);
    }
    if keys.down {
      direction := direction.(y := direction.y - 1.0);
    }
    if keys.left {
      direction := direction.(x := direction.x - 1.0);
    }
    if keys.right {
      direction := direction.(x := direction.x + 1.0);
    }
  }

  /** How far the keys move a body at the given speed in dt:
      `direction.normalize_or_zero() * speed * dt`. */
  function KeyStep(keys: Keys, speed: real, dt: real, sqrt: real -> real): Vec2
  {
    DirectedStep(RawDirection(keys), speed, dt, sqrt)
  }

  /** The raw direction is zero exactly when every held key is cancelled by
      its opposite (or none is held). */
  lemma RawDirectionZero(keys: Keys)
    ensures RawDirection(keys) == Zero2 <==> keys.up == keys.down && keys.left == keys.right
  {
  }

  /** With no net direction the step is zero. Otherwise it has length
      |speed * dt| whichever keys are held, diagonals included. */
  lemma KeyStepSpec(keys: Keys, speed: real, dt: real, sqrt: real -> real)
    requires IsSqrt(sqrt)
    ensures keys.up == keys.down && keys.left == keys.right ==> KeyStep(keys, speed, dt, sqrt) == Zero2
    ensures !(keys.up == keys.down && keys.left == keys.right) ==>
      Length(KeyStep(keys, speed, dt, sqrt), sqrt) == Abs(speed * dt)
  {
    var d := RawDirection(keys);
    RawDirectionZero(keys);
    if d == Zero2 {
      DirectedStepSpec(d, speed, dt, sqrt);
    } else {
      DirectedStepLength(d, speed, dt, sqrt);
    }
  }

  /** The step is never longer than |speed * dt|. */
  lemma KeyStepBound(keys: Keys, speed: real, dt: real, sqrt: real -> real)
    requires IsSqrt(sqrt)
    ensures Length(KeyStep(keys, speed, dt, sqrt), sqrt) <= Abs(speed * dt)
  {
    var step := KeyStep(keys, speed, dt, sqrt);
    assert !(Abs(speed * dt) < 0.0);
    if keys.up == keys.down && keys.left == keys.right {
      assert !(0.0 < Length(step, sqrt)) by {
        KeyStepSpec(keys, speed, dt, sqrt);
        LengthNotNegative(step, sqrt);
      }
    } else {
      KeyStepSpec(keys, speed, dt, sqrt);
    }
  }
}
