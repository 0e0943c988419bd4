/** The `Movable` component of src/movable.rs: an entity's velocity and the
    four steps that update it in place each tick, plus the step that moves a
    transform by it. */
module Movement {
  import opened Geometry
  import opened Scene

  /** `(1.0 - damping * dt).max(0.0)`: the share of an undriven axis's speed
      that survives one tick. It is the larger of 0 and 1 - damping * dt, and
      for non-negative damping and dt it is at most 1. */
  function DampingFactor(damping: real, dt: real): (f: real)
    ensures 0.0 <= f && 1.0 - damping * dt <= f
    ensures f == 0.0 || f == 1.0 - damping * dt
    ensures 0.0 <= damping * dt ==> f <= 1.0
  {
    var f := 1.0 - damping * dt;
    if f < 0.0 then 0.0 else f
  }

  /** One axis of `apply_axis_damping` when no input drives it: the speed is
      multiplied by the factor and snaps to zero exactly when it falls below
      1; a damped speed of at least 1 is kept as it is. */
  function DampAxis(v: real, factor: real): (r: real)
    ensures r == 0.0 || 1.0 <= Abs(r)
    ensures Abs(v * factor) < 1.0 ==> r == 0.0
    ensures 1.0 <= Abs(v * factor) ==> r == v * factor
  {
    var w := v * factor;
    if Abs(w) < 1.0 then 0.0 else w
  }

  lemma AbsOfProduct(v: real, f: real)
    requires 0.0 <= f
    ensures Abs(v * f) == Abs(v) * f
  {
    if v < 0.0 {
      assert v * f == -((-v) * f);
    }
  }

  lemma ProductNotNegative(a: real, b: real)
    requires 0.0 <= a && 0.0 <= b
    ensures 0.0 <= a * b
  {
  }

  /** With a factor between 0 and 1, damping never makes an axis faster. */
  lemma DampAxisNeverGrows(v: real, factor: real)
    requires 0.0 <= factor <= 1.0
    ensures Abs(DampAxis(v, factor)) <= Abs(v)
  {
    AbsOfProduct(v, factor);
    assert Abs(v) - Abs(v) * factor == Abs(v) * (1.0 - factor);
  }

  /** With a factor below 1, every tick that does not stop an axis takes at
      least 1 - factor off its speed; a tick stops it exactly when its damped
      speed is below 1. */
  lemma DampAxisShrinks(v: real, factor: real)
    requires 0.0 <= factor < 1.0
    ensures DampAxis(v, factor) == 0.0 <==> Abs(v * factor) < 1.0
    ensures DampAxis(v, factor) == 0.0 || Abs(DampAxis(v, factor)) <= Abs(v) - (1.0 - factor)
  {
    var w := DampAxis(v, factor);
    if w != 0.0 {
      assert w == v * factor;
      AbsOfProduct(v, factor);
      assert Abs(w) == Abs(v) * factor;
      DampAxisNeverGrows(v, factor);
      assert !(Abs(v) < 1.0);
      var a, b := Abs(v) - 1.0, 1.0 - factor;
      ProductNotNegative(a, b);
      assert Abs(v) - Abs(v) * factor - b == a * b;
      assert Abs(w) <= Abs(v) - b;
    }
  }

  /** An undriven axis after n ticks of damping with the same factor. */
  function DampAxisTicks(v: real, factor: real, n: nat): real
    decreases n
  {
    if n == 0 then v else DampAxisTicks(DampAxis(v, factor), factor, n - 1)
  }

  /** The snap to zero brings an undriven axis to rest: with a factor below 1,
      n ticks stop any speed of at most n * (1 - factor). */
  lemma {:induction false} DampingReachesRest(v: real, factor: real, n: nat)
    requires 0.0 <= factor < 1.0
    requires Abs(v) <= (n as real) * (1.0 - factor)
    ensures DampAxisTicks(v, factor, n) == 0.0
    decreases n
  {
    if n == 0 {
      assert Abs(v) == 0.0;
    } else {
      var w := DampAxis(v, factor);
      DampAxisShrinks(v, factor);
      assert ((n - 1) as real) * (1.0 - factor) == (n as real) * (1.0 - factor) - (1.0 - factor);
      DampingReachesRest(w, factor, n - 1);
    }
  }

  /** The velocity after `apply_axis_damping`: each axis whose input is zero
      is damped, the others keep their speed. */
  function Damped(v: Vec2, input: Vec2, factor: real): Vec2
  {
    Vec2(if input.x == 0.0 then DampAxis(v.x, factor) else v.x,
         if input.y == 0.0 then DampAxis(v.y, factor) else v.y)
  }

  /** How one axis moves through `apply_axis_damping`: a driven axis (input
      not zero) keeps its speed; an undriven one is multiplied by the factor
      and set to rest exactly when that leaves it slower than 1. */
  predicate AxisDamped(before: real, input: real, factor: real, after: real)
  {
    && (input != 0.0 ==> after == before)
    && (input == 0.0 && 1.0 <= Abs(before * factor) ==> after == before * factor)
    && (input == 0.0 && Abs(before * factor) < 1.0 ==> after == 0.0)
  }

  /** Both axes of `Damped` move as `AxisDamped` describes. */
  lemma DampedSpec(v: Vec2, input: Vec2, factor: real)
    ensures AxisDamped(v.x, input.x, factor, Damped(v, input, factor).x)
    ensures AxisDamped(v.y, input.y, factor, Damped(v, input, factor).y)
  {
    DampedAxis(v.x, input.x, factor);
    DampedAxis(v.y, input.y, factor);
  }

  /** With a factor between 0 and 1 damping never speeds an axis up. */
  lemma DampedNeverGrows(v: Vec2, input: Vec2, factor: real)
    requires 0.0 <= factor <= 1.0
    ensures Abs(Damped(v, input, factor).x) <= Abs(v.x)
    ensures Abs(Damped(v, input, factor).y) <= Abs(v.y)
  {
    DampAxisNeverGrows(v.x, factor);
    DampAxisNeverGrows(v.y, factor);
  }

  /** One axis of `Damped` moves as `AxisDamped` describes. */
  lemma DampedAxis(a: real, input: real, factor: real)
    ensures AxisDamped(a, input, factor, if input == 0.0 then DampAxis(a, factor) else a)
  {
  }

  /** `velocity / speed * max_speed` when the speed exceeds the maximum,
      the velocity itself otherwise. A zero velocity with a negative maximum
      would divide zero by zero, so that case is excluded. */
  function SpeedClamped(v: Vec2, maxSpeed: real, sqrt: real -> real): Vec2
    requires IsSqrt(sqrt) && (0.0 <= maxSpeed || v != Zero2)
  {
    var speed := Length(v, sqrt);
    LengthSign(v, sqrt);
    if speed > maxSpeed then Scale(Div(v, speed), maxSpeed) else v
  }

  /** When the clamp rescales, the result is v stretched by the positive
      factor max / speed, and its length is exactly the maximum. */
  lemma ClampRescales(v: Vec2, maxSpeed: real, sqrt: real -> real)
    requires IsSqrt(sqrt) && 0.0 <= maxSpeed && maxSpeed < Length(v, sqrt)
    ensures SpeedClamped(v, maxSpeed, sqrt) == Scale(v, maxSpeed / Length(v, sqrt))
    ensures Length(SpeedClamped(v, maxSpeed, sqrt), sqrt) == maxSpeed
  {
    var speed := Length(v, sqrt);
    assert SpeedClamped(v, maxSpeed, sqrt) == Scale(Div(v, speed), maxSpeed);
    DivThenScale(v, speed, maxSpeed);
    RescaledLength(v, maxSpeed, sqrt);
  }

  /** Stretching v by m / |v| gives it length m. */
  lemma RescaledLength(v: Vec2, m: real, sqrt: real -> real)
    requires IsSqrt(sqrt) && 0.0 <= m && 0.0 < Length(v, sqrt)
    ensures Length(Scale(v, m / Length(v, sqrt)), sqrt) == m
  {
    var speed := Length(v, sqrt);
    var k := m / speed;
    LengthOfScaled(v, k, sqrt);
    assert Abs(k) == k;
    DivTimes(m, speed);
  }

  lemma DivTimes(m: real, d: real)
    requires d != 0.0
    ensures m / d * d == m
  {
  }

  lemma DivThenScale(v: Vec2, d: real, m: real)
    requires d != 0.0
    ensures Scale(Div(v, d), m) == Scale(v, m / d)
  {
    assert v.x / d * m == v.x * (m / d);
    assert v.y / d * m == v.y * (m / d);
  }

  /** After the clamp the speed is at most the maximum; a velocity already
      within it is kept exactly; and the result lies on the velocity's line,
      pointing the same way whenever the maximum is positive. */
  lemma ClampSpec(v: Vec2, maxSpeed: real, sqrt: real -> real)
    requires IsSqrt(sqrt) && 0.0 <= maxSpeed
    ensures Length(SpeedClamped(v, maxSpeed, sqrt), sqrt) <= maxSpeed
    ensures Length(v, sqrt) <= maxSpeed ==> SpeedClamped(v, maxSpeed, sqrt) == v
    ensures Parallel(SpeedClamped(v, maxSpeed, sqrt), v)
    ensures 0.0 < maxSpeed && v != Zero2 ==> 0.0 < Dot(SpeedClamped(v, maxSpeed, sqrt), v)
  {
    var speed := Length(v, sqrt);
    DotSelf(v);
    if maxSpeed < speed {
      var k := maxSpeed / speed;
      ClampRescales(v, maxSpeed, sqrt);
      ScaledKeepsLine(v, v, k);
    } else {
      assert SpeedClamped(v, maxSpeed, sqrt) == v;
    }
  }

  /** Clamping twice to the same maximum is the same as clamping once. */
  lemma ClampIdempotent(v: Vec2, maxSpeed: real, sqrt: real -> real)
    requires IsSqrt(sqrt) && 0.0 <= maxSpeed
    ensures SpeedClamped(SpeedClamped(v, maxSpeed, sqrt), maxSpeed, sqrt) == SpeedClamped(v, maxSpeed, sqrt)
  {
    ClampSpec(v, maxSpeed, sqrt);
    ClampSpec(SpeedClamped(v, maxSpeed, sqrt), maxSpeed, sqrt);
  }

  /** With a negative maximum every moving velocity exceeds it, so the clamp
      rescales by the negative factor max / speed: the result points against
      the velocity and has length -max. */
  lemma ClampNegativeMaximum(v: Vec2, maxSpeed: real, sqrt: real -> real)
    requires IsSqrt(sqrt) && maxSpeed < 0.0 && v != Zero2
    ensures Length(SpeedClamped(v, maxSpeed, sqrt), sqrt) == -maxSpeed
    ensures Parallel(SpeedClamped(v, maxSpeed, sqrt), v)
    ensures Dot(SpeedClamped(v, maxSpeed, sqrt), v) < 0.0
  {
    var speed := Length(v, sqrt);
    LengthSign(v, sqrt);
    var k := maxSpeed / speed;
    assert SpeedClamped(v, maxSpeed, sqrt) == Scale(v, k) by {
      assert SpeedClamped(v, maxSpeed, sqrt) == Scale(Div(v, speed), maxSpeed);
      DivThenScale(v, speed, maxSpeed);
    }
    NegativeRescale(v, speed, maxSpeed, sqrt);
  }

  /** Stretching v by the negative factor m / |v| reverses it and gives it
      length -m. */
  lemma NegativeRescale(v: Vec2, speed: real, m: real, sqrt: real -> real)
    requires IsSqrt(sqrt) && m < 0.0 && v != Zero2 && speed == Length(v, sqrt)
    requires 0.0 < speed
    ensures Length(Scale(v, m / speed), sqrt) == -m
    ensures Parallel(Scale(v, m / speed), v)
    ensures Dot(Scale(v, m / speed), v) < 0.0
  {
    var k := m / speed;
    assert k < 0.0;
    LengthOfScaled(v, k, sqrt);
    assert Abs(k) * speed == -m;
    DotSelf(v);
    ScaledKeepsLine(v, v, k);
  }

  /** Accelerating along no direction leaves the velocity as it was. */
  lemma AccelerationWithoutDirection(velocity: Vec2, direction: Vec2, acceleration: real, dt: real,
                                     sqrt: real -> real)
    requires IsSqrt(sqrt)
    ensures direction == Zero2 ==> Add(velocity, DirectedStep(direction, acceleration, dt, sqrt)) == velocity
  {
    DirectedStepSpec(direction, acceleration, dt, sqrt);
  }

  /** A body at rest with no input stays at rest through a tick of
      acceleration, damping and clamping. */
  lemma RestIsStable(velocity: Vec2, direction: Vec2, acceleration: real, damping: real, dt: real,
                     maxSpeed: real, sqrt: real -> real)
    requires IsSqrt(sqrt) && 0.0 <= maxSpeed
    requires velocity == Zero2 && direction == Zero2
    ensures SpeedClamped(
              Damped(Add(velocity, DirectedStep(direction, acceleration, dt, sqrt)), direction,
                     DampingFactor(damping, dt)),
              maxSpeed, sqrt) == Zero2
  {
    var accelerated := Add(velocity, DirectedStep(direction, acceleration, dt, sqrt));
    assert accelerated == Zero2 by {
      AccelerationWithoutDirection(velocity, direction, acceleration, dt, sqrt);
    }
    var factor := DampingFactor(damping, dt);
    assert Damped(accelerated, direction, factor) == Zero2 by {
      DampedAtRest(direction, factor);
    }
    ClampAtRest(maxSpeed, sqrt);
  }

  lemma DampedAtRest(input: Vec2, factor: real)
    ensures Damped(Zero2, input, factor) == Zero2
  {
    assert DampAxis(0.0, factor) == 0.0;
  }

  lemma ClampAtRest(maxSpeed: real, sqrt: real -> real)
    requires IsSqrt(sqrt) && 0.0 <= maxSpeed
    ensures SpeedClamped(Zero2, maxSpeed, sqrt) == Zero2
  {
    LengthNotNegative(Zero2, sqrt);
  }

  /** `Movable`: the velocity of one entity, updated in place. */
  class Movable {
    var velocity: Vec2

    /** `Movable::new()`: at rest. */
    constructor ()
      ensures velocity == Zero2
    {
      velocity := Zero2;
    }

    /** `apply_acceleration`: adds the normalised direction times the
        acceleration times dt. */
    method ApplyAcceleration(direction: Vec2, acceleration: real, dt: real, sqrt: real -> real)
      modifies this
      ensures velocity == Add(old(velocity), DirectedStep(direction, acceleration, dt, sqrt))
    {
      var accelWorld := Scale(NormalizeOrZero(direction, sqrt), acceleration);
      ScaleTwice(NormalizeOrZero(direction, sqrt), acceleration, dt);
      velocity := Add(velocity, Scale(accelWorld, dt));
    }

    /** `apply_axis_damping`: damps each axis the input does not drive. */
    method ApplyAxisDamping(inputDirection: Vec2, damping: real, dt: real)
      modifies this
      ensures velocity == Damped(old(velocity), inputDirection, DampingFactor(damping, dt))
    {
      var factor := DampingFactor(damping, dt);
      ghost var damped := Damped(velocity, inputDirection, factor);
      if inputDirection.x == 0.0 {
        velocity := velocity.(x := velocity.x * factor);
        if Abs(velocity.x) < 1.0 {
          velocity := velocity.(x := 0.0);
        }
      }
      assert velocity.x == damped.x;
      if inputDirection.y == 0.0 {
        velocity := velocity.(y := velocity.y * factor);
        if Abs(velocity.y) < 1.0 {
          velocity := velocity.(y := 0.0);
        }
      }
    }

    /** `clamp_max_speed`: rescales the velocity to the maximum speed when it
        is faster. */
    method ClampMaxSpeed(maxSpeed: real, sqrt: real -> real)
      requires IsSqrt(sqrt) && (0.0 <= maxSpeed || velocity != Zero2)
      modifies this
      ensures velocity == SpeedClamped(old(velocity), maxSpeed, sqrt)
    {
      var speed := Length(velocity, sqrt);
      if speed > maxSpeed {
        LengthSign(velocity, sqrt);
        velocity := Scale(Div(velocity, speed), maxSpeed);
      }
    }

    /** `integrate_position`: moves the transform by velocity * dt in x and y;
        the depth, the scale and the velocity are left as they were. */
    method IntegratePosition(transform: Transform, dt: real)
      modifies transform
      ensures transform.translation == Vec3(old(transform.translation.x) + velocity.x * dt,
                                            old(transform.translation.y) + velocity.y * dt,
                                            old(transform.translation.z))
      ensures transform.scale == old(transform.scale)
      ensures velocity == old(velocity)
    {
      transform.translation := transform.translation.(x := transform.translation.x + velocity.x * dt);
      transform.translation := transform.translation.(y := transform.translation.y + velocity.y * dt);
    }
  }
}
