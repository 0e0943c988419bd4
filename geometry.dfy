/** Two- and three-component vectors over the reals, standing for the engine's
    f32 vectors. Rounding, NaN and infinities are not modelled.

    The engine computes lengths with a floating-point square root. Here that
    routine is a parameter `sqrt` of every member that needs a length, and
    `IsSqrt` says what is assumed of it: it returns the non-negative root of
    every non-negative real. Non-negative roots are unique (RootUnique), so no
    length depends on which such function is passed (LengthIndependent). */
module Geometry {

  datatype Vec2 = Vec2(x: real, y: real)

  datatype Vec3 = Vec3(x: real, y: real, z: real)

  const Zero2: Vec2 := Vec2(0.0, 0.0)

  function Abs(a: real): real
  {
    if a < 0.0 then -a else a
  }

  function Min(a: real, b: real): real
  {
    if b < a then b else a
  }

  function Add(a: Vec2, b: Vec2): Vec2
  {
    Vec2(a.x + b.x, a.y + b.y)
  }

  /** `v * k`: every component multiplied by the scalar k. */
  function Scale(v: Vec2, k: real): Vec2
  {
    Vec2(v.x * k, v.y * k)
  }

  /** `v / k`: every component divided by the scalar k. */
  function Div(v: Vec2, k: real): Vec2
    requires k != 0.0
  {
    Vec2(v.x / k, v.y / k)
  }

  function Dot(a: Vec2, b: Vec2): real
  {
    a.x * b.x + a.y * b.y
  }

  /** a and b lie on one line through the origin. */
  predicate Parallel(a: Vec2, b: Vec2)
  {
    a.x * b.y == a.y * b.x
  }

  /** The identity on reals. `Sq` multiplies by it, for solver performance:
      the solver then keeps a square as a product rather than reducing it to
      a sign test. */
  function Id(a: real): real
  {
    a
  }

  /** The square of a. */
  function Sq(a: real): real
  {
    a * Id(a)
  }

  /** A square is never negative, and it is positive exactly when a is not
      zero. */
  lemma SqSign(a: real)
    ensures 0.0 <= Sq(a)
    ensures a != 0.0 <==> 0.0 < Sq(a)
  {
    if a < 0.0 {
      assert Sq(a) == (-a) * (-Id(a));
    }
  }

  lemma SqOfProduct(a: real, b: real)
    ensures Sq(a * b) == Sq(a) * Sq(b)
  {
    assert Sq(a * b) == (a * Id(a)) * (b * Id(b));
  }

  /** What the model assumes of the engine's square root: it returns the
      non-negative root of every non-negative real. The comparisons are
      written as negated strict ones because the solver handles that form
      markedly faster inside this quantifier. */
  ghost predicate IsSqrt(sqrt: real -> real)
  {
    forall a :: !(a < 0.0) ==> !(sqrt(a) < 0.0) && Sq(sqrt(a)) == a
  }

  /** `v.length()`: the engine's square root of the sum of the squared
      components. */
  function Length(v: Vec2, sqrt: real -> real): real
  {
    sqrt(Sq(v.x) + Sq(v.y))
  }

  /** The squared length is never negative, and it is positive exactly for a
      vector other than zero. */
  lemma LengthSquaredSign(v: Vec2)
    ensures 0.0 <= Sq(v.x) + Sq(v.y)
    ensures v != Zero2 <==> 0.0 < Sq(v.x) + Sq(v.y)
  {
    assert v != Zero2 <==> v.x != 0.0 || v.y != 0.0;
    SqSign(v.x);
    SqSign(v.y);
  }

  /** A vector's dot product with itself is its squared length, so it is
      positive for any vector other than zero. */
  lemma DotSelf(v: Vec2)
    ensures Dot(v, v) == Sq(v.x) + Sq(v.y)
    ensures v != Zero2 ==> 0.0 < Dot(v, v)
  {
    LengthSquaredSign(v);
  }

  /** The length is a non-negative root of the squared length, and it is
      positive exactly for a vector other than zero. */
  lemma LengthSign(v: Vec2, sqrt: real -> real)
    requires IsSqrt(sqrt)
    ensures 0.0 <= Length(v, sqrt)
    ensures Sq(Length(v, sqrt)) == Sq(v.x) + Sq(v.y)
    ensures v != Zero2 <==> 0.0 < Length(v, sqrt)
  {
    LengthSquaredSign(v);
    SqSign(Length(v, sqrt));
  }

  /** The length is never negative, and it is zero for the zero vector. This
      repeats two consequences of `LengthSign` without its other clauses, for
      solver performance where a zero vector is in scope. */
  lemma LengthNotNegative(v: Vec2, sqrt: real -> real)
    requires IsSqrt(sqrt)
    ensures 0.0 <= Length(v, sqrt)
    ensures v == Zero2 ==> Length(v, sqrt) == 0.0
  {
    LengthSign(v, sqrt);
  }

  /** Of two non-negative reals, the one with the larger square is the larger. */
  lemma RootMonotone(a: real, b: real)
    requires 0.0 <= a && 0.0 <= b && Sq(a) <= Sq(b)
    ensures a <= b
  {
    var d := a - b;
    assert Sq(a) == Sq(b) + 2.0 * b * d + d * d;
  }

  /** A non-negative real is determined by its square. */
  lemma RootUnique(a: real, b: real)
    requires 0.0 <= a && 0.0 <= b && Sq(a) == Sq(b)
    ensures a == b
  {
    RootMonotone(a, b);
    RootMonotone(b, a);
  }

  /** Every function meeting `IsSqrt` gives the same lengths, so no result
      of the model depends on which one is passed. */
  lemma LengthIndependent(v: Vec2, s1: real -> real, s2: real -> real)
    requires IsSqrt(s1) && IsSqrt(s2)
    ensures Length(v, s1) == Length(v, s2)
  {
    LengthSign(v, s1);
    LengthSign(v, s2);
    RootUnique(Length(v, s1), Length(v, s2));
  }

  lemma LengthSquaredOfScaled(v: Vec2, k: real)
    ensures Sq(v.x * k) + Sq(v.y * k) == Sq(k) * (Sq(v.x) + Sq(v.y))
  {
    SqOfProduct(v.x, k);
    SqOfProduct(v.y, k);
  }

  lemma SqOfAbsProduct(k: real, l: real)
    ensures Sq(Abs(k) * l) == Sq(k) * Sq(l)
  {
    SqOfProduct(k, l);
    if k < 0.0 {
      assert Abs(k) * l == -(k * l);
      SqOfProduct(-1.0, k * l);
    }
  }

  /** Scaling by k scales the length by |k|. */
  lemma LengthOfScaled(v: Vec2, k: real, sqrt: real -> real)
    requires IsSqrt(sqrt)
    ensures Length(Scale(v, k), sqrt) == Abs(k) * Length(v, sqrt)
  {
    ScaledLengthSquared(v, k, sqrt);
    RootUnique(Length(Scale(v, k), sqrt), Abs(k) * Length(v, sqrt));
  }

  lemma ScaledLengthSquared(v: Vec2, k: real, sqrt: real -> real)
    requires IsSqrt(sqrt)
    ensures Sq(Length(Scale(v, k), sqrt)) == Sq(Abs(k) * Length(v, sqrt))
    ensures 0.0 <= Length(Scale(v, k), sqrt) && 0.0 <= Abs(k) * Length(v, sqrt)
  {
    var l := Length(v, sqrt);
    LengthSign(v, sqrt);
    LengthSign(Scale(v, k), sqrt);
    LengthSquaredOfScaled(v, k);
    SqOfAbsProduct(k, l);
  }

  /** A vector whose squared length is 1 has length 1. */
  lemma UnitLength(v: Vec2, sqrt: real -> real)
    requires IsSqrt(sqrt) && Sq(v.x) + Sq(v.y) == 1.0
    ensures Length(v, sqrt) == 1.0
  {
    LengthSign(v, sqrt);
    assert Sq(1.0) == 1.0;
    RootUnique(Length(v, sqrt), 1.0);
  }

  /** `v.normalize_or_zero()`: zero when the length is zero, otherwise v
      multiplied by the reciprocal of its length. */
  function NormalizeOrZero(v: Vec2, sqrt: real -> real): Vec2
  {
    var l := Length(v, sqrt);
    if l == 0.0 then Zero2 else Scale(v, 1.0 / l)
  }

  /** Normalising keeps the zero vector; any other vector becomes the unit
      vector on its line that points the same way. */
  lemma NormalizeOrZeroSpec(v: Vec2, sqrt: real -> real)
    requires IsSqrt(sqrt)
    ensures v == Zero2 ==> NormalizeOrZero(v, sqrt) == Zero2
    ensures v != Zero2 ==> Length(NormalizeOrZero(v, sqrt), sqrt) == 1.0
    ensures Parallel(NormalizeOrZero(v, sqrt), v)
    ensures v != Zero2 ==> 0.0 < Dot(NormalizeOrZero(v, sqrt), v)
  {
    LengthSign(v, sqrt);
    var l := Length(v, sqrt);
    if v != Zero2 {
      var k := 1.0 / l;
      LengthSquaredOfScaled(v, k);
      assert k * k * (l * l) == 1.0;
      UnitLength(Scale(v, k), sqrt);
      assert Dot(Scale(v, k), v) == k * (Sq(v.x) + Sq(v.y));
      assert 0.0 < k * (Sq(v.x) + Sq(v.y)) by {
        LengthSquaredSign(v);
      }
    }
  }

  /** Normalising a vector scaled by a positive k gives the same unit vector. */
  lemma NormalizeScaleInvariant(v: Vec2, k: real, sqrt: real -> real)
    requires IsSqrt(sqrt) && 0.0 < k
    ensures NormalizeOrZero(Scale(v, k), sqrt) == NormalizeOrZero(v, sqrt)
  {
    var l := Length(v, sqrt);
    var m := Length(Scale(v, k), sqrt);
    assert m == k * l by {
      LengthOfScaled(v, k, sqrt);
    }
    if l == 0.0 {
      assert NormalizeOrZero(v, sqrt) == Zero2;
      assert NormalizeOrZero(Scale(v, k), sqrt) == Zero2;
    } else {
      assert NormalizeOrZero(v, sqrt) == Scale(v, 1.0 / l);
      assert NormalizeOrZero(Scale(v, k), sqrt) == Scale(Scale(v, k), 1.0 / (k * l));
      ScaleCancel(v, k, l);
    }
  }

  lemma ScaleCancel(v: Vec2, k: real, l: real)
    requires k != 0.0 && l != 0.0
    ensures Scale(Scale(v, k), 1.0 / (k * l)) == Scale(v, 1.0 / l)
  {
    CancelFactor(v.x, k, l);
    CancelFactor(v.y, k, l);
  }

  lemma CancelFactor(a: real, k: real, l: real)
    requires k != 0.0 && l != 0.0
    ensures (a * k) * (1.0 / (k * l)) == a * (1.0 / l)
  {
    assert (a * k) * (1.0 / (k * l)) == (a * k) / (k * l);
  }

  /** `direction.normalize_or_zero() * rate * dt`: how far a step of duration
      dt at the given rate moves along the direction. The engine multiplies by
      the rate and then by dt; over the reals the grouping does not matter
      (ScaleTwice), and the step is written with the single factor rate * dt. */
  function DirectedStep(direction: Vec2, rate: real, dt: real, sqrt: real -> real): Vec2
  {
    Scale(NormalizeOrZero(direction, sqrt), rate * dt)
  }

  /** The engine's per-component form of the step. */
  lemma DirectedStepComponents(direction: Vec2, rate: real, dt: real, sqrt: real -> real)
    ensures var n := NormalizeOrZero(direction, sqrt);
      DirectedStep(direction, rate, dt, sqrt) == Vec2(n.x * rate * dt, n.y * rate * dt)
  {
  }

  /** A step along no direction is zero; along any other it lies on the
      direction's line and, for a positive rate * dt, points the same way. */
  lemma DirectedStepSpec(direction: Vec2, rate: real, dt: real, sqrt: real -> real)
    requires IsSqrt(sqrt)
    ensures direction == Zero2 ==> DirectedStep(direction, rate, dt, sqrt) == Zero2
    ensures Parallel(DirectedStep(direction, rate, dt, sqrt), direction)
    ensures direction != Zero2 && 0.0 < rate * dt ==>
      0.0 < Dot(DirectedStep(direction, rate, dt, sqrt), direction)
  {
    var n := NormalizeOrZero(direction, sqrt);
    NormalizeOrZeroSpec(direction, sqrt);
    ScaledKeepsLine(n, direction, rate * dt);
  }

  /** A step along a direction other than zero has length |rate * dt|. */
  lemma DirectedStepLength(direction: Vec2, rate: real, dt: real, sqrt: real -> real)
    requires IsSqrt(sqrt) && direction != Zero2
    ensures Length(DirectedStep(direction, rate, dt, sqrt), sqrt) == Abs(rate * dt)
  {
    var n := NormalizeOrZero(direction, sqrt);
    var k := rate * dt;
    NormalizeOrZeroSpec(direction, sqrt);
    LengthOfScaled(n, k, sqrt);
    assert Abs(k) * Length(n, sqrt) == Abs(k);
  }

  lemma ScaleTwice(v: Vec2, a: real, b: real)
    ensures Scale(Scale(v, a), b) == Scale(v, a * b)
  {
    assert v.x * a * b == v.x * (a * b);
    assert v.y * a * b == v.y * (a * b);
  }

  /** Scaling u keeps it on w's line, and scales its projection onto w. */
  lemma ScaledKeepsLine(u: Vec2, w: Vec2, k: real)
    ensures Parallel(u, w) ==> Parallel(Scale(u, k), w)
    ensures Dot(Scale(u, k), w) == k * Dot(u, w)
    ensures 0.0 < k && 0.0 < Dot(u, w) ==> 0.0 < Dot(Scale(u, k), w)
  {
    assert (u.x * k) * w.y - (u.y * k) * w.x == k * (u.x * w.y - u.y * w.x);
  }

  /** Stretching the direction by a positive factor does not change the step. */
  lemma DirectedStepScaleInvariant(direction: Vec2, k: real, rate: real, dt: real, sqrt: real -> real)
    requires IsSqrt(sqrt) && 0.0 < k
    ensures DirectedStep(Scale(direction, k), rate, dt, sqrt) == DirectedStep(direction, rate, dt, sqrt)
  {
    NormalizeScaleInvariant(direction, k, sqrt);
  }
}
