/** Three-dimensional vectors over the reals, standing in for the engine's Vector3.
    Lengths are never taken: a distance test d < R is written as |v|^2 < R^2, and
    normalisation is supplied by the caller as a function (see `Normalizer`). */
module Vectors {

  datatype Vec3 = Vec3(x: real, y: real, z: real)

  const ZERO := Vec3(0.0, 0.0, 0.0)

  /** The engine's `Normalized()`: library-defined, so the model never fixes it. */
  type Normalizer = Vec3 -> Vec3

  function Add(a: Vec3, b: Vec3): Vec3 {
    Vec3(a.x + b.x, a.y + b.y, a.z + b.z)
  }

  function Sub(a: Vec3, b: Vec3): Vec3 {
    Vec3(a.x - b.x, a.y - b.y, a.z - b.z)
  }

  function Scale(a: Vec3, k: real): Vec3 {
    Vec3(a.x * k, a.y * k, a.z * k)
  }

  function Dot(a: Vec3, b: Vec3): real {
    a.x * b.x + a.y * b.y + a.z * b.z
  }

  /** Squared Euclidean length. */
  function LengthSq(a: Vec3): (r: real)
    ensures r >= 0.0
  {
    SquarePositive(a.x);
    SquarePositive(a.y);
    SquarePositive(a.z);
    Dot(a, a)
  }

  lemma LengthSqZero()
    ensures LengthSq(ZERO) == 0.0
  {
  }

  lemma SquarePositive(t: real)
    ensures t * t >= 0.0
  {
    if t < 0.0 {
      assert t * t == (-t) * (-t);
    }
  }

  /** The square of a scalar: the threshold a distance test compares against. */
  function Sq(a: real): real {
    a * a
  }

  /** `a` points the same way as `b` (a positive multiple of it). */
  ghost predicate SameDirection(a: Vec3, b: Vec3) {
    exists k: real :: k > 0.0 && a == Scale(b, k)
  }

  /** `n` is what a correct normalisation of a non-zero `v` returns. */
  ghost predicate IsUnitOf(n: Vec3, v: Vec3) {
    v != ZERO && LengthSq(n) == 1.0 && SameDirection(n, v)
  }

  lemma LengthSqScale(a: Vec3, k: real)
    ensures LengthSq(Scale(a, k)) == k * k * LengthSq(a)
  {
    calc {
      LengthSq(Scale(a, k));
      (a.x * k) * (a.x * k) + (a.y * k) * (a.y * k) + (a.z * k) * (a.z * k);
      k * k * (a.x * a.x + a.y * a.y + a.z * a.z);
    }
  }

  /** Scaling a unit vector in the direction of `v` by `s > 0` gives a vector of
      squared length s^2 that still points along `v`. */
  lemma {:induction false} ScaledUnit(n: Vec3, v: Vec3, s: real)
    requires IsUnitOf(n, v) && s > 0.0
    ensures LengthSq(Scale(n, s)) == Sq(s)
    ensures SameDirection(Scale(n, s), v)
  {
    LengthSqScale(n, s);
    var k: real :| k > 0.0 && n == Scale(v, k);
    assert Scale(n, s) == Scale(v, k * s);
    assert k * s > 0.0;
  }
}
