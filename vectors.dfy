/** Three-component vectors and axis-aligned boxes over the reals: the parts of
    three.js's Vector3 and Box3 that the annotation core uses. */
module Vectors {

  datatype Vec3 = Vec3(x: real, y: real, z: real)

  /** An axis-aligned bounding box, as Box3 holds it (min and max corners). */
  datatype Box3 = Box3(min: Vec3, max: Vec3)

  function Add(a: Vec3, b: Vec3): Vec3 { Vec3(a.x + b.x, a.y + b.y, a.z + b.z) }

  function Sub(a: Vec3, b: Vec3): Vec3 { Vec3(a.x - b.x, a.y - b.y, a.z - b.z) }

  function Scale(a: Vec3, k: real): Vec3 { Vec3(k * a.x, k * a.y, k * a.z) }

  function Neg(a: Vec3): Vec3 { Vec3(-a.x, -a.y, -a.z) }

  function Dot(a: Vec3, b: Vec3): real { a.x * b.x + a.y * b.y + a.z * b.z }

  /** Squared Euclidean length (the model never takes square roots). */
  function LengthSq(a: Vec3): real { Dot(a, a) }

  /** Squared Euclidean distance, the square of Vector3.distanceTo. */
  function DistanceSq(a: Vec3, b: Vec3): real { LengthSq(Sub(a, b)) }

  function Min(a: real, b: real): real { if a <= b then a else b }

  function Max(a: real, b: real): real { if a >= b then a else b }

  function Abs(a: real): real { if a < 0.0 then -a else a }

  /** Componentwise Math.min of two points. */
  function CMin(a: Vec3, b: Vec3): Vec3 { Vec3(Min(a.x, b.x), Min(a.y, b.y), Min(a.z, b.z)) }

  /** Componentwise Math.max of two points. */
  function CMax(a: Vec3, b: Vec3): Vec3 { Vec3(Max(a.x, b.x), Max(a.y, b.y), Max(a.z, b.z)) }

  predicate LessEq(a: Vec3, b: Vec3) { a.x <= b.x && a.y <= b.y && a.z <= b.z }

  predicate NonNegative(v: Vec3) { v.x >= 0.0 && v.y >= 0.0 && v.z >= 0.0 }

  predicate NonPositive(v: Vec3) { v.x <= 0.0 && v.y <= 0.0 && v.z <= 0.0 }

  /** All components share one sign (zero counts as either sign). */
  predicate SingleSigned(v: Vec3) { NonNegative(v) || NonPositive(v) }

  /** One of the six vectors +x, -x, +y, -y, +z, -z. */
  predicate IsUnitAxis(v: Vec3)
  {
    || (Abs(v.x) == 1.0 && v.y == 0.0 && v.z == 0.0)
    || (v.x == 0.0 && Abs(v.y) == 1.0 && v.z == 0.0)
    || (v.x == 0.0 && v.y == 0.0 && Abs(v.z) == 1.0)
  }

  /** A box whose min corner does not exceed its max corner on any axis. */
  predicate WellFormed(b: Box3) { LessEq(b.min, b.max) }

  /** The eight corners of a box. */
  predicate IsCorner(p: Vec3, b: Box3)
  {
    && (p.x == b.min.x || p.x == b.max.x)
    && (p.y == b.min.y || p.y == b.max.y)
    && (p.z == b.min.z || p.z == b.max.z)
  }

  /** A unit axis vector has one sign on all its components, so it is a
      valid extrude vector for a dimension overlay. */
  lemma UnitAxisSingleSigned(v: Vec3)
    requires IsUnitAxis(v)
    ensures SingleSigned(v)
  {
  }
}
