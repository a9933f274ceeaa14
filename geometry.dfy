/**
 * Vector arithmetic over the reals, standing in for Unity's single-precision
 * `Vector3` and `Quaternion`, and the single-precision constants the scripts
 * compare against, written out as their exact values.
 */
module Geometry {

  datatype Vec3 = Vec3(x: real, y: real, z: real)

  /** A rotation; only its identity matters to the placement logic. */
  datatype Quat = Quat(x: real, y: real, z: real, w: real)

  /** `Vector3.up`. */
  const Up: Vec3 := Vec3(0.0, 1.0, 0.0)

  /** `float.MaxValue`, the largest finite single-precision value. */
  const FloatMax: real := 340282346638528859811704183484516925440.0

  function Add(a: Vec3, b: Vec3): Vec3 {
    Vec3(a.x + b.x, a.y + b.y, a.z + b.z)
  }

  function Sub(a: Vec3, b: Vec3): Vec3 {
    Vec3(a.x - b.x, a.y - b.y, a.z - b.z)
  }

  /** `v * k` for a vector and a scalar. */
  function Scale(v: Vec3, k: real): Vec3 {
    Vec3(v.x * k, v.y * k, v.z * k)
  }

  /** `v.sqrMagnitude`. */
  function SqrMagnitude(v: Vec3): real {
    v.x * v.x + v.y * v.y + v.z * v.z
  }

  /** The vector with its vertical component set to zero. */
  function Horizontal(v: Vec3): Vec3 {
    v.(y := 0.0)
  }

  /**
   * The square of the distance between the projections of `a` and `b` on the
   * horizontal XZ plane: the square of `Vector2.Distance((a.x, a.z), (b.x, b.z))`.
   * Comparing squares picks the same minimum as comparing the distances.
   */
  function XZDistSq(a: Vec3, b: Vec3): real {
    (a.x - b.x) * (a.x - b.x) + (a.z - b.z) * (a.z - b.z)
  }
}
