/**
 * Unity's `Vector3` with idealised real coordinates, and the few vector
 * operations the trajectory code uses: `+`, `-`, scaling by a scalar and
 * `normalized`.  Magnitudes (`Vector3.Distance`) involve a square root, so the
 * model works with squared distances and takes magnitudes as inputs.
 */
module Geometry {

  datatype Vec3 = Vec3(x: real, y: real, z: real)

  /** `Vector3.zero` */
  const Zero: Vec3 := Vec3(0.0, 0.0, 0.0)

  /** `Vector3.forward` */
  const Forward: Vec3 := Vec3(0.0, 0.0, 1.0)

  function Add(u: Vec3, v: Vec3): Vec3 {
    Vec3(u.x + v.x, u.y + v.y, u.z + v.z)
  }

  function Sub(u: Vec3, v: Vec3): Vec3 {
    Vec3(u.x - v.x, u.y - v.y, u.z - v.z)
  }

  function Scale(v: Vec3, c: real): Vec3 {
    Vec3(v.x * c, v.y * c, v.z * c)
  }

  function SqNorm(v: Vec3): real {
    v.x * v.x + v.y * v.y + v.z * v.z
  }

  /** The square of `Vector3.Distance(u, v)`. */
  function SqDist(u: Vec3, v: Vec3): real {
    SqNorm(Sub(v, u))
  }

  /** `v.normalized`, given the magnitude `mag` of `v`. */
  function Normalized(v: Vec3, mag: real): Vec3 {
    if mag > 0.0 then Scale(v, 1.0 / mag) else Zero
  }

  /** The point `start + direction * s`. */
  function AlongLine(start: Vec3, direction: Vec3, s: real): Vec3 {
    Add(start, Scale(direction, s))
  }

  /**
   * Walking `s` along the unit direction from `start` towards `end` puts the
   * point at squared distance `s * s` from `start`.
   */
  lemma AlongLineDistance(start: Vec3, end: Vec3, mag: real, s: real)
    requires mag > 0.0 && mag * mag == SqDist(start, end)
    ensures SqDist(start, AlongLine(start, Normalized(Sub(end, start), mag), s)) == s * s
  {
  }

  /** Walking zero along any direction stays at `start`. */
  lemma AlongLineZero(start: Vec3, direction: Vec3)
    ensures AlongLine(start, direction, 0.0) == start
  {
  }
}
