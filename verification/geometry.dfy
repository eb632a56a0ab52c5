/**
 * Three-dimensional vectors over the reals, standing in for UnityEngine.Vector3.
 * The host computes in single-precision floating point; this model computes exactly.
 */
module Geometry {

  /** A point or a direction in world space. */
  datatype Vec3 = Vec3(x: real, y: real, z: real)

  function Add(a: Vec3, b: Vec3): Vec3
  {
    Vec3(a.x + b.x, a.y + b.y, a.z + b.z)
  }

  function Sub(a: Vec3, b: Vec3): Vec3
  {
    Vec3(a.x - b.x, a.y - b.y, a.z - b.z)
  }

  /** `a * k` in the host's notation. */
  function Scale(a: Vec3, k: real): Vec3
  {
    Vec3(a.x * k, a.y * k, a.z * k)
  }

  function Dot(a: Vec3, b: Vec3): real
  {
    a.x * b.x + a.y * b.y + a.z * b.z
  }

  /** A direction of length one, such as the `up` axis of a rigid transform. */
  predicate IsUnit(u: Vec3)
  {
    Dot(u, u) == 1.0
  }

  lemma DotAdd(a: Vec3, b: Vec3, v: Vec3)
    ensures Dot(Add(a, b), v) == Dot(a, v) + Dot(b, v)
  {
  }

  lemma DotScale(u: Vec3, k: real, v: Vec3)
    ensures Dot(Scale(u, k), v) == k * Dot(u, v)
  {
  }
}
