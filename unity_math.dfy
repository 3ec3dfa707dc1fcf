/**
 * The value types of the host engine that the grass renderer uses: three- and
 * four-component vectors and the 32-bit integers of C#.
 * Vector components are exact reals: floating-point rounding is not modelled,
 * and vector equality is exact (the engine's `==` on vectors is approximate).
 */
module UnityMath {

  /** A world-space point or a scale vector. */
  datatype Vec3 = Vec3(x: real, y: real, z: real)

  /** A packed 4-float record; for an instance: position (x, y, z) and blade size (w). */
  datatype Vec4 = Vec4(x: real, y: real, z: real, w: real)

  const Zero3: Vec3 := Vec3(0.0, 0.0, 0.0)

  /** Component-wise sum, the engine's `Vector3 + Vector3`. */
  function Add(a: Vec3, b: Vec3): Vec3 {
    Vec3(a.x + b.x, a.y + b.y, a.z + b.z)
  }

  /** The implicit widening of a Vector3 to a Vector4 (w = 0). */
  function Widen3(v: Vec3): Vec4 {
    Vec4(v.x, v.y, v.z, 0.0)
  }

  const Two32: int := 0x1_0000_0000

  /** C#'s `int`. */
  newtype int32 = x: int | -0x8000_0000 <= x < 0x8000_0000

  /** C#'s `uint`. */
  newtype uint32 = x: int | 0 <= x < 0x1_0000_0000

  /**
   * C#'s unchecked conversion `(uint)x` of an `int`: the same 32 bits read as
   * unsigned, so a negative value wraps around to the top of the range.
   */
  function UncheckedToUInt32(x: int32): (r: uint32)
    ensures x >= 0 ==> r as int == x as int
    ensures x < 0 ==> r as int == x as int + Two32
  {
    (x as int % Two32) as uint32
  }

  function Abs(x: real): (r: real)
    ensures r >= 0.0 && (r == x || r == -x)
  {
    if x < 0.0 then -x else x
  }
}
