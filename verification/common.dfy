/** Shared vocabulary of the model: optional values, exact 3-vectors and
    C#'s 32-bit `int` with its unchecked wrap-around. */
module Common {

  /** A value that may be absent, standing for a C# null or a failed engine query. */
  datatype Option<T> = None | Some(value: T)

  /** A `Vector3` with exact real components (no float rounding). */
  datatype Vec3 = Vec3(x: real, y: real, z: real)

  function Add(a: Vec3, b: Vec3): Vec3
  {
    Vec3(a.x + b.x, a.y + b.y, a.z + b.z)
  }

  function Sub(a: Vec3, b: Vec3): Vec3
  {
    Vec3(a.x - b.x, a.y - b.y, a.z - b.z)
  }

  function Scale(v: Vec3, k: real): Vec3
  {
    Vec3(v.x * k, v.y * k, v.z * k)
  }

  /** `sqrMagnitude` of a vector. */
  function SqrMagnitude(v: Vec3): (r: real)
    ensures r >= 0.0
  {
    v.x * v.x + v.y * v.y + v.z * v.z
  }

  const I32Modulus: int := 0x1_0000_0000

  /** C#'s `int`. */
  newtype i32 = x: int | -0x8000_0000 <= x < 0x8000_0000

  /** The value an unchecked C# `int` operation stores when its exact result is `x`. */
  function WrapI32(x: int): (r: i32)
    ensures -0x8000_0000 <= x < 0x8000_0000 ==> r as int == x
    ensures (r as int - x) % I32Modulus == 0
  {
    ((x + 0x8000_0000) % I32Modulus - 0x8000_0000) as i32
  }
}
