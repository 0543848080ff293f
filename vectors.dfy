/** Three-component vectors (the `Vec3` of the glam library used by the
    arm), with exact real components instead of `f32`. */
module Vectors {

  datatype Vec3 = Vec3(x: real, y: real, z: real)

  /** `Vec3::ZERO` and the cardinal unit vectors `Vec3::X`, `Vec3::Y`, `Vec3::Z`. */
  const Zero := Vec3(0.0, 0.0, 0.0)
  const UnitX := Vec3(1.0, 0.0, 0.0)
  const UnitY := Vec3(0.0, 1.0, 0.0)
  const UnitZ := Vec3(0.0, 0.0, 1.0)

  /** `a + b` */
  function Add(a: Vec3, b: Vec3): Vec3 {
    Vec3(a.x + b.x, a.y + b.y, a.z + b.z)
  }

  /** `a - b` */
  function Sub(a: Vec3, b: Vec3): Vec3 {
    Vec3(a.x - b.x, a.y - b.y, a.z - b.z)
  }

  /** `a * s`, a vector scaled by a scalar */
  function Scale(a: Vec3, s: real): Vec3 {
    Vec3(a.x * s, a.y * s, a.z * s)
  }

  /** The squared length `a.length_squared()`. */
  function LengthSq(a: Vec3): real {
    a.x * a.x + a.y * a.y + a.z * a.z
  }
}
