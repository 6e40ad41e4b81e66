/**
 * Vector, quaternion and matrix values shared by the whole engine.
 *
 * Vectors hold mathematical reals. Every floating-point routine the engine
 * borrows from glm, from PhysX or from the C math library (trigonometry,
 * square roots, quaternion/Euler conversion, projection and view matrices,
 * float division) is an uninterpreted function: the model fixes which
 * routine is applied to which arguments, never what number comes out.
 */
module Glm {

  datatype Vec2 = Vec2(x: real, y: real)
  datatype Vec3 = Vec3(x: real, y: real, z: real)
  datatype Vec4 = Vec4(x: real, y: real, z: real, w: real)
  /** A rotation quaternion, stored (w, x, y, z) as glm::quat and PxQuat do. */
  datatype Quat = Quat(w: real, x: real, y: real, z: real)
  /** A 4x4 matrix, column-major (sixteen entries). */
  datatype Mat4 = Mat4(entries: seq<real>)

  const Zero2: Vec2 := Vec2(0.0, 0.0)
  const Zero3: Vec3 := Vec3(0.0, 0.0, 0.0)
  const One3: Vec3 := Vec3(1.0, 1.0, 1.0)
  const UnitX: Vec3 := Vec3(1.0, 0.0, 0.0)
  const UnitY: Vec3 := Vec3(0.0, 1.0, 0.0)
  const UnitZ: Vec3 := Vec3(0.0, 0.0, 1.0)
  const White: Vec4 := Vec4(1.0, 1.0, 1.0, 1.0)
  const IdentityQuat: Quat := Quat(1.0, 0.0, 0.0, 0.0)
  const Identity: Mat4 := Mat4([1.0, 0.0, 0.0, 0.0,
                                0.0, 1.0, 0.0, 0.0,
                                0.0, 0.0, 1.0, 0.0,
                                0.0, 0.0, 0.0, 1.0])

  function Add(a: Vec3, b: Vec3): Vec3 { Vec3(a.x + b.x, a.y + b.y, a.z + b.z) }
  function Sub(a: Vec3, b: Vec3): Vec3 { Vec3(a.x - b.x, a.y - b.y, a.z - b.z) }
  function Mul(v: Vec3, k: real): Vec3 { Vec3(v.x * k, v.y * k, v.z * k) }
  function Extend(v: Vec3, w: real): Vec4 { Vec4(v.x, v.y, v.z, w) }

  /** Degrees to radians (glm::radians) and back (glm::degrees). */
  const Radians: Vec3 -> Vec3
  const Degrees: Vec3 -> Vec3
  const RadiansOf: real -> real

  /** glm::quat(eulerRadians): quaternion of pitch/yaw/roll angles. */
  const QuatFromEuler: Vec3 -> Quat
  /** glm::eulerAngles(q): Euler angles in radians. */
  const EulerAngles: Quat -> Vec3
  /** glm::normalize on quaternions and on vectors. */
  const NormalizeQuat: Quat -> Quat
  const Normalize: Vec3 -> Vec3
  const Cross: (Vec3, Vec3) -> Vec3
  /** glm::distance (a square root). */
  const Distance: (Vec3, Vec3) -> real

  /** PxQuat(angle, axis) and the PhysX quaternion product. */
  const AxisAngle: (real, Vec3) -> Quat
  const QuatMul: (Quat, Quat) -> Quat

  /** Matrix routines of glm. */
  const Translate: (Mat4, Vec3) -> Mat4
  const ScaleMat: (Mat4, Vec3) -> Mat4
  const ToMat4: Quat -> Mat4
  const MatMul: (Mat4, Mat4) -> Mat4
  const Perspective: (real, real, real, real) -> Mat4
  const Ortho: (real, real, real, real, real, real) -> Mat4
  const LookAt: (Vec3, Vec3, Vec3) -> Mat4
  /** glm::rotate(m, angleRadians, axis). */
  const Rotate: (Mat4, real, Vec3) -> Mat4
  /** glm::vec3(m * v). */
  const Project: (Mat4, Vec4) -> Vec3

  /** sinf / cosf. */
  const Sin: real -> real
  const Cos: real -> real

  /** The value IEEE division yields for a zero divisor (an infinity or NaN in the source). */
  const DivByZero: real -> real

  /** Float division: exact for a non-zero divisor, otherwise whatever the hardware yields. */
  function FDiv(a: real, b: real): (r: real)
    ensures b != 0.0 ==> r * b == a
  {
    if b != 0.0 then a / b else DivByZero(a)
  }

  /** The Euler rotation quaternion PhysX code builds as X * Y * Z axis rotations of degree angles. */
  function EulerXYZ(rotationDegrees: Vec3): Quat
  {
    QuatMul(QuatMul(AxisAngle(RadiansOf(rotationDegrees.x), UnitX),
                    AxisAngle(RadiansOf(rotationDegrees.y), UnitY)),
            AxisAngle(RadiansOf(rotationDegrees.z), UnitZ))
  }

  function Max(a: real, b: real): (r: real)
    ensures r >= a && r >= b && (r == a || r == b)
  {
    if a >= b then a else b
  }
}
