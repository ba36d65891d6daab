/** The small part of glm the camera and the scene records use: 3- and 4-component
    vectors over the reals, and the trigonometric helpers the camera calls, which are
    carried as function values so that only the laws the model relies on are assumed. */
module Glm {

  datatype Vec3 = Vec3(x: real, y: real, z: real)

  datatype Vec4 = Vec4(x: real, y: real, z: real, w: real)

  const ZERO3: Vec3 := Vec3(0.0, 0.0, 0.0)
  const ZERO4: Vec4 := Vec4(0.0, 0.0, 0.0, 0.0)

  function Add(u: Vec3, v: Vec3): (r: Vec3)
    ensures r.x == u.x + v.x && r.y == u.y + v.y && r.z == u.z + v.z
  {
    Vec3(u.x + v.x, u.y + v.y, u.z + v.z)
  }

  function Scale(k: real, v: Vec3): (r: Vec3)
    ensures r.x == k * v.x && r.y == k * v.y && r.z == k * v.z
  {
    Vec3(k * v.x, k * v.y, k * v.z)
  }

  function Neg(v: Vec3): (r: Vec3)
    ensures Add(v, r) == ZERO3
  {
    Vec3(-v.x, -v.y, -v.z)
  }

  function Dot(u: Vec3, v: Vec3): real {
    u.x * v.x + u.y * v.y + u.z * v.z
  }

  /** glm::cross: orthogonal to both arguments. */
  function Cross(u: Vec3, v: Vec3): (r: Vec3)
    ensures Dot(r, u) == 0.0 && Dot(r, v) == 0.0
  {
    Vec3(u.y * v.z - u.z * v.y, u.z * v.x - u.x * v.z, u.x * v.y - u.y * v.x)
  }

  /** The float trigonometry behind glm::rotate, glm::normalize and glm::angle, as function
      values. Angles are in degrees: the camera's glm::radians conversions cancel out of
      every comparison it makes. */
  datatype Trig = Trig(
    rotateDeg: (Vec3, real, Vec3) -> Vec3,  // glm::rotate(v, radians(angle), axis)
    normalize: Vec3 -> Vec3,                // glm::normalize
    acosDeg: real -> real                   // acos, in degrees
  ) {
    /** The laws of real trigonometry the camera proofs use: a rotation by zero is the
        identity, a rotation about the y axis keeps the y component, and acos(0) is 90°. */
    ghost predicate Valid() {
      && (forall v, axis :: rotateDeg(v, 0.0, axis) == v)
      && (forall v, a :: rotateDeg(v, a, Vec3(0.0, 1.0, 0.0)).y == v.y)
      && acosDeg(0.0) == 90.0
    }

    /** glm::angle(u, v) for unit vectors: acos of the dot product clamped to [-1, 1]. */
    function Angle(u: Vec3, v: Vec3): real {
      acosDeg(Clamp(Dot(u, v)))
    }
  }

  function Clamp(c: real): (r: real)
    ensures -1.0 <= r <= 1.0
    ensures -1.0 <= c <= 1.0 ==> r == c
  {
    if c < -1.0 then -1.0 else if c > 1.0 then 1.0 else c
  }
}
