/**
  Exact vector and quaternion algebra over `real`, standing for Qt's QVector3D
  and QQuaternion. The operations are the ones the camera uses: addition,
  scaling, the Hamilton product and `rotatedVector` (q * (0, v) * conj(q)).
*/
module Geometry {

  datatype Vec3 = Vec3(x: real, y: real, z: real)

  /** A quaternion `w + xi + yj + zk`; QQuaternion() is the identity. */
  datatype Quat = Quat(w: real, x: real, y: real, z: real)

  const Origin := Vec3(0.0, 0.0, 0.0)
  const IdentityQuat := Quat(1.0, 0.0, 0.0, 0.0)

  function Add(a: Vec3, b: Vec3): Vec3 { Vec3(a.x + b.x, a.y + b.y, a.z + b.z) }

  function Sub(a: Vec3, b: Vec3): Vec3 { Vec3(a.x - b.x, a.y - b.y, a.z - b.z) }

  function Scale(v: Vec3, k: real): Vec3 { Vec3(v.x * k, v.y * k, v.z * k) }

  function VectorPart(q: Quat): Vec3 { Vec3(q.x, q.y, q.z) }

  function Conjugate(q: Quat): Quat { Quat(q.w, -q.x, -q.y, -q.z) }

  /** The Hamilton product `p * q`. */
  function Mul(p: Quat, q: Quat): Quat
  {
    Quat(p.w * q.w - p.x * q.x - p.y * q.y - p.z * q.z,
         p.w * q.x + p.x * q.w + p.y * q.z - p.z * q.y,
         p.w * q.y - p.x * q.z + p.y * q.w + p.z * q.x,
         p.w * q.z + p.x * q.y - p.y * q.x + p.z * q.w)
  }

  /** QQuaternion::rotatedVector: the vector part of `q * (0, v) * conj(q)`. */
  function Rotated(q: Quat, v: Vec3): Vec3
  {
    VectorPart(Mul(Mul(q, Quat(0.0, v.x, v.y, v.z)), Conjugate(q)))
  }

  /** The identity quaternion leaves every vector where it is. */
  lemma RotatedByIdentity(v: Vec3)
    ensures Rotated(IdentityQuat, v) == v
  {
    var p := Quat(0.0, v.x, v.y, v.z);
    assert Mul(IdentityQuat, p) == p;
    assert Conjugate(IdentityQuat) == IdentityQuat;
    assert Mul(p, IdentityQuat) == p;
  }

  /** Rotation is linear, so the zero vector stays at the origin. */
  lemma RotatedOrigin(q: Quat)
    ensures Rotated(q, Origin) == Origin
  {
  }
}
