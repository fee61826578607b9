/**
 * The camera pose and the vector and rotation values it is built from.
 *
 * Vectors and rotations are values (the library's Vector3D and Rotation are immutable). The pose
 * is a value here too, although PeasyCam.State is a mutable object with public fields: the
 * model does not capture the aliasing of the State objects `pushState` and `pushResetState`
 * return. The numeric
 * routines of the bundled rotation library are not part of this model; the controller receives
 * them as the function-valued fields of a Geometry.
 */
module Geometry {
  import opened Utils

  datatype Vec3 = Vec3(x: real, y: real, z: real)

  /** A rotation as its quaternion components (q0 is the scalar part). */
  datatype Rotation = Rotation(q0: real, q1: real, q2: real, q3: real)

  /** The identity rotation, `new Rotation()`. */
  const Identity := Rotation(1.0, 0.0, 0.0, 0.0)

  const PlusI := Vec3(1.0, 0.0, 0.0)
  const PlusJ := Vec3(0.0, 1.0, 0.0)
  const PlusK := Vec3(0.0, 0.0, 1.0)
  const Origin := Vec3(0.0, 0.0, 0.0)

  /** The camera pose: distance to the look-at point, the look-at point and the orientation. */
  datatype State = State(distance: real, center: Vec3, rotation: Rotation)

  /**
   * The foreign numeric routines the controller calls:
   *   compose(a, b)     a.applyTo(b), the rotation b followed by a;
   *   rotate(q, v)      q.applyTo(v), the vector v rotated by q;
   *   axisAngle(v, a)   new Rotation(v, a);
   *   slerp(a, b, t)    Utils.slerp, spherical interpolation;
   *   rotationGain(d)   Math.pow(Utils.log10(1 + d), 0.5), the distance-dependent part of
   *                     getRotationMult.
   */
  datatype Geometry = Geometry(
    compose: (Rotation, Rotation) -> Rotation,
    rotate: (Rotation, Vec3) -> Vec3,
    axisAngle: (Vec3, real) -> Rotation,
    slerp: (Rotation, Rotation, real) -> Rotation,
    rotationGain: real -> real)

  function Add(a: Vec3, b: Vec3): Vec3 {
    Vec3(a.x + b.x, a.y + b.y, a.z + b.z)
  }

  /** Component-wise linear blend, Utils.mix on vectors: a at t = 0 and b at t = 1. */
  function Mix3(a: Vec3, b: Vec3, t: real): (r: Vec3)
    ensures t == 0.0 ==> r == a
    ensures t == 1.0 ==> r == b
  {
    Vec3(Mix(a.x, b.x, t), Mix(a.y, b.y, t), Mix(a.z, b.z, t))
  }
}
