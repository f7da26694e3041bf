/**
 * Vectors and transforms. The engine's `f32` vectors are modelled over `real`,
 * so rounding and NaN are not represented.
 */
module Geometry {

  datatype Vec2 = Vec2(x: real, y: real)

  datatype Vec3 = Vec3(x: real, y: real, z: real)

  const Zero2: Vec2 := Vec2(0.0, 0.0)
  const Zero3: Vec3 := Vec3(0.0, 0.0, 0.0)

  function Add2(a: Vec2, b: Vec2): Vec2 { Vec2(a.x + b.x, a.y + b.y) }

  function Scale2(a: Vec2, k: real): Vec2 { Vec2(a.x * k, a.y * k) }

  function Add(a: Vec3, b: Vec3): Vec3 { Vec3(a.x + b.x, a.y + b.y, a.z + b.z) }

  function Scale(a: Vec3, k: real): Vec3 { Vec3(a.x * k, a.y * k, a.z * k) }

  /**
   * A rotation, abstracted by the Euler angles (XYZ order) it was built from;
   * the quaternion itself is not modelled.
   */
  datatype Rotation = Identity | Euler(x: real, y: real, z: real)

  /** The translation and rotation parts of an entity's `Transform`. */
  class Transform {
    var translation: Vec3
    var rotation: Rotation

    constructor FromTranslation(t: Vec3)
      ensures translation == t && rotation == Identity
    {
      translation := t;
      rotation := Identity;
    }
  }
}
