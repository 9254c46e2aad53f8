/** Value types shared by the physics world and the sprite: vectors, quaternions and
    rigid transforms, with `real` coordinates so that offsets cancel exactly. */
module Geometry {

  datatype Vec2 = Vec2(x: real, y: real)

  datatype Vec3 = Vec3(x: real, y: real, z: real)

  /** A rotation as stored by the renderer and by the physics engine: (x, y, z, w). */
  datatype Quat = Quat(x: real, y: real, z: real, w: real)

  /** An engine transform: an origin and a rotation. */
  datatype Transform = Transform(origin: Vec3, rotation: Quat)

  const Zero: Vec3 := Vec3(0.0, 0.0, 0.0)

  const IdentityRotation: Quat := Quat(0.0, 0.0, 0.0, 1.0)

  function Add(p: Vec3, q: Vec3): Vec3 {
    Vec3(p.x + q.x, p.y + q.y, p.z + q.z)
  }

  function Sub(p: Vec3, q: Vec3): Vec3 {
    Vec3(p.x - q.x, p.y - q.y, p.z - q.z)
  }

  function Scale(p: Vec3, k: real): Vec3 {
    Vec3(p.x * k, p.y * k, p.z * k)
  }
}
