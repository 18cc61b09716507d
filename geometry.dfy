/** Locations, rotations and transforms as the simulator's Python API exposes
    them, over exact reals. A transform is a value: building one from another
    copies its location and rotation, so changing the copy never changes the
    original. */
module Geometry {

  /** A location or a direction (x, y, z in world units). */
  datatype Vec3 = Vec3(x: real, y: real, z: real)

  /** A rotation in degrees. Yaw is kept exactly as computed: the simulator
      does not normalise it when a script adds to it. */
  datatype Rotation = Rotation(pitch: real, yaw: real, roll: real)

  datatype Transform = Transform(location: Vec3, rotation: Rotation)

  /** The simulator's `get_forward_vector` query. It is trigonometric and
      foreign, so every operation takes it as a parameter and every property
      proved here holds for any such map. A transform's forward vector is the
      forward vector of its rotation, so both queries are this one map. */
  type ForwardFn = Rotation -> Vec3

  function Add(a: Vec3, b: Vec3): Vec3 {
    Vec3(a.x + b.x, a.y + b.y, a.z + b.z)
  }

  /** Scalar multiple `k * v` (the Python `k * v` and `v * k` agree). */
  function Scale(k: real, v: Vec3): Vec3 {
    Vec3(k * v.x, k * v.y, k * v.z)
  }

  /** A purely vertical offset. */
  function Up(dz: real): Vec3 {
    Vec3(0.0, 0.0, dz)
  }

  /** The rotation with `deg` added to its yaw; pitch and roll are kept. */
  function Turned(r: Rotation, deg: real): Rotation {
    r.(yaw := r.yaw + deg)
  }
}
