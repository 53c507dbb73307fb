/**
 * The vector values of scripts/transforms.js (`Vector3`, `Vector4`) and the few
 * vector operations the view transform is built from.  The source's `Vector`
 * class lives in matrix.js, which is not part of this model; `Subtract`,
 * `Cross` and `Dot` here are the textbook definitions.
 */
module Vectors {

  /** `Vector3(x, y, z)`: a fresh 3-component vector. */
  datatype Vector3 = Vector3(x: real, y: real, z: real)

  /** `Vector4(x, y, z, w)`: a fresh homogeneous 4-component vector. */
  datatype Vector4 = Vector4(x: real, y: real, z: real, w: real)

  /** The x, y and z components of a homogeneous point, as the clipper copies them. */
  function Xyz(v: Vector4): (r: Vector3)
    ensures Vector4(r.x, r.y, r.z, v.w) == v
  {
    Vector3(v.x, v.y, v.z)
  }

  function Subtract(a: Vector3, b: Vector3): Vector3
  {
    Vector3(a.x - b.x, a.y - b.y, a.z - b.z)
  }

  function Dot(a: Vector3, b: Vector3): real
  {
    a.x * b.x + a.y * b.y + a.z * b.z
  }

  function Cross(a: Vector3, b: Vector3): (r: Vector3)
    ensures Dot(r, a) == 0.0 && Dot(r, b) == 0.0
  {
    Vector3(a.y * b.z - a.z * b.y, a.z * b.x - a.x * b.z, a.x * b.y - a.y * b.x)
  }

}
