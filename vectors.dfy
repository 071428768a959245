/** Positions of the client's 3D scene, with distances compared on squares
    so that no square root is taken. */
module Vectors {

  datatype Vec3 = Vec3(x: real, y: real, z: real)

  const Origin := Vec3(0.0, 0.0, 0.0)

  /** The square of `a.distanceTo(b)`. */
  function SquaredDistance(a: Vec3, b: Vec3): (d: real)
    ensures d >= 0.0
  {
    var dx := a.x - b.x;
    var dy := a.y - b.y;
    var dz := a.z - b.z;
    dx * dx + dy * dy + dz * dz
  }

  /** The square of the length of (a.x - b.x, a.z - b.z): the distance on
      the ground plane. */
  function HorizontalSquaredDistance(a: Vec3, b: Vec3): (d: real)
    ensures d >= 0.0
  {
    var dx := a.x - b.x;
    var dz := a.z - b.z;
    dx * dx + dz * dz
  }
}
