/**
 * Vectors used by the path generator (exact integer grid points and
 * directions) and by the player (real-valued positions and velocities).
 */
module Vectors {

  /** A point or a direction of the path, on the integer grid. */
  datatype Vec3 = Vec3(x: int, y: int, z: int)

  /** A real-valued 3D vector: player positions, facing vectors, velocities. */
  datatype RVec3 = RVec3(x: real, y: real, z: real)

  /** A screen position of a touch. */
  datatype Vec2 = Vec2(x: real, y: real)

  const Origin: Vec3 := Vec3(0, 0, 0)
  const PlusX: Vec3 := Vec3(1, 0, 0)
  const MinusX: Vec3 := Vec3(-1, 0, 0)
  const PlusZ: Vec3 := Vec3(0, 0, 1)
  const MinusZ: Vec3 := Vec3(0, 0, -1)

  function Add(a: Vec3, b: Vec3): Vec3 {
    Vec3(a.x + b.x, a.y + b.y, a.z + b.z)
  }

  function Scale(k: int, a: Vec3): Vec3 {
    Vec3(k * a.x, k * a.y, k * a.z)
  }

  /** One of the four horizontal unit vectors +X, -X, +Z, -Z. */
  predicate IsAxis(d: Vec3) {
    d == PlusX || d == MinusX || d == PlusZ || d == MinusZ
  }

  /** b lies one step of length len from a along one of the four axis directions. */
  predicate Adjacent(a: Vec3, b: Vec3, len: int) {
    b == Add(a, Scale(len, PlusX)) || b == Add(a, Scale(len, MinusX)) ||
    b == Add(a, Scale(len, PlusZ)) || b == Add(a, Scale(len, MinusZ))
  }

  lemma ScaleAdd(a: int, b: int, d: Vec3)
    ensures Add(Scale(a, d), Scale(b, d)) == Scale(a + b, d)
  {
    assert (a + b) * d.x == a * d.x + b * d.x;
    assert (a + b) * d.y == a * d.y + b * d.y;
    assert (a + b) * d.z == a * d.z + b * d.z;
  }

  lemma AddAssoc(a: Vec3, b: Vec3, c: Vec3)
    ensures Add(Add(a, b), c) == Add(a, Add(b, c))
  {
  }

  /** The grid point p as a real vector. */
  function ToReal(p: Vec3): RVec3 {
    RVec3(p.x as real, p.y as real, p.z as real)
  }

  /** The square of the Euclidean distance between a and b. */
  function SquaredDistance(a: RVec3, b: RVec3): (d: real)
    ensures d >= 0.0
  {
    (a.x - b.x) * (a.x - b.x) + (a.y - b.y) * (a.y - b.y) + (a.z - b.z) * (a.z - b.z)
  }
}
