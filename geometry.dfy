/**
 * Integer points. The engine's Vector3 holds floats, but every point of a
 * map template comes from integer configuration values, and the only offset
 * added to one is PLATFORM_X_SIZE / 2 = 12, so integers are exact here.
 */
module Geometry {

  datatype Vec3 = Vec3(x: int, y: int, z: int) {

    /** The point moved by (dx, dy, dz). */
    function Add(dx: int, dy: int, dz: int): Vec3 {
      Vec3(x + dx, y + dy, z + dz)
    }

    /** Componentwise order: this point is below `other` on every axis. */
    predicate LessEq(other: Vec3) {
      x <= other.x && y <= other.y && z <= other.z
    }
  }

  function Min(a: int, b: int): int { if a <= b then a else b }

  function Max(a: int, b: int): int { if a <= b then b else a }
}
