/**
 * The vector and matrix primitives the triangulation engine consumes.
 * Coordinates are exact reals: rounding of the original single-precision
 * arithmetic is not modelled.
 */
module Math {
  datatype Vec3 = Vec3(x: real, y: real, z: real)

  /** A 3x3 matrix stored row by row, as `Mat3([f32; 9])`. */
  datatype Mat3 = Mat3(m0: real, m1: real, m2: real,
                       m3: real, m4: real, m5: real,
                       m6: real, m7: real, m8: real)

  /** Matrix times column vector. */
  function Mul(m: Mat3, v: Vec3): Vec3
  {
    Vec3(v.x * m.m0 + v.y * m.m1 + v.z * m.m2,
         v.x * m.m3 + v.y * m.m4 + v.z * m.m5,
         v.x * m.m6 + v.y * m.m7 + v.z * m.m8)
  }
}
