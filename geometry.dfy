/**
 * Vectors, ranges, integer rectangles and 4x4 matrices over the reals,
 * standing for the Gf value types the camera context works with
 * (GfVec2d, GfVec3f, GfVec4d, GfRange2d, GfRect2i, GfMatrix4d).
 * Floating-point rounding is not modelled: every float and double is a real.
 */
module Geometry {

  datatype Vec2 = Vec2(x: real, y: real)

  datatype Vec3 = Vec3(x: real, y: real, z: real)

  datatype Vec4 = Vec4(x: real, y: real, z: real, w: real)

  /** An axis-aligned rectangle given by its two corners, like GfRange2d. */
  datatype Range2 = Range2(min: Vec2, max: Vec2)

  /** A closed range of reals, like GfRange1f (the clipping range). */
  datatype Range1 = Range1(min: real, max: real)

  /** A pair of integers, like GfVec2i (the render buffer size). */
  datatype Vec2i = Vec2i(x: int, y: int)

  /** An integer pixel rectangle, like GfRect2i: both corners are inclusive. */
  datatype Rect2i = Rect2i(minX: int, minY: int, maxX: int, maxY: int)

  /** A 4x4 matrix by rows; points are row vectors, as in GfMatrix4d. */
  datatype Matrix4 = Matrix4(r0: Vec4, r1: Vec4, r2: Vec4, r3: Vec4)

  function Width(r: Range2): real { r.max.x - r.min.x }

  function Height(r: Range2): real { r.max.y - r.min.y }

  function Dot3(a: Vec3, b: Vec3): real { a.x * b.x + a.y * b.y + a.z * b.z }

  function SquaredLength(v: Vec3): real { Dot3(v, v) }

  function Scale3(v: Vec3, s: real): Vec3 { Vec3(v.x * s, v.y * s, v.z * s) }

  function Scale4(v: Vec4, s: real): Vec4 { Vec4(v.x * s, v.y * s, v.z * s, v.w * s) }

  function Add4(a: Vec4, b: Vec4): Vec4 { Vec4(a.x + b.x, a.y + b.y, a.z + b.z, a.w + b.w) }

  /** The row vector v times the matrix m: a combination of m's rows. */
  function RowTimes(v: Vec4, m: Matrix4): Vec4
  {
    Add4(Add4(Scale4(m.r0, v.x), Scale4(m.r1, v.y)), Add4(Scale4(m.r2, v.z), Scale4(m.r3, v.w)))
  }

  /** The matrix product a * b. */
  function Mul(a: Matrix4, b: Matrix4): Matrix4
  {
    Matrix4(RowTimes(a.r0, b), RowTimes(a.r1, b), RowTimes(a.r2, b), RowTimes(a.r3, b))
  }

  /** The diagonal matrix with d on its diagonal, like GfMatrix4d(GfVec4d). */
  function Diagonal(d: Vec4): Matrix4
  {
    Matrix4(Vec4(d.x, 0.0, 0.0, 0.0), Vec4(0.0, d.y, 0.0, 0.0),
            Vec4(0.0, 0.0, d.z, 0.0), Vec4(0.0, 0.0, 0.0, d.w))
  }

  function Identity(): Matrix4 { Diagonal(Vec4(1.0, 1.0, 1.0, 1.0)) }

  /** The smallest integer not below x. */
  function Ceil(x: real): (c: int)
    ensures x <= c as real < x + 1.0
  {
    -((-x).Floor)
  }

  /** GfClamp: value if it lies in [lo, hi], else the bound it passes. */
  function Clamp(value: real, lo: real, hi: real): (r: real)
    requires lo <= hi
    ensures lo <= r <= hi
    ensures lo <= value <= hi ==> r == value
    ensures value < lo ==> r == lo
    ensures hi < value ==> r == hi
  {
    if value < lo then lo else if value > hi then hi else value
  }

  function ClampInt(value: int, lo: int, hi: int): int
  {
    if value < lo then lo else if value > hi then hi else value
  }
}
