/** Vectors and 4x4 matrices over the reals. They stand in for Unity's
    single-precision Vector3, Vector4 and Matrix4x4; rounding is not modelled. */
module Geometry {

  datatype Vec3 = Vec3(x: real, y: real, z: real)

  datatype Vec4 = Vec4(x: real, y: real, z: real, w: real)

  const Zero4: Vec4 := Vec4(0.0, 0.0, 0.0, 0.0)

  function Add(a: Vec4, b: Vec4): Vec4 {
    Vec4(a.x + b.x, a.y + b.y, a.z + b.z, a.w + b.w)
  }

  function Scale(k: real, a: Vec4): Vec4 {
    Vec4(k * a.x, k * a.y, k * a.z, k * a.w)
  }

  function Negate(a: Vec4): Vec4 {
    Vec4(-a.x, -a.y, -a.z, -a.w)
  }

  function Dot(a: Vec4, b: Vec4): real {
    a.x * b.x + a.y * b.y + a.z * b.z + a.w * b.w
  }

  /** A matrix given by its rows: r0 holds m00..m03, r1 holds m10..m13, and so on. */
  datatype Matrix = Matrix(r0: Vec4, r1: Vec4, r2: Vec4, r3: Vec4)

  /** The default Matrix4x4: every entry zero. */
  const ZeroMatrix: Matrix := Matrix(Zero4, Zero4, Zero4, Zero4)

  function Column(m: Matrix, j: int): Vec4
    requires 0 <= j < 4
  {
    if j == 0 then Vec4(m.r0.x, m.r1.x, m.r2.x, m.r3.x)
    else if j == 1 then Vec4(m.r0.y, m.r1.y, m.r2.y, m.r3.y)
    else if j == 2 then Vec4(m.r0.z, m.r1.z, m.r2.z, m.r3.z)
    else Vec4(m.r0.w, m.r1.w, m.r2.w, m.r3.w)
  }

  function RowTimes(row: Vec4, b: Matrix): Vec4 {
    Vec4(Dot(row, Column(b, 0)), Dot(row, Column(b, 1)), Dot(row, Column(b, 2)), Dot(row, Column(b, 3)))
  }

  /** The matrix product a * b. */
  function Mul(a: Matrix, b: Matrix): Matrix {
    Matrix(RowTimes(a.r0, b), RowTimes(a.r1, b), RowTimes(a.r2, b), RowTimes(a.r3, b))
  }

  /** The image of the homogeneous point p under m. */
  function Transform(m: Matrix, p: Vec4): Vec4 {
    Vec4(Dot(m.r0, p), Dot(m.r1, p), Dot(m.r2, p), Dot(m.r3, p))
  }
}
