/** The small vector and matrix records the pipeline passes around (Unity's Vector2,
    Vector3, Vector4 and Matrix4x4), with single-precision floats modelled as reals. */
module Linear {

  datatype Vec2 = Vec2(x: real, y: real)

  datatype Vec3 = Vec3(x: real, y: real, z: real)

  datatype Vec4 = Vec4(x: real, y: real, z: real, w: real)

  const Zero2 := Vec2(0.0, 0.0)

  const Zero4 := Vec4(0.0, 0.0, 0.0, 0.0)

  function Sub3(a: Vec3, b: Vec3): Vec3
  {
    Vec3(a.x - b.x, a.y - b.y, a.z - b.z)
  }

  function Dot3(a: Vec3, b: Vec3): real
  {
    a.x * b.x + a.y * b.y + a.z * b.z
  }

  function Dot4(a: Vec4, b: Vec4): real
  {
    a.x * b.x + a.y * b.y + a.z * b.z + a.w * b.w
  }

  /** A row-major 4x4 matrix: row R is `rR`, so Unity's entry mRC is field C of row R
      (m03 is `r0.w`, m13 is `r1.w`). */
  datatype Matrix4x4 = Matrix4x4(r0: Vec4, r1: Vec4, r2: Vec4, r3: Vec4)
  {
    function Column(c: nat): Vec4
      requires c < 4
    {
      match c
      case 0 => Vec4(r0.x, r1.x, r2.x, r3.x)
      case 1 => Vec4(r0.y, r1.y, r2.y, r3.y)
      case 2 => Vec4(r0.z, r1.z, r2.z, r3.z)
      case 3 => Vec4(r0.w, r1.w, r2.w, r3.w)
    }
  }

  const Identity := Matrix4x4(Vec4(1.0, 0.0, 0.0, 0.0), Vec4(0.0, 1.0, 0.0, 0.0),
                              Vec4(0.0, 0.0, 1.0, 0.0), Vec4(0.0, 0.0, 0.0, 1.0))

  function Add4(a: Vec4, b: Vec4): Vec4
  {
    Vec4(a.x + b.x, a.y + b.y, a.z + b.z, a.w + b.w)
  }

  function Scale4(k: real, a: Vec4): Vec4
  {
    Vec4(k * a.x, k * a.y, k * a.z, k * a.w)
  }

  /** The row of a product `a * b` whose row of `a` is `row`: the rows of `b` weighted
      by the entries of `row`. */
  function MulRow(row: Vec4, b: Matrix4x4): Vec4
  {
    Add4(Add4(Scale4(row.x, b.r0), Scale4(row.y, b.r1)), Add4(Scale4(row.z, b.r2), Scale4(row.w, b.r3)))
  }

  /** Matrix product `a * b` as Unity's `Matrix4x4.operator *` computes it. */
  function Mul(a: Matrix4x4, b: Matrix4x4): Matrix4x4
  {
    Matrix4x4(MulRow(a.r0, b), MulRow(a.r1, b), MulRow(a.r2, b), MulRow(a.r3, b))
  }

  /** The image of the homogeneous point `p` under `m` (`m * p`). */
  function Transform(m: Matrix4x4, p: Vec4): Vec4
  {
    Vec4(Dot4(m.r0, p), Dot4(m.r1, p), Dot4(m.r2, p), Dot4(m.r3, p))
  }

  lemma DotAdd(u: Vec4, v: Vec4, p: Vec4)
    ensures Dot4(Add4(u, v), p) == Dot4(u, p) + Dot4(v, p)
  {
  }

  lemma DotScale(k: real, u: Vec4, p: Vec4)
    ensures Dot4(Scale4(k, u), p) == k * Dot4(u, p)
  {
  }

  /** One entry of a product applied to a point. */
  lemma DotMulRow(row: Vec4, b: Matrix4x4, p: Vec4)
    ensures Dot4(MulRow(row, b), p) == Dot4(row, Transform(b, p))
  {
    var a0, a1, a2, a3 := Scale4(row.x, b.r0), Scale4(row.y, b.r1), Scale4(row.z, b.r2), Scale4(row.w, b.r3);
    DotAdd(Add4(a0, a1), Add4(a2, a3), p);
    DotAdd(a0, a1, p);
    DotAdd(a2, a3, p);
    DotScale(row.x, b.r0, p);
    DotScale(row.y, b.r1, p);
    DotScale(row.z, b.r2, p);
    DotScale(row.w, b.r3, p);
  }

  /** Applying a product is applying its factors right to left. */
  lemma TransformMul(a: Matrix4x4, b: Matrix4x4, p: Vec4)
    ensures Transform(Mul(a, b), p) == Transform(a, Transform(b, p))
  {
    DotMulRow(a.r0, b, p);
    DotMulRow(a.r1, b, p);
    DotMulRow(a.r2, b, p);
    DotMulRow(a.r3, b, p);
  }

}
