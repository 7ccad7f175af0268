/** The part of the gl-matrix vector library that the rotation code calls:
    4-vectors, 4x4 matrices stored as 16 numbers in column-major order,
    `vec4.transformMat4` and `mat3.fromValues`. Numbers are `real`; the
    single-precision storage of gl-matrix is not modelled. */
module GlMatrix {
  import opened LinearAlgebra

  datatype Vec4 = Vec4(x: real, y: real, z: real, w: real)

  /** A 4x4 matrix as gl-matrix stores it: entry (row r, column c) at index 4*c + r */
  type Mat4 = m: seq<real> | |m| == 16
    witness [1.0, 0.0, 0.0, 0.0, 0.0, 1.0, 0.0, 0.0, 0.0, 0.0, 1.0, 0.0, 0.0, 0.0, 0.0, 1.0]

  /** A 3x3 matrix as gl-matrix stores it: nine numbers */
  type Mat3 = m: seq<real> | |m| == 9
    witness [1.0, 0.0, 0.0, 0.0, 1.0, 0.0, 0.0, 0.0, 1.0]

  const IdentityMat4: Mat4 :=
    [1.0, 0.0, 0.0, 0.0, 0.0, 1.0, 0.0, 0.0, 0.0, 0.0, 1.0, 0.0, 0.0, 0.0, 0.0, 1.0]

  function AsVector(a: Vec4): Vector {
    [a.x, a.y, a.z, a.w]
  }

  /** The mathematical matrix that a stored Mat4 denotes, as rows */
  function ColumnMajor(m: Mat4): (rows: Matrix)
    ensures IsMatrix(rows, 4, 4)
  {
    seq(4, r requires 0 <= r < 4 => seq(4, c requires 0 <= c < 4 => m[4 * c + r]))
  }

  /** `vec4.transformMat4(out, a, m)`: the product m * a, m read column-major */
  function TransformMat4(a: Vec4, m: Mat4): (r: Vec4)
    ensures AsVector(r) == MatVec(ColumnMajor(m), AsVector(a))
  {
    var r := Vec4(m[0] * a.x + m[4] * a.y + m[8] * a.z + m[12] * a.w,
                  m[1] * a.x + m[5] * a.y + m[9] * a.z + m[13] * a.w,
                  m[2] * a.x + m[6] * a.y + m[10] * a.z + m[14] * a.w,
                  m[3] * a.x + m[7] * a.y + m[11] * a.z + m[15] * a.w);
    ColumnMajorProduct(a, m, r);
    r
  }

  /** `mat3.fromValues`: the nine arguments land in storage slots 0..8 in order */
  function Mat3FromValues(m0: real, m1: real, m2: real, m3: real, m4: real,
                          m5: real, m6: real, m7: real, m8: real): (m: Mat3)
    ensures m[0] == m0 && m[1] == m1 && m[2] == m2 && m[3] == m3 && m[4] == m4
    ensures m[5] == m5 && m[6] == m6 && m[7] == m7 && m[8] == m8
  {
    [m0, m1, m2, m3, m4, m5, m6, m7, m8]
  }

  /** The four sums of transformMat4 are the rows of the column-major
      reading of m, each dotted with a */
  lemma ColumnMajorProduct(a: Vec4, m: Mat4, r: Vec4)
    requires r.x == m[0] * a.x + m[4] * a.y + m[8] * a.z + m[12] * a.w
    requires r.y == m[1] * a.x + m[5] * a.y + m[9] * a.z + m[13] * a.w
    requires r.z == m[2] * a.x + m[6] * a.y + m[10] * a.z + m[14] * a.w
    requires r.w == m[3] * a.x + m[7] * a.y + m[11] * a.z + m[15] * a.w
    ensures AsVector(r) == MatVec(ColumnMajor(m), AsVector(a))
  {
    var v, rows, t := AsVector(a), ColumnMajor(m), AsVector(r);
    forall i | 0 <= i < 4 ensures MatVec(rows, v)[i] == t[i] {
      assert rows[i] == [m[i], m[4 + i], m[8 + i], m[12 + i]];
      DotOfFour(rows[i], v);
    }
  }

  lemma DotOfFour(u: Vector, v: Vector)
    requires |u| == |v| == 4
    ensures Dot(u, v) == u[0] * v[0] + u[1] * v[1] + u[2] * v[2] + u[3] * v[3]
  {
    assert u[1..][1..] == u[2..] && v[1..][1..] == v[2..];
    assert u[2..][1..] == u[3..] && v[2..][1..] == v[3..];
    assert u[3..][1..] == [] && v[3..][1..] == [];
    assert Dot(u[3..], v[3..]) == u[3] * v[3];
    assert Dot(u[2..], v[2..]) == u[2] * v[2] + u[3] * v[3];
    assert Dot(u[1..], v[1..]) == u[1] * v[1] + u[2] * v[2] + u[3] * v[3];
  }

  /** A direction (w = 0) is moved by the upper-left 3x3 block alone: the
      translation column (slots 12..14) and the bottom row never reach x, y, z */
  lemma DirectionIgnoresTranslation(a: Vec4, m: Mat4, m': Mat4)
    requires a.w == 0.0
    requires forall k :: 0 <= k < 12 && k % 4 != 3 ==> m[k] == m'[k]
    ensures TransformMat4(a, m).x == TransformMat4(a, m').x
    ensures TransformMat4(a, m).y == TransformMat4(a, m').y
    ensures TransformMat4(a, m).z == TransformMat4(a, m').z
  {
  }

  /** The identity transform leaves every vector where it is */
  lemma IdentityMat4Fixes(a: Vec4)
    ensures TransformMat4(a, IdentityMat4) == a
  {
  }
}
