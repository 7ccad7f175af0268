/** Dense real vectors and matrices (a matrix is a list of rows), with the
    products and the identity that the rotation code takes from its matrix
    library. All operations are total: a missing entry of a ragged argument
    reads as 0, so a product never fails, and the lemmas state the algebra
    for well-shaped arguments. */
module LinearAlgebra {

  type Vector = seq<real>
  type Matrix = seq<seq<real>>

  /** m has `rows` rows of `cols` entries each */
  predicate IsMatrix(m: Matrix, rows: nat, cols: nat) {
    |m| == rows && forall i :: 0 <= i < rows ==> |m[i]| == cols
  }

  /** The number of columns, read off the first row */
  function Width(m: Matrix): nat {
    if |m| == 0 then 0 else |m[0]|
  }

  /** Inner product over the common prefix of u and v */
  function Dot(u: Vector, v: Vector): real
    decreases |u|
  {
    if |u| == 0 || |v| == 0 then 0.0 else u[0] * v[0] + Dot(u[1..], v[1..])
  }

  /** Column j of m; a row too short to have one contributes 0 */
  function Column(m: Matrix, j: nat): Vector {
    seq(|m|, k requires 0 <= k < |m| => if j < |m[k]| then m[k][j] else 0.0)
  }

  /** a*u + b*v, entrywise */
  function Combine(a: real, u: Vector, b: real, v: Vector): Vector
    requires |u| == |v|
  {
    seq(|u|, k requires 0 <= k < |u| => a * u[k] + b * v[k])
  }

  /** Matrix times column vector: entry i is row i of m dotted with v */
  function MatVec(m: Matrix, v: Vector): (r: Vector)
    ensures |r| == |m|
  {
    seq(|m|, i requires 0 <= i < |m| => Dot(m[i], v))
  }

  /** Row vector u times m, truncated or padded to `width` columns */
  function RowTimes(u: Vector, m: Matrix, width: nat): Vector {
    seq(width, j requires 0 <= j < width => Dot(u, Column(m, j)))
  }

  /** Matrix product a * b */
  function MatMul(a: Matrix, b: Matrix): (r: Matrix)
    ensures IsMatrix(r, |a|, Width(b))
  {
    seq(|a|, i requires 0 <= i < |a| => RowTimes(a[i], b, Width(b)))
  }

  function Identity(n: nat): Matrix {
    seq(n, i => seq(n, j => if i == j then 1.0 else 0.0))
  }

  function Transpose(m: Matrix): Matrix {
    seq(Width(m), j requires 0 <= j < Width(m) => Column(m, j))
  }

  /** The rows of m laid end to end */
  function Flatten(m: Matrix): Vector {
    if |m| == 0 then [] else m[0] + Flatten(m[1..])
  }

  /** b is the two-sided inverse of the n-by-n matrix a */
  ghost predicate IsInverse(a: Matrix, b: Matrix, n: nat) {
    IsMatrix(a, n, n) && IsMatrix(b, n, n)
    && MatMul(a, b) == Identity(n) && MatMul(b, a) == Identity(n)
  }

  datatype Option<T> = None | Some(value: T)

  /** A matrix inverter: None when it cannot invert its argument */
  type Inverter = Matrix -> Option<Matrix>

  /** inv succeeds on the n-by-n matrix a and returns its two-sided inverse */
  ghost predicate Inverts(inv: Inverter, a: Matrix, n: nat) {
    inv(a).Some? && IsInverse(a, inv(a).value, n)
  }

  /** Appending a row appends its entries to the flattened form */
  lemma {:induction false} FlattenAppend(m: Matrix, row: Vector)
    ensures Flatten(m + [row]) == Flatten(m) + row
  {
    if |m| > 0 {
      assert (m + [row])[1..] == m[1..] + [row];
      FlattenAppend(m[1..], row);
    }
  }

  lemma {:induction false} DotCommutes(u: Vector, v: Vector)
    requires |u| == |v|
    ensures Dot(u, v) == Dot(v, u)
  {
    if |u| > 0 {
      DotCommutes(u[1..], v[1..]);
    }
  }

  /** Against an all-zero vector the inner product vanishes */
  lemma {:induction false} DotZero(u: Vector, v: Vector)
    requires forall k :: 0 <= k < |v| ==> v[k] == 0.0
    ensures Dot(u, v) == 0.0
  {
    if |u| > 0 && |v| > 0 {
      DotZero(u[1..], v[1..]);
    }
  }

  /** Against the j-th unit vector the inner product picks entry j */
  lemma {:induction false} DotUnit(u: Vector, v: Vector, j: nat)
    requires |u| == |v| && j < |v|
    requires forall k :: 0 <= k < |v| ==> v[k] == if k == j then 1.0 else 0.0
    ensures Dot(u, v) == u[j]
  {
    if j == 0 {
      DotZero(u[1..], v[1..]);
    } else {
      DotUnit(u[1..], v[1..], j - 1);
    }
  }

  /** The inner product is linear in its second argument */
  lemma {:induction false} DotLinear(w: Vector, a: real, u: Vector, b: real, v: Vector)
    requires |w| == |u| == |v|
    ensures Dot(w, Combine(a, u, b, v)) == a * Dot(w, u) + b * Dot(w, v)
  {
    if |w| > 0 {
      var c := Combine(a, u, b, v);
      forall k | 0 <= k < |c| - 1 ensures c[1..][k] == Combine(a, u[1..], b, v[1..])[k] {
        assert c[1..][k] == c[k + 1];
      }
      assert c[1..] == Combine(a, u[1..], b, v[1..]);
      DotLinear(w[1..], a, u[1..], b, v[1..]);
      calc {
        Dot(w, c);
        w[0] * (a * u[0] + b * v[0]) + Dot(w[1..], c[1..]);
        w[0] * (a * u[0] + b * v[0]) + (a * Dot(w[1..], u[1..]) + b * Dot(w[1..], v[1..]));
        { assert w[0] * (a * u[0] + b * v[0]) == a * (w[0] * u[0]) + b * (w[0] * v[0]); }
        a * (w[0] * u[0] + Dot(w[1..], u[1..])) + b * (w[0] * v[0] + Dot(w[1..], v[1..]));
      }
    }
  }

  /** Matrix-vector product is linear in the vector */
  lemma MatVecLinear(m: Matrix, a: real, u: Vector, b: real, v: Vector)
    requires |u| == |v|
    requires forall i :: 0 <= i < |m| ==> |m[i]| == |u|
    ensures |MatVec(m, u)| == |MatVec(m, v)| == |m|
    ensures MatVec(m, Combine(a, u, b, v)) == Combine(a, MatVec(m, u), b, MatVec(m, v))
  {
    forall i | 0 <= i < |m|
      ensures MatVec(m, Combine(a, u, b, v))[i] == Combine(a, MatVec(m, u), b, MatVec(m, v))[i]
    {
      DotLinear(m[i], a, u, b, v);
    }
  }

  /** Any matrix maps the zero vector to the zero vector */
  lemma MatVecZero(m: Matrix, v: Vector)
    requires forall k :: 0 <= k < |v| ==> v[k] == 0.0
    ensures forall i :: 0 <= i < |m| ==> MatVec(m, v)[i] == 0.0
  {
    forall i | 0 <= i < |m| ensures MatVec(m, v)[i] == 0.0 {
      DotZero(m[i], v);
    }
  }

  /** The identity matrix maps every vector of its size to itself */
  lemma MatVecIdentity(v: Vector)
    ensures MatVec(Identity(|v|), v) == v
  {
    var n := |v|;
    forall i | 0 <= i < n ensures MatVec(Identity(n), v)[i] == v[i] {
      DotCommutes(Identity(n)[i], v);
      DotUnit(v, Identity(n)[i], i);
    }
  }

  /** Multiplying on the right by the identity changes nothing */
  lemma MatMulIdentityRight(a: Matrix, rows: nat, n: nat)
    requires IsMatrix(a, rows, n)
    ensures MatMul(a, Identity(n)) == a
  {
    var id := Identity(n);
    assert Width(id) == n;
    forall i | 0 <= i < rows ensures MatMul(a, id)[i] == a[i] {
      forall j | 0 <= j < n ensures MatMul(a, id)[i][j] == a[i][j] {
        DotUnit(a[i], Column(id, j), j);
      }
    }
  }

  /** Row u of a product, split into its first term and the rest:
      u * m == u[0] * m[0] + u[1..] * m[1..] */
  lemma RowTimesCons(u: Vector, m: Matrix, width: nat)
    requires |u| == |m| > 0
    requires forall k :: 0 <= k < |m| ==> |m[k]| == width
    ensures RowTimes(u, m, width) == Combine(u[0], m[0], 1.0, RowTimes(u[1..], m[1..], width))
  {
    forall j | 0 <= j < width
      ensures RowTimes(u, m, width)[j] == Combine(u[0], m[0], 1.0, RowTimes(u[1..], m[1..], width))[j]
    {
      assert Column(m, j)[1..] == Column(m[1..], j);
    }
  }

  /** (u * m) . w == u . (m * w): a row vector, a matrix and a column vector
      can be multiplied in either order */
  lemma {:induction false} RowTimesDot(u: Vector, m: Matrix, width: nat, w: Vector)
    requires |u| == |m| && |w| == width
    requires forall k :: 0 <= k < |m| ==> |m[k]| == width
    ensures Dot(RowTimes(u, m, width), w) == Dot(u, MatVec(m, w))
  {
    if |u| == 0 {
      DotCommutes(RowTimes(u, m, width), w);
      DotZero(w, RowTimes(u, m, width));
    } else {
      var rest := RowTimes(u[1..], m[1..], width);
      RowTimesCons(u, m, width);
      DotCommutes(Combine(u[0], m[0], 1.0, rest), w);
      DotLinear(w, u[0], m[0], 1.0, rest);
      DotCommutes(w, m[0]);
      DotCommutes(w, rest);
      RowTimesDot(u[1..], m[1..], width, w);
      assert MatVec(m, w)[1..] == MatVec(m[1..], w);
    }
  }

  /** Matrix multiplication is associative on well-shaped arguments */
  lemma MatMulAssociative(a: Matrix, b: Matrix, c: Matrix, n: nat, m: nat, p: nat, q: nat)
    requires IsMatrix(a, n, m) && IsMatrix(b, m, p) && IsMatrix(c, p, q)
    requires m > 0 && p > 0
    ensures MatMul(MatMul(a, b), c) == MatMul(a, MatMul(b, c))
  {
    var ab, bc := MatMul(a, b), MatMul(b, c);
    assert Width(b) == p && Width(c) == q;
    assert IsMatrix(ab, n, p);
    assert IsMatrix(bc, m, q) && Width(bc) == q;
    forall i | 0 <= i < n ensures MatMul(ab, c)[i] == MatMul(a, bc)[i] {
      forall l | 0 <= l < q ensures MatMul(ab, c)[i][l] == MatMul(a, bc)[i][l] {
        assert Column(bc, l) == MatVec(b, Column(c, l));
        RowTimesDot(a[i], b, p, Column(c, l));
      }
    }
  }
}
