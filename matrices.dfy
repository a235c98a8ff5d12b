/** Dense real matrices and column vectors: the part of the linear-algebra
    library that the layers and the network use. A matrix records its row and
    column counts explicitly, so a matrix with no rows still has a width, as
    in the library it stands for. */
module Matrices {

  datatype RawMatrix = RawMatrix(rows: nat, cols: nat, data: seq<seq<real>>)

  /** Every row is stored and every row has `cols` entries. */
  ghost predicate WellFormed(m: RawMatrix) {
    |m.data| == m.rows && forall i :: 0 <= i < |m.data| ==> |m.data[i]| == m.cols
  }

  type Matrix = m: RawMatrix | WellFormed(m) witness RawMatrix(0, 0, [])

  /** A vector is a sequence of entries; as a matrix it is one column. */
  type Vector = seq<real>

  predicate SameShape(a: Matrix, b: Matrix) {
    a.rows == b.rows && a.cols == b.cols
  }

  function Constant(r: nat, c: nat, v: real): (m: Matrix)
    ensures m.rows == r && m.cols == c
    ensures forall i, j :: 0 <= i < r && 0 <= j < c ==> m.data[i][j] == v
  {
    RawMatrix(r, c, seq(r, i => seq(c, j => v)))
  }

  function Zero(r: nat, c: nat): (m: Matrix)
    ensures m.rows == r && m.cols == c
    ensures forall i, j :: 0 <= i < r && 0 <= j < c ==> m.data[i][j] == 0.0
  {
    Constant(r, c, 0.0)
  }

  function Ones(r: nat, c: nat): (m: Matrix)
    ensures m.rows == r && m.cols == c
    ensures forall i, j :: 0 <= i < r && 0 <= j < c ==> m.data[i][j] == 1.0
  {
    Constant(r, c, 1.0)
  }

  /** Sum of the pairwise products of two equally long vectors. */
  function Dot(u: Vector, v: Vector): real
    requires |u| == |v|
  {
    if |u| == 0 then 0.0 else Dot(u[..|u| - 1], v[..|v| - 1]) + u[|u| - 1] * v[|v| - 1]
  }

  /** Column `j` of `m`, as a vector. */
  function Col(m: Matrix, j: nat): (v: Vector)
    requires j < m.cols
    ensures |v| == m.rows
    ensures forall k :: 0 <= k < m.rows ==> v[k] == m.data[k][j]
  {
    seq(m.rows, k requires 0 <= k < m.rows => m.data[k][j])
  }

  /** Matrix product; the inner dimensions must agree. */
  function Mul(a: Matrix, b: Matrix): (m: Matrix)
    requires a.cols == b.rows
    ensures m.rows == a.rows && m.cols == b.cols
    ensures forall i, j :: 0 <= i < a.rows && 0 <= j < b.cols ==> m.data[i][j] == Dot(a.data[i], Col(b, j))
  {
    RawMatrix(a.rows, b.cols,
      seq(a.rows, i requires 0 <= i < a.rows =>
        seq(b.cols, j requires 0 <= j < b.cols => Dot(a.data[i], Col(b, j)))))
  }

  function Transpose(a: Matrix): (m: Matrix)
    ensures m.rows == a.cols && m.cols == a.rows
    ensures forall i, j :: 0 <= i < a.cols && 0 <= j < a.rows ==> m.data[i][j] == a.data[j][i]
  {
    RawMatrix(a.cols, a.rows,
      seq(a.cols, i requires 0 <= i < a.cols =>
        seq(a.rows, j requires 0 <= j < a.rows => a.data[j][i])))
  }

  /** Entrywise (Hadamard) product of two matrices of the same shape. */
  function Hadamard(a: Matrix, b: Matrix): (m: Matrix)
    requires SameShape(a, b)
    ensures SameShape(m, a)
    ensures forall i, j :: 0 <= i < a.rows && 0 <= j < a.cols ==> m.data[i][j] == a.data[i][j] * b.data[i][j]
  {
    RawMatrix(a.rows, a.cols,
      seq(a.rows, i requires 0 <= i < a.rows =>
        seq(a.cols, j requires 0 <= j < a.cols => a.data[i][j] * b.data[i][j])))
  }

  function Add(a: Matrix, b: Matrix): (m: Matrix)
    requires SameShape(a, b)
    ensures SameShape(m, a)
    ensures forall i, j :: 0 <= i < a.rows && 0 <= j < a.cols ==> m.data[i][j] == a.data[i][j] + b.data[i][j]
  {
    RawMatrix(a.rows, a.cols,
      seq(a.rows, i requires 0 <= i < a.rows =>
        seq(a.cols, j requires 0 <= j < a.cols => a.data[i][j] + b.data[i][j])))
  }

  function Sub(a: Matrix, b: Matrix): (m: Matrix)
    requires SameShape(a, b)
    ensures SameShape(m, a)
    ensures forall i, j :: 0 <= i < a.rows && 0 <= j < a.cols ==> m.data[i][j] == a.data[i][j] - b.data[i][j]
  {
    RawMatrix(a.rows, a.cols,
      seq(a.rows, i requires 0 <= i < a.rows =>
        seq(a.cols, j requires 0 <= j < a.cols => a.data[i][j] - b.data[i][j])))
  }

  function Scale(s: real, a: Matrix): (m: Matrix)
    ensures SameShape(m, a)
    ensures forall i, j :: 0 <= i < a.rows && 0 <= j < a.cols ==> m.data[i][j] == s * a.data[i][j]
  {
    RawMatrix(a.rows, a.cols,
      seq(a.rows, i requires 0 <= i < a.rows =>
        seq(a.cols, j requires 0 <= j < a.cols => s * a.data[i][j])))
  }

  /** Applies a scalar function to every entry. */
  function Map(f: real -> real, a: Matrix): (m: Matrix)
    ensures SameShape(m, a)
    ensures forall i, j :: 0 <= i < a.rows && 0 <= j < a.cols ==> m.data[i][j] == f(a.data[i][j])
  {
    RawMatrix(a.rows, a.cols,
      seq(a.rows, i requires 0 <= i < a.rows =>
        seq(a.cols, j requires 0 <= j < a.cols => f(a.data[i][j]))))
  }

  /** Keeps the leading `cols - 1` columns (a resize that discards the last column). */
  function DropLastColumn(a: Matrix): (m: Matrix)
    requires a.cols >= 1
    ensures m.rows == a.rows && m.cols == a.cols - 1
    ensures forall i, j :: 0 <= i < a.rows && 0 <= j < a.cols - 1 ==> m.data[i][j] == a.data[i][j]
  {
    RawMatrix(a.rows, a.cols - 1, seq(a.rows, i requires 0 <= i < a.rows => a.data[i][..a.cols - 1]))
  }

  /** `w` with entry (a, b) moved by h. */
  function Nudged(w: Matrix, a: nat, b: nat, h: real): (m: Matrix)
    requires a < w.rows && b < w.cols
    ensures SameShape(m, w)
    ensures forall i, j :: 0 <= i < w.rows && 0 <= j < w.cols ==>
      m.data[i][j] == if i == a && j == b then w.data[i][j] + h else w.data[i][j]
  {
    RawMatrix(w.rows, w.cols, w.data[a := w.data[a][b := w.data[a][b] + h]])
  }

  /** Sum of the squares of a vector's entries. */
  function SumSquares(v: Vector): real {
    if |v| == 0 then 0.0 else SumSquares(v[..|v| - 1]) + v[|v| - 1] * v[|v| - 1]
  }

  /** Squared Frobenius norm: the sum of the squares of all entries. */
  function SquaredNorm(m: Matrix): real {
    RowsSquaredNorm(m.data)
  }

  function RowsSquaredNorm(rs: seq<seq<real>>): real {
    if |rs| == 0 then 0.0 else RowsSquaredNorm(rs[..|rs| - 1]) + SumSquares(rs[|rs| - 1])
  }

  /** A vector as a one-column matrix. */
  function AsColumn(v: Vector): (m: Matrix)
    ensures m.rows == |v| && m.cols == 1
    ensures forall i :: 0 <= i < |v| ==> m.data[i][0] == v[i]
  {
    RawMatrix(|v|, 1, seq(|v|, i requires 0 <= i < |v| => [v[i]]))
  }

  /** Entrywise difference of two equally long vectors. */
  function VecSub(u: Vector, v: Vector): (w: Vector)
    requires |u| == |v|
    ensures |w| == |u|
    ensures forall i :: 0 <= i < |u| ==> w[i] == u[i] - v[i]
  {
    seq(|u|, i requires 0 <= i < |u| => u[i] - v[i])
  }

  // ---------------------------------------------------------------------
  // Properties

  /** Adding a product of two positive numbers to a non-negative number
      gives a positive number. */
  lemma AddPositiveProduct(s: real, a: real, b: real)
    requires s >= 0.0 && a > 0.0 && b > 0.0
    ensures s + a * b > 0.0
  {
  }

  /** Adding a square to a non-negative number keeps it non-negative, and
      makes it positive when the squared number is not zero. */
  lemma AddSquare(s: real, x: real)
    requires s >= 0.0
    ensures s + x * x >= 0.0
    ensures x != 0.0 ==> s + x * x > 0.0
  {
    if x > 0.0 {
      AddPositiveProduct(s, x, x);
    } else if x < 0.0 {
      AddPositiveProduct(s, -x, -x);
      assert (-x) * (-x) == x * x;
    }
  }

  lemma {:induction false} SumSquaresNonNegative(v: Vector)
    ensures SumSquares(v) >= 0.0
  {
    if |v| > 0 {
      SumSquaresNonNegative(v[..|v| - 1]);
      AddSquare(SumSquares(v[..|v| - 1]), v[|v| - 1]);
    }
  }

  /** A sum of squares vanishes exactly when every entry is zero. */
  lemma {:induction false} SumSquaresZeroIff(v: Vector)
    ensures SumSquares(v) == 0.0 <==> forall i :: 0 <= i < |v| ==> v[i] == 0.0
  {
    if |v| > 0 {
      var init := v[..|v| - 1];
      var last := v[|v| - 1];
      SumSquaresZeroIff(init);
      SumSquaresNonNegative(init);
      AddSquare(SumSquares(init), last);
      if forall i :: 0 <= i < |v| ==> v[i] == 0.0 {
        forall i | 0 <= i < |init| ensures init[i] == 0.0 { assert init[i] == v[i]; }
        assert last == 0.0;
      }
      if SumSquares(v) == 0.0 {
        forall i | 0 <= i < |v| ensures v[i] == 0.0 {
          if i < |v| - 1 { assert v[i] == init[i]; }
        }
      }
    }
  }

  /** The dot product of a vector with itself is its sum of squares. */
  lemma {:induction false} DotSelf(v: Vector)
    ensures Dot(v, v) == SumSquares(v)
  {
    if |v| > 0 {
      DotSelf(v[..|v| - 1]);
    }
  }

  lemma {:induction false} RowsSquaredNormNonNegative(rs: seq<seq<real>>)
    ensures RowsSquaredNorm(rs) >= 0.0
  {
    if |rs| > 0 {
      RowsSquaredNormNonNegative(rs[..|rs| - 1]);
      SumSquaresNonNegative(rs[|rs| - 1]);
    }
  }

  lemma SquaredNormNonNegative(m: Matrix)
    ensures SquaredNorm(m) >= 0.0
  {
    RowsSquaredNormNonNegative(m.data);
  }

  /** Row i of the transpose is column i. */
  lemma TransposeRow(a: Matrix, i: nat)
    requires i < a.cols
    ensures Transpose(a).data[i] == Col(a, i)
  {
    assert |Transpose(a).data[i]| == a.rows;
  }

  /** Column j of the transpose is row j. */
  lemma TransposeCol(a: Matrix, j: nat)
    requires j < a.rows
    ensures Col(Transpose(a), j) == a.data[j]
  {
    assert |Col(Transpose(a), j)| == |a.data[j]|;
  }

  /** a(b + h) == ab + ha. */
  lemma ProductShift(a: real, b: real, h: real)
    ensures a * (b + h) == a * b + h * a
  {
  }

  /** Moving one entry of the second factor by h moves a dot product by h
      times the matching entry of the first factor. */
  lemma {:induction false} DotShift(u: Vector, v: Vector, k: nat, h: real)
    requires |u| == |v| && k < |v|
    ensures Dot(u, v[k := v[k] + h]) == Dot(u, v) + h * u[k]
  {
    var w := v[k := v[k] + h];
    var n := |u| - 1;
    if k == n {
      assert w[..n] == v[..n];
      ProductShift(u[n], v[n], h);
    } else {
      assert w[..n] == v[..n][k := v[k] + h];
      DotShift(u[..n], v[..n], k, h);
    }
  }

  /** The one-entry step of DotOfSum, over plain numbers. */
  lemma SumStep(x: real, y: real, z: real, a: real, b: real)
    ensures (x + 2.0 * y + z) + (a + b) * (a + b) == (x + a * a) + 2.0 * (y + b * a) + (z + b * b)
  {
  }

  /** The dot product of r + d with itself is that of r, plus twice d.r,
      plus that of d. */
  lemma {:induction false} DotOfSum(r: Vector, d: Vector, r': Vector)
    requires |r| == |d| == |r'|
    requires forall k :: 0 <= k < |r| ==> r'[k] == r[k] + d[k]
    ensures Dot(r', r') == Dot(r, r) + 2.0 * Dot(d, r) + Dot(d, d)
  {
    if |r| > 0 {
      var n := |r| - 1;
      DotOfSum(r[..n], d[..n], r'[..n]);
      SumStep(Dot(r[..n], r[..n]), Dot(d[..n], r[..n]), Dot(d[..n], d[..n]), r[n], d[n]);
    }
  }

  /** hx + (hc)r == h(x + cr). */
  lemma ScaleStep(x: real, h: real, c: real, r: real)
    ensures h * x + (h * c) * r == h * (x + c * r)
  {
  }

  /** Scaling the first factor scales a dot product. */
  lemma {:induction false} DotScale(d: Vector, c: Vector, r: Vector, h: real, g: real)
    requires |d| == |c| == |r| && g == Dot(c, r)
    requires forall k :: 0 <= k < |d| ==> d[k] == h * c[k]
    ensures Dot(d, r) == h * g
  {
    if |d| > 0 {
      var n := |d| - 1;
      DotScale(d[..n], c[..n], r[..n], h, Dot(c[..n], r[..n]));
      ScaleStep(Dot(c[..n], r[..n]), h, c[n], r[n]);
    }
  }

  /** Two matrices of the same shape with the same entries are equal. */
  lemma Extensionality(a: Matrix, b: Matrix)
    requires SameShape(a, b)
    requires forall i, j :: 0 <= i < a.rows && 0 <= j < a.cols ==> a.data[i][j] == b.data[i][j]
    ensures a == b
  {
    forall i | 0 <= i < a.rows
      ensures a.data[i] == b.data[i]
    {
      assert |a.data[i]| == |b.data[i]|;
    }
    assert a.data == b.data;
  }
}
