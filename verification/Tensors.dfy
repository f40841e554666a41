/** Real matrices and the handful of ONNX tensor operations the graph rewrites
    emit or replace. */
module Tensors {
  /** The width is explicit so that a matrix without rows still has a shape. */
  datatype Matrix = Matrix(width: nat, rows: seq<seq<real>>)

  predicate Rectangular(m: Matrix) { forall i | 0 <= i < |m.rows| :: |m.rows[i]| == m.width }

  predicate SameShape(a: Matrix, b: Matrix) { a.width == b.width && |a.rows| == |b.rows| }

  function Tabulate(height: nat, width: nat, f: (int, int) -> real): (m: Matrix)
    ensures Rectangular(m) && m.width == width && |m.rows| == height
    ensures forall i, j | 0 <= i < height && 0 <= j < width :: m.rows[i][j] == f(i, j)
  {
    Matrix(width, seq(height, i => seq(width, j => f(i, j))))
  }

  /** Zero outside the matrix. */
  function At(m: Matrix, i: int, j: int): real {
    if 0 <= i < |m.rows| && 0 <= j < |m.rows[i]| then m.rows[i][j] else 0.0
  }

  lemma Extensional(a: Matrix, b: Matrix)
    requires Rectangular(a) && Rectangular(b) && SameShape(a, b)
    requires forall i, j | 0 <= i < |a.rows| && 0 <= j < a.width :: At(a, i, j) == At(b, i, j)
    ensures a == b
  {
    forall i | 0 <= i < |a.rows| ensures a.rows[i] == b.rows[i] {
      forall j | 0 <= j < a.width ensures a.rows[i][j] == b.rows[i][j] {
        assert At(a, i, j) == At(b, i, j);
      }
    }
  }

  function Dot(a: seq<real>, b: seq<real>): real {
    if |a| == 0 || |b| == 0 then 0.0 else a[0] * b[0] + Dot(a[1..], b[1..])
  }

  function Column(m: Matrix, j: int): seq<real> { seq(|m.rows|, i => At(m, i, j)) }

  function Row(m: Matrix, i: int): seq<real> { if 0 <= i < |m.rows| then m.rows[i] else [] }

  function Transpose(m: Matrix): Matrix { Tabulate(m.width, |m.rows|, (i, j) => At(m, j, i)) }

  function MatMul(a: Matrix, b: Matrix): (m: Matrix)
    ensures Rectangular(m) && |m.rows| == |a.rows| && m.width == b.width
  {
    Tabulate(|a.rows|, b.width, (i, j) => Dot(Row(a, i), Column(b, j)))
  }

  /** Columns [from, from + width). */
  function Columns(m: Matrix, from: nat, width: nat): Matrix { Tabulate(|m.rows|, width, (i, j) => At(m, i, from + j)) }

  function Map1(f: real -> real, m: Matrix): Matrix { Tabulate(|m.rows|, m.width, (i, j) => f(At(m, i, j))) }

  function Map2(f: (real, real) -> real, a: Matrix, b: Matrix): Matrix {
    Tabulate(|a.rows|, a.width, (i, j) => f(At(a, i, j), At(b, i, j)))
  }

  const ADD: (real, real) -> real := (x, y) => x + y
  const SUB: (real, real) -> real := (x, y) => x - y
  const MUL: (real, real) -> real := (x, y) => x * y
  const RELU: real -> real := x => if x < 0.0 then 0.0 else x

  /** A vector read as a row repeated down a matrix; a single number fills it. */
  function Spread(v: seq<real>, height: nat, width: nat): Matrix
    requires |v| == width || |v| == 1
  {
    Tabulate(height, width, (i, j) => if |v| == 1 then v[0] else if 0 <= j < |v| then v[j] else 0.0)
  }

  lemma ColumnOfTranspose(m: Matrix, j: int)
    requires Rectangular(m) && 0 <= j < |m.rows|
    ensures Column(Transpose(m), j) == m.rows[j]
  {
    forall i | 0 <= i < m.width ensures Column(Transpose(m), j)[i] == m.rows[j][i] {
      assert At(Transpose(m), i, j) == At(m, j, i);
    }
  }

  /** A column block of A·Bᵀ is A times the transpose of that block of rows. */
  lemma ProductBlock(a: Matrix, b: Matrix, from: nat, width: nat, i: int, j: int)
    requires Rectangular(a) && Rectangular(b) && from + width <= |b.rows|
    requires 0 <= i < |a.rows| && 0 <= j < width
    ensures At(Columns(MatMul(a, Transpose(b)), from, width), i, j) == Dot(a.rows[i], b.rows[from + j])
  {
    ColumnOfTranspose(b, from + j);
    assert At(MatMul(a, Transpose(b)), i, from + j) == Dot(Row(a, i), Column(Transpose(b), from + j));
  }
}
