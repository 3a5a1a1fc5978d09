/** Dense real matrices, standing in for Ruby's `Matrix` library that the
    engine is built on. A matrix carries its row and column counts
    explicitly (as Ruby's does, so a 0 x n matrix keeps its n); entries are
    read through the total accessor `At`, and every operation here builds a
    well-formed matrix whose shape is that of its left operand. Whether the
    operands' shapes agree is the caller's business: the network modules
    prove that every call they make is shape-compatible, which is exactly
    the condition under which the library would not raise. */
module Matrices {

  /** The exceptions the engine can raise. */
  datatype Error =
    | OperationNotDefined  // Matrix::ErrOperationNotDefined
    | DimensionMismatch    // Matrix::ErrDimensionMismatch
    | NotCoercible         // TypeError: an operand that cannot be coerced into a Matrix (nil)
    | ZeroDivision         // ZeroDivisionError from Integer division by zero

  datatype Result<T> = Ok(value: T) | Err(error: Error)

  datatype Outcome = Pass | Fail(error: Error)

  datatype Option<T> = None | Some(value: T)

  datatype Matrix = Matrix(rows: nat, cols: nat, data: seq<seq<real>>) {

    /** `data` holds `rows` rows of `cols` entries each. */
    ghost predicate Wf() {
      |data| == rows && forall i :: 0 <= i < rows ==> |data[i]| == cols
    }

    /** Entry (i, j); 0 outside the stored rows. */
    function At(i: int, j: int): real {
      if 0 <= i < |data| && 0 <= j < |data[i]| then data[i][j] else 0.0
    }
  }

  predicate SameShape(a: Matrix, b: Matrix) {
    a.rows == b.rows && a.cols == b.cols
  }

  /** `Matrix.build(rows, cols) { x }`: every entry is x. */
  function Filled(rows: nat, cols: nat, x: real): (m: Matrix)
    ensures m.Wf() && m.rows == rows && m.cols == cols
    ensures forall i, j :: 0 <= i < rows && 0 <= j < cols ==> m.At(i, j) == x
  {
    Matrix(rows, cols, seq(rows, _ => seq(cols, _ => x)))
  }

  /** `Matrix.columns([Array.new(n) { 0 }])`: a zero column of length n. */
  function ZeroColumn(n: nat): (m: Matrix)
    ensures m.Wf() && m.rows == n && m.cols == 1
    ensures forall i :: 0 <= i < n ==> m.At(i, 0) == 0.0
  {
    Filled(n, 1, 0.0)
  }

  /** `Matrix.column_vector(v)`. */
  function ColumnVector(v: seq<real>): (m: Matrix)
    ensures m.Wf() && m.rows == |v| && m.cols == 1
    ensures forall i :: 0 <= i < |v| ==> m.At(i, 0) == v[i]
  {
    Matrix(|v|, 1, seq(|v|, i requires 0 <= i < |v| => [v[i]]))
  }

  /** `a + b` */
  function Add(a: Matrix, b: Matrix): (r: Matrix)
    ensures r.Wf() && SameShape(r, a)
    ensures forall i, j {:trigger r.At(i, j)} :: 0 <= i < a.rows && 0 <= j < a.cols ==> r.At(i, j) == a.At(i, j) + b.At(i, j)
  {
    Matrix(a.rows, a.cols, seq(a.rows, i => seq(a.cols, j => a.At(i, j) + b.At(i, j))))
  }

  /** `a - b` */
  function Sub(a: Matrix, b: Matrix): (r: Matrix)
    ensures r.Wf() && SameShape(r, a)
    ensures forall i, j {:trigger r.At(i, j)} :: 0 <= i < a.rows && 0 <= j < a.cols ==> r.At(i, j) == a.At(i, j) - b.At(i, j)
  {
    Matrix(a.rows, a.cols, seq(a.rows, i => seq(a.cols, j => a.At(i, j) - b.At(i, j))))
  }

  /** `m * s` for a scalar s. */
  function Scale(m: Matrix, s: real): (r: Matrix)
    ensures r.Wf() && SameShape(r, m)
    ensures forall i, j {:trigger r.At(i, j)} :: 0 <= i < m.rows && 0 <= j < m.cols ==> r.At(i, j) == m.At(i, j) * s
  {
    Matrix(m.rows, m.cols, seq(m.rows, i => seq(m.cols, j => m.At(i, j) * s)))
  }

  /** `m.map { |e| f.call(e) }` */
  function MapEntries(m: Matrix, f: real -> real): (r: Matrix)
    ensures r.Wf() && SameShape(r, m)
    ensures forall i, j {:trigger r.At(i, j)} :: 0 <= i < m.rows && 0 <= j < m.cols ==> r.At(i, j) == f(m.At(i, j))
  {
    Matrix(m.rows, m.cols, seq(m.rows, i => seq(m.cols, j => f(m.At(i, j)))))
  }

  /** `m.t` */
  function Transpose(m: Matrix): (r: Matrix)
    ensures r.Wf() && r.rows == m.cols && r.cols == m.rows
    ensures forall i, j {:trigger r.At(i, j)} :: 0 <= i < m.cols && 0 <= j < m.rows ==> r.At(i, j) == m.At(j, i)
  {
    Matrix(m.cols, m.rows, seq(m.cols, i => seq(m.rows, j => m.At(j, i))))
  }

  /** a[i, 0] * b[0, j] + ... + a[i, n-1] * b[n-1, j] */
  function Dot(a: Matrix, i: int, b: Matrix, j: int, n: nat): real
  {
    if n == 0 then 0.0 else Dot(a, i, b, j, n - 1) + a.At(i, n - 1) * b.At(n - 1, j)
  }

  /** `a * b` for two matrices (defined by Ruby when a.cols == b.rows). */
  function Mul(a: Matrix, b: Matrix): (r: Matrix)
    ensures r.Wf() && r.rows == a.rows && r.cols == b.cols
    ensures forall i, j {:trigger r.At(i, j)} :: 0 <= i < a.rows && 0 <= j < b.cols ==> r.At(i, j) == Dot(a, i, b, j, a.cols)
  {
    Matrix(a.rows, b.cols, seq(a.rows, i => seq(b.cols, j => Dot(a, i, b, j, a.cols))))
  }

  /** Two well-formed matrices of one shape that agree entrywise are equal. */
  lemma Ext(a: Matrix, b: Matrix)
    requires a.Wf() && b.Wf() && SameShape(a, b)
    requires forall i, j :: 0 <= i < a.rows && 0 <= j < a.cols ==> a.At(i, j) == b.At(i, j)
    ensures a == b
  {
    forall i | 0 <= i < a.rows
      ensures a.data[i] == b.data[i]
    {
      forall j | 0 <= j < a.cols
        ensures a.data[i][j] == b.data[i][j]
      {
        assert a.At(i, j) == b.At(i, j);
      }
    }
  }
}
