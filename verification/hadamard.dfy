/** `Matrix#hadamard`, the elementwise product the engine adds to Ruby's
    matrix library: the right operand is dispatched on its class (a scalar
    is refused, a vector is recast as a one-column matrix), the shapes are
    compared, and only then is a fresh matrix of entrywise products built.
    Values are immutable here, so "neither operand is modified" holds by
    construction. */
module Elementwise {
  import opened Matrices

  /** The right operand of `hadamard`, by its Ruby class. */
  datatype Operand = Scalar(x: real) | Vector(v: seq<real>) | Mat(m: Matrix)

  /** The matrix a non-scalar operand stands for: a vector becomes
      `Matrix.column_vector(v)`. */
  function AsMatrix(operand: Operand): (m: Matrix)
    requires !operand.Scalar?
    ensures operand.Vector? ==> m.Wf() && m.rows == |operand.v| && m.cols == 1
    ensures operand.Vector? ==> forall i :: 0 <= i < |operand.v| ==> m.At(i, 0) == operand.v[i]
    ensures operand.Mat? ==> m == operand.m
  {
    if operand.Vector? then ColumnVector(operand.v) else operand.m
  }

  /** The entrywise product over a's shape. */
  function Product(a: Matrix, b: Matrix): (r: Matrix)
    ensures r.Wf() && SameShape(r, a)
    ensures forall i, j {:trigger r.At(i, j)} :: 0 <= i < a.rows && 0 <= j < a.cols ==> r.At(i, j) == a.At(i, j) * b.At(i, j)
  {
    Matrix(a.rows, a.cols, seq(a.rows, i => seq(a.cols, j => a.At(i, j) * b.At(i, j))))
  }

  /** `a.hadamard(operand)`. Both operands are well formed, as every
      matrix Ruby can build is. */
  function Hadamard(a: Matrix, operand: Operand): (r: Result<Matrix>)
    requires a.Wf() && (operand.Mat? ==> operand.m.Wf())
    ensures operand.Scalar? ==> r == Err(OperationNotDefined)
    ensures !operand.Scalar? ==> (r.Ok? <==> SameShape(a, AsMatrix(operand)))
    ensures !operand.Scalar? && r.Err? ==> r.error == DimensionMismatch
    ensures r.Ok? ==> r.value.Wf() && SameShape(r.value, a)
    ensures r.Ok? ==> forall i, j {:trigger r.value.At(i, j)} :: 0 <= i < a.rows && 0 <= j < a.cols ==>
                        r.value.At(i, j) == a.At(i, j) * AsMatrix(operand).At(i, j)
  {
    match operand
    case Scalar(_) => Err(OperationNotDefined)
    case _ =>
      var m := AsMatrix(operand);
      if SameShape(a, m) then Ok(Product(a, m)) else Err(DimensionMismatch)
  }

  /** On matching shapes the result is the entrywise product. */
  lemma HadamardIsProduct(a: Matrix, b: Matrix)
    requires a.Wf() && b.Wf() && SameShape(a, b)
    ensures Hadamard(a, Mat(b)) == Ok(Product(a, b))
  {
  }

  /** A vector operand succeeds exactly against a one-column matrix of its
      length, and then multiplies row i by v[i]. */
  lemma VectorOperand(a: Matrix, v: seq<real>)
    requires a.Wf()
    ensures Hadamard(a, Vector(v)).Ok? <==> a.rows == |v| && a.cols == 1
    ensures Hadamard(a, Vector(v)).Ok? ==>
              forall i :: 0 <= i < |v| ==> Hadamard(a, Vector(v)).value.At(i, 0) == a.At(i, 0) * v[i]
  {
  }

  /** Over the reals the elementwise product commutes. */
  lemma HadamardCommutes(a: Matrix, b: Matrix)
    requires a.Wf() && b.Wf() && SameShape(a, b)
    ensures Hadamard(a, Mat(b)).Ok? && Hadamard(b, Mat(a)).Ok?
    ensures Hadamard(a, Mat(b)) == Hadamard(b, Mat(a))
  {
    var ab, ba := Product(a, b), Product(b, a);
    forall i, j | 0 <= i < a.rows && 0 <= j < a.cols
      ensures ab.At(i, j) == ba.At(i, j)
    {
      assert ab.At(i, j) == a.At(i, j) * b.At(i, j);
    }
    Ext(ab, ba);
  }

  /** Squaring entrywise never yields a negative entry. */
  lemma HadamardSelfNonNegative(a: Matrix)
    requires a.Wf()
    ensures Hadamard(a, Mat(a)).Ok?
    ensures forall i, j :: 0 <= i < a.rows && 0 <= j < a.cols ==> Hadamard(a, Mat(a)).value.At(i, j) >= 0.0
  {
    var sq := Product(a, a);
    forall i, j | 0 <= i < a.rows && 0 <= j < a.cols
      ensures sq.At(i, j) >= 0.0
    {
      SquareNonNegative(a.At(i, j));
    }
  }

  lemma SquareNonNegative(x: real)
    ensures x * x >= 0.0
  {
    if x < 0.0 {
      assert x * x == (-x) * (-x);
    }
  }
}
