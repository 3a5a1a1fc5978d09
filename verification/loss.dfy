/** The loss the engine reports and the running mean `train` keeps. Both
    network variants define `meanSquareError` and the incremental mean
    identically, so they are defined once here. */
module Loss {
  import opened Matrices
  import opened Elementwise

  /** A training example, `{input: ..., output: ...}`. */
  datatype Example = Example(input: Matrix, output: Matrix)

  /** The squared difference of entry (i, j). */
  function SquaredDiff(a: Matrix, b: Matrix, i: int, j: int): (r: real)
    ensures r >= 0.0
    ensures r == 0.0 <==> a.At(i, j) == b.At(i, j)
  {
    var d := a.At(i, j) - b.At(i, j);
    SquareZeroIff(d);
    d * d
  }

  /** The squared differences of the first n entries of row i. */
  function RowSquares(a: Matrix, b: Matrix, i: int, n: nat): real
  {
    if n == 0 then 0.0 else RowSquares(a, b, i, n - 1) + SquaredDiff(a, b, i, n - 1)
  }

  /** The squared differences of the first n rows over a's columns, in the
      row-major order of `Matrix#each`. */
  function Squares(a: Matrix, b: Matrix, n: nat): real
  {
    if n == 0 then 0.0 else Squares(a, b, n - 1) + RowSquares(a, b, n - 1, a.cols)
  }

  /** A matrix with at least one entry: the count `meanSquareError` divides
      by is not zero. */
  predicate HasEntries(m: Matrix) {
    m.rows > 0 && m.cols > 0
  }

  /** The mean of the squared entrywise differences of a and b. */
  function MeanSquare(a: Matrix, b: Matrix): real
    requires HasEntries(a)
  {
    CountPositive(a.rows, a.cols);
    Squares(a, b, a.rows) / (a.rows * a.cols) as real
  }

  /** `meanSquareError(a, b)`: `a - b` raises on mismatched shapes, the
      entries of `diff.hadamard(diff)` are summed and counted, and the final
      `sum / i` raises when there were none. */
  method MeanSquareError(a: Matrix, b: Matrix) returns (r: Result<real>)
    requires a.Wf() && b.Wf()
    ensures !SameShape(a, b) ==> r == Err(DimensionMismatch)
    ensures SameShape(a, b) && !HasEntries(a) ==> r == Err(ZeroDivision)
    ensures SameShape(a, b) && HasEntries(a) ==> r == Ok(MeanSquare(a, b))
  {
    if !SameShape(a, b) {
      return Err(DimensionMismatch);
    }
    var diff := Sub(a, b);
    var squared := Hadamard(diff, Mat(diff)).value;
    var rows, cols := squared.rows, squared.cols;
    assert rows == a.rows && cols == a.cols;
    var sum := 0.0;
    var count := 0;
    var i := 0;
    while i < rows
      invariant 0 <= i <= rows
      invariant sum == Squares(a, b, i)
      invariant count == i * cols
    {
      sum, count := AccumulateRow(a, b, squared, i, sum, count);
      assert count == (i + 1) * cols;
      i := i + 1;
    }
    CountPositive(rows, cols);
    if count == 0 {
      return Err(ZeroDivision);
    }
    r := Ok(sum / count as real);
  }

  /** The part of `diff.each` that visits row i of the squared differences:
      every entry is added to the sum and counted. */
  method AccumulateRow(a: Matrix, b: Matrix, squared: Matrix, i: nat, sum0: real, count0: nat)
    returns (sum: real, count: nat)
    requires a.Wf() && b.Wf() && SameShape(a, b) && i < a.rows
    requires squared == Product(Sub(a, b), Sub(a, b))
    ensures sum == sum0 + RowSquares(a, b, i, a.cols)
    ensures count == count0 + a.cols
  {
    var diff := Sub(a, b);
    sum, count := sum0, count0;
    var j := 0;
    while j < squared.cols
      invariant 0 <= j <= a.cols == squared.cols
      invariant sum == sum0 + RowSquares(a, b, i, j)
      invariant count == count0 + j
    {
      assert squared.At(i, j) == diff.At(i, j) * diff.At(i, j);
      sum := sum + squared.At(i, j);
      count := count + 1;
      j := j + 1;
    }
  }

  /** A row's squared differences sum to a non-negative value, which is zero
      exactly when the row's first n entries agree. */
  lemma {:induction false} RowSquaresZeroIff(a: Matrix, b: Matrix, i: int, n: nat)
    ensures RowSquares(a, b, i, n) >= 0.0
    ensures RowSquares(a, b, i, n) == 0.0 <==> forall j :: 0 <= j < n ==> a.At(i, j) == b.At(i, j)
  {
    if n > 0 {
      RowSquaresZeroIff(a, b, i, n - 1);
    }
  }

  /** The squared differences of the first n rows sum to a non-negative
      value, which is zero exactly when a and b agree on those rows. */
  lemma {:induction false} SquaresZeroIff(a: Matrix, b: Matrix, n: nat)
    ensures Squares(a, b, n) >= 0.0
    ensures Squares(a, b, n) == 0.0 <==> forall i, j :: 0 <= i < n && 0 <= j < a.cols ==> a.At(i, j) == b.At(i, j)
  {
    if n > 0 {
      SquaresZeroIff(a, b, n - 1);
      RowSquaresZeroIff(a, b, n - 1, a.cols);
    }
  }

  /** The reported loss is never negative. */
  lemma MeanSquareNonNegative(a: Matrix, b: Matrix)
    requires HasEntries(a)
    ensures MeanSquare(a, b) >= 0.0
  {
    CountPositive(a.rows, a.cols);
    SquaresZeroIff(a, b, a.rows);
  }

  /** The loss is zero exactly when the actual output equals the expected one. */
  lemma MeanSquareZeroIff(a: Matrix, b: Matrix)
    requires a.Wf() && b.Wf() && SameShape(a, b) && HasEntries(a)
    ensures MeanSquare(a, b) == 0.0 <==> a == b
  {
    CountPositive(a.rows, a.cols);
    var total := Squares(a, b, a.rows);
    var count := (a.rows * a.cols) as real;
    SquaresZeroIff(a, b, a.rows);
    if MeanSquare(a, b) == 0.0 {
      DivMul(total, count);
      Ext(a, b);
    }
  }

  /** The entry count is zero exactly when there are no rows or no columns. */
  lemma CountPositive(rows: nat, cols: nat)
    ensures rows * cols >= 0
    ensures rows * cols == 0 <==> rows == 0 || cols == 0
  {
    if rows > 0 && cols > 0 {
      assert rows * cols >= cols by {
        assert rows * cols == (rows - 1) * cols + cols;
      }
    }
  }

  /** A square is never negative, and zero only at zero. */
  lemma SquareZeroIff(x: real)
    ensures x * x >= 0.0
    ensures x * x == 0.0 <==> x == 0.0
  {
    SquareNonNegative(x);
    if x * x == 0.0 {
      ZeroProduct(x, x);
    }
  }

  /** A product of reals is zero only when a factor is. */
  lemma ZeroProduct(x: real, y: real)
    requires x * y == 0.0
    ensures x == 0.0 || y == 0.0
  {
    if x != 0.0 && y != 0.0 {
      var u := if x > 0.0 then x else -x;
      var v := if y > 0.0 then y else -y;
      PositiveProduct(u, v);
    }
  }

  lemma PositiveProduct(u: real, v: real)
    requires u > 0.0 && v > 0.0
    ensures u * v > 0.0
  {
    assert u * v > 0.0 * v;
  }

  /** s[0] + ... + s[|s|-1] */
  function Sum(s: seq<real>): real
  {
    if |s| == 0 then 0.0 else Sum(s[..|s| - 1]) + s[|s| - 1]
  }

  /** The value of `avgErr` after the losses in s, folded with
      `avgErr = (avgErr * n + error) / (n + 1)` from `avgErr = 0`. */
  function RunningMean(s: seq<real>): real
  {
    if |s| == 0 then 0.0
    else
      var n := |s| - 1;
      (RunningMean(s[..n]) * n as real + s[n]) / (n + 1) as real
  }

  /** `avgErr = (avgErr * n + error) / (n + 1)`: folding the loss x into the
      running mean of the n losses s gives the running mean of s + [x]. */
  method FoldLoss(avgErr: real, n: nat, x: real, ghost s: seq<real>) returns (r: real)
    requires avgErr == RunningMean(s) && n == |s|
    ensures r == RunningMean(s + [x])
  {
    assert (s + [x])[..n] == s;
    r := (avgErr * n as real + x) / (n + 1) as real;
  }

  /** The incremental mean is the arithmetic mean of the losses (and 0 when
      there are none). */
  lemma {:induction false} RunningMeanIsMean(s: seq<real>)
    ensures |s| == 0 ==> RunningMean(s) == 0.0
    ensures |s| > 0 ==> RunningMean(s) == Sum(s) / |s| as real
  {
    if |s| > 0 {
      var n := |s| - 1;
      RunningMeanIsMean(s[..n]);
      assert RunningMean(s[..n]) * n as real == Sum(s[..n]) by {
        if n > 0 {
          DivMul(Sum(s[..n]), n as real);
        }
      }
    }
  }

  lemma DivMul(x: real, d: real)
    requires d != 0.0
    ensures x / d * d == x
  {
  }

  /** The mean of non-negative losses is non-negative. */
  lemma {:induction false} RunningMeanNonNegative(s: seq<real>)
    requires forall k :: 0 <= k < |s| ==> s[k] >= 0.0
    ensures RunningMean(s) >= 0.0
  {
    if |s| > 0 {
      var n := |s| - 1;
      RunningMeanNonNegative(s[..n]);
      assert RunningMean(s[..n]) * n as real >= 0.0;
    }
  }
}
