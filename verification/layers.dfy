/** The layer algebra both network variants share: how the weight matrices
    are first built, and the backward recursion of error signals that
    `backPropogation` computes while it pops the forward trace. Both Ruby
    files propagate the error and form the weight gradient identically; they
    differ only in biases and in the learning-rate factor, which their own
    modules add. */
module Layers {
  import opened Matrices
  import opened Elementwise

  /** The weight matrices of a fresh network: one `Matrix.build(b, a)` per
      adjacent pair (a, b) of layer widths, every entry drawn by calling the
      starting-weight function with the fan-in a. */
  function InitialWeights(layers: seq<nat>, init: nat -> real): (W: seq<Matrix>)
    ensures |W| == if |layers| == 0 then 0 else |layers| - 1
    ensures forall i :: 0 <= i < |W| ==> W[i].Wf() && W[i].rows == layers[i + 1] && W[i].cols == layers[i]
    ensures forall i, r, c :: 0 <= i < |W| && 0 <= r < W[i].rows && 0 <= c < W[i].cols ==>
              W[i].At(r, c) == init(layers[i])
  {
    if |layers| == 0 then []
    else seq(|layers| - 1, i requires 0 <= i < |layers| - 1 => Filled(layers[i + 1], layers[i], init(layers[i])))
  }

  /** A forward trace T fits the weights W when it holds one pre-activation
      per layer, all with c columns, and every W[i] maps layer i's height to
      layer i+1's. */
  ghost predicate ShapedTrace(W: seq<Matrix>, T: seq<Matrix>, c: nat) {
    && |T| == |W| + 1
    && (forall k :: 0 <= k < |T| ==> T[k].Wf() && T[k].cols == c)
    && (forall i {:trigger W[i]} :: 0 <= i < |W| ==> W[i].Wf() && W[i].cols == T[i].rows && W[i].rows == T[i + 1].rows)
  }

  /** The error signal of layer k. For the output layer it is
      `(actual - expected).hadamard(f'(T[L]))`; below that it is
      `(W[k].t * next).hadamard(f'(T[k]))`, always with the weights as they
      were before the pass updated any of them. */
  function ErrorSignal(W: seq<Matrix>, T: seq<Matrix>, actual: Matrix, expected: Matrix,
                       fd: real -> real, k: nat): Matrix
    requires |T| == |W| + 1 && k <= |W|
    decreases |W| - k
  {
    var gate := MapEntries(T[k], fd);
    if k == |W| then Product(Sub(actual, expected), gate)
    else Product(Mul(Transpose(W[k]), ErrorSignal(W, T, actual, expected, fd, k + 1)), gate)
  }

  /** The gradient of layer i's weights, `nextError * a.t` with
      `a = f(T[i])`, before any learning-rate factor. */
  function WeightGradient(W: seq<Matrix>, T: seq<Matrix>, actual: Matrix, expected: Matrix,
                          f: real -> real, fd: real -> real, i: nat): Matrix
    requires |T| == |W| + 1 && i < |W|
  {
    Mul(ErrorSignal(W, T, actual, expected, fd, i + 1), Transpose(MapEntries(T[i], f)))
  }

  /** On a fitting trace, every error signal has its layer's shape, and
      every product and elementwise product of the recursion is between
      compatible shapes, so `hadamard` succeeds at every layer. */
  lemma {:induction false} ErrorSignalShape(W: seq<Matrix>, T: seq<Matrix>, c: nat, actual: Matrix,
                                            expected: Matrix, fd: real -> real, k: nat)
    requires ShapedTrace(W, T, c) && k <= |W|
    requires actual.Wf() && SameShape(actual, expected) && SameShape(actual, T[|W|])
    ensures var e := ErrorSignal(W, T, actual, expected, fd, k);
      e.Wf() && e.rows == T[k].rows && e.cols == c
    ensures k == |W| ==>
      Hadamard(Sub(actual, expected), Mat(MapEntries(T[k], fd))) == Ok(ErrorSignal(W, T, actual, expected, fd, k))
    ensures k < |W| ==>
      Transpose(W[k]).cols == ErrorSignal(W, T, actual, expected, fd, k + 1).rows &&
      Hadamard(Mul(Transpose(W[k]), ErrorSignal(W, T, actual, expected, fd, k + 1)), Mat(MapEntries(T[k], fd)))
        == Ok(ErrorSignal(W, T, actual, expected, fd, k))
    decreases |W| - k
  {
    if k < |W| {
      ErrorSignalShape(W, T, c, actual, expected, fd, k + 1);
    }
  }

  /** On a fitting trace the gradient of layer i has exactly W[i]'s shape,
      and `nextError * a.t` multiplies compatible shapes. */
  lemma WeightGradientShape(W: seq<Matrix>, T: seq<Matrix>, c: nat, actual: Matrix, expected: Matrix,
                            f: real -> real, fd: real -> real, i: nat)
    requires ShapedTrace(W, T, c) && i < |W|
    requires actual.Wf() && SameShape(actual, expected) && SameShape(actual, T[|W|])
    ensures ErrorSignal(W, T, actual, expected, fd, i + 1).cols == Transpose(MapEntries(T[i], f)).rows
    ensures SameShape(WeightGradient(W, T, actual, expected, f, fd, i), W[i])
  {
    ErrorSignalShape(W, T, c, actual, expected, fd, i + 1);
  }

  /** Scaling by a learning rate of 1 changes nothing. */
  lemma ScaleByOne(m: Matrix)
    requires m.Wf()
    ensures Scale(m, 1.0) == m
  {
    Ext(Scale(m, 1.0), m);
  }

  /** Two sequences of one length that agree at every index are equal. */
  lemma Agree<X>(xs: seq<X>, ys: seq<X>)
    requires |xs| == |ys| && forall k :: 0 <= k < |xs| ==> xs[k] == ys[k]
    ensures xs == ys
  {
  }
}
