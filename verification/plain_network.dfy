/** `NeuralNetwork` of neuralnetwork.rb, the older variant: weights only, no
    biases, no learning-rate factor, and a `train` that reports the running
    mean of the losses instead of returning it.

    As for the biased variant, the first half states what the engine
    computes as functions of its weights W and forward trace T, and the
    class `NeuralNetwork` then does it step by step. The input of this
    variant may hold any number c of columns: every layer then carries c
    columns through the pass. */
module PlainNetwork {
  import opened Matrices
  import opened Elementwise
  import opened Loss
  import opened Layers
  import BiasedNetwork

  /** weights[i] is layers[i+1] x layers[i]. */
  ghost predicate Shaped(layers: seq<nat>, W: seq<Matrix>) {
    && |W| == (if |layers| == 0 then 0 else |layers| - 1)
    && (forall i {:trigger W[i]} :: 0 <= i < |W| ==> W[i].Wf() && W[i].rows == layers[i + 1] && W[i].cols == layers[i])
  }

  /** A trace left by a successful forward pass: one entry per layer, all
      with the input's column count. */
  ghost predicate PrimedTrace(W: seq<Matrix>, T: seq<Matrix>) {
    |T| == |W| + 1 && ShapedTrace(W, T, T[0].cols)
  }

  // ---------------------------------------------------------------------
  // Forward pass

  /** The activated output of layer k. Layer 0 activates the raw input. */
  function Activated(W: seq<Matrix>, f: real -> real, input: Matrix, k: nat): Matrix
    requires k <= |W|
    decreases k, 1
  {
    if k == 0 then MapEntries(input, f)
    else MapEntries(WeightedInput(W, f, input, k), f)
  }

  /** The pre-activation of layer k >= 1: `W[k-1] * output`. */
  function WeightedInput(W: seq<Matrix>, f: real -> real, input: Matrix, k: nat): Matrix
    requires 1 <= k <= |W|
    decreases k, 0
  {
    Mul(W[k - 1], Activated(W, f, input, k - 1))
  }

  /** `@weightedInputs` after the first k weight layers. */
  function Trace(W: seq<Matrix>, f: real -> real, input: Matrix, k: nat): (T: seq<Matrix>)
    requires k <= |W|
    ensures |T| == k + 1
  {
    if k == 0 then [input] else Trace(W, f, input, k - 1) + [WeightedInput(W, f, input, k)]
  }

  /** What `feedForward(input)` returns or raises: the first product
      `W[0] * f(input)` raises unless the input has W[0]'s column count as
      its height; a network without weights returns `f(input)` whatever its
      shape. */
  function Forward(W: seq<Matrix>, f: real -> real, input: Matrix): Result<Matrix>
  {
    if |W| > 0 && W[0].cols != input.rows then Err(DimensionMismatch)
    else Ok(Activated(W, f, input, |W|))
  }

  /** `@weightedInputs` after `feedForward(input)`: reset to `[input]`
      before the first product can raise. */
  function TraceAfter(W: seq<Matrix>, f: real -> real, input: Matrix): seq<Matrix>
  {
    if Forward(W, f, input).Ok? then Trace(W, f, input, |W|) else [input]
  }

  /** Entry 0 of the trace is the input; entry m >= 1 is the pre-activation
      `W[m-1] * out_(m-1)`, with no bias. */
  lemma {:induction false} TraceAt(W: seq<Matrix>, f: real -> real, input: Matrix, k: nat, m: nat)
    requires m <= k <= |W|
    ensures m == 0 ==> Trace(W, f, input, k)[m] == input
    ensures 1 <= m ==> Trace(W, f, input, k)[m] == Mul(W[m - 1], Activated(W, f, input, m - 1))
  {
    if m < k {
      TraceAt(W, f, input, k - 1, m);
    }
  }

  /** The returned output has the shape of the last trace entry. */
  lemma OutputFitsTrace(W: seq<Matrix>, f: real -> real, input: Matrix, k: nat)
    requires k <= |W|
    ensures SameShape(Activated(W, f, input, k), Trace(W, f, input, k)[k])
  {
    TraceAt(W, f, input, k, k);
  }

  /** On a shaped network and an input of height layers[0] (any height when
      there are no weights), every product of the forward pass is between
      compatible shapes, and output k and trace entry k have the input's
      column count and layer k's height. */
  lemma {:induction false} ForwardShapes(layers: seq<nat>, W: seq<Matrix>, f: real -> real, input: Matrix, k: nat)
    requires Shaped(layers, W) && k <= |W| && input.Wf()
    requires |W| > 0 ==> input.rows == layers[0]
    ensures var out := Activated(W, f, input, k);
      out.Wf() && out.cols == input.cols && out.rows == (if k == 0 then input.rows else layers[k])
    ensures k < |W| ==> W[k].cols == Activated(W, f, input, k).rows
    ensures forall m :: 0 <= m <= k ==>
              var T := Trace(W, f, input, k);
              T[m].Wf() && T[m].cols == input.cols && T[m].rows == (if m == 0 then input.rows else layers[m])
  {
    if k > 0 {
      ForwardShapes(layers, W, f, input, k - 1);
    }
  }

  /** A successful forward pass on a shaped network leaves a primed trace,
      and its output has the input's column count and, when the input had
      layers[0] rows, the height layers[-1]. */
  lemma ForwardPrimes(layers: seq<nat>, W: seq<Matrix>, f: real -> real, input: Matrix)
    requires Shaped(layers, W) && input.Wf() && Forward(W, f, input).Ok?
    ensures var out := Forward(W, f, input).value;
      out.Wf() && out.cols == input.cols && SameShape(out, TraceAfter(W, f, input)[|W|])
    ensures |layers| > 0 && input.rows == layers[0] ==> Forward(W, f, input).value.rows == layers[|layers| - 1]
    ensures PrimedTrace(W, TraceAfter(W, f, input))
  {
    ForwardShapes(layers, W, f, input, |W|);
    OutputFitsTrace(W, f, input, |W|);
  }

  // ---------------------------------------------------------------------
  // Backward pass

  /** The weights after `backPropogation`: `W[i] - nextError * a.t` for
      every layer i. */
  function UpdatedWeights(W: seq<Matrix>, T: seq<Matrix>, actual: Matrix, expected: Matrix,
                          f: real -> real, fd: real -> real): (W': seq<Matrix>)
    requires |T| == |W| + 1
    ensures |W'| == |W|
  {
    UpdatedPrefix(W, T, actual, expected, f, fd, |W|)
  }

  /** The first n updated weight layers. */
  function UpdatedPrefix(W: seq<Matrix>, T: seq<Matrix>, actual: Matrix, expected: Matrix,
                         f: real -> real, fd: real -> real, n: nat): (W': seq<Matrix>)
    requires |T| == |W| + 1 && n <= |W|
    ensures |W'| == n
  {
    if n == 0 then []
    else UpdatedPrefix(W, T, actual, expected, f, fd, n - 1) + [Sub(W[n - 1], WeightGradient(W, T, actual, expected, f, fd, n - 1))]
  }

  /** Updated layer i is `W[i]` less its gradient, whatever the other layers. */
  lemma {:induction false} UpdatedPrefixAt(W: seq<Matrix>, T: seq<Matrix>, actual: Matrix, expected: Matrix,
                                           f: real -> real, fd: real -> real, n: nat, i: nat)
    requires |T| == |W| + 1 && i < n <= |W|
    ensures UpdatedPrefix(W, T, actual, expected, f, fd, n)[i] == Sub(W[i], WeightGradient(W, T, actual, expected, f, fd, i))
  {
    if i < n - 1 {
      UpdatedPrefixAt(W, T, actual, expected, f, fd, n - 1, i);
    }
  }

  lemma UpdatedWeightsAt(W: seq<Matrix>, T: seq<Matrix>, actual: Matrix, expected: Matrix,
                         f: real -> real, fd: real -> real)
    requires |T| == |W| + 1
    ensures forall i :: 0 <= i < |W| ==>
              UpdatedWeights(W, T, actual, expected, f, fd)[i] == Sub(W[i], WeightGradient(W, T, actual, expected, f, fd, i))
  {
    forall i | 0 <= i < |W|
      ensures UpdatedWeights(W, T, actual, expected, f, fd)[i] == Sub(W[i], WeightGradient(W, T, actual, expected, f, fd, i))
    {
      UpdatedPrefixAt(W, T, actual, expected, f, fd, |W|, i);
    }
  }

  /** The outcome of `backPropogation` and the state it leaves. */
  datatype Backward = Backward(outcome: Outcome, weights: seq<Matrix>, trace: seq<Matrix>)

  /** What `backPropogation(actual, expected)` does on a trace T of |W| + 1
      entries: the output error raises before any update, either at the
      subtraction (the trace intact) or at the elementwise product (after
      the last entry was popped); otherwise every weight is updated and the
      whole trace is popped. */
  function BackPass(W: seq<Matrix>, T: seq<Matrix>, actual: Matrix, expected: Matrix,
                    f: real -> real, fd: real -> real): Backward
    requires |T| == |W| + 1
  {
    if !SameShape(actual, expected) then Backward(Fail(DimensionMismatch), W, T)
    else if !SameShape(actual, T[|W|]) then Backward(Fail(DimensionMismatch), W, T[..|W|])
    else Backward(Pass, UpdatedWeights(W, T, actual, expected, f, fd), [])
  }

  /** This variant's update is the biased variant's weight update with a
      learning rate of 1. */
  lemma UpdateIsUnitRate(W: seq<Matrix>, T: seq<Matrix>, actual: Matrix, expected: Matrix,
                         f: real -> real, fd: real -> real)
    requires |T| == |W| + 1
    ensures UpdatedWeights(W, T, actual, expected, f, fd)
              == BiasedNetwork.UpdatedWeights(W, T, actual, expected, f, fd, 1.0)
  {
    UpdatedWeightsAt(W, T, actual, expected, f, fd);
    BiasedNetwork.UpdatedWeightsAt(W, T, actual, expected, f, fd, 1.0);
    forall i | 0 <= i < |W|
      ensures Scale(WeightGradient(W, T, actual, expected, f, fd, i), 1.0)
                == WeightGradient(W, T, actual, expected, f, fd, i)
    {
      ScaleByOne(WeightGradient(W, T, actual, expected, f, fd, i));
    }
  }

  /** One turn of the backward loop for weight layer i: the elementwise
      product yields layer i's error signal, and the subtraction yields the
      updated W[i]. */
  lemma BackStep(W: seq<Matrix>, T: seq<Matrix>, c: nat, actual: Matrix, expected: Matrix,
                 f: real -> real, fd: real -> real, i: nat)
    requires ShapedTrace(W, T, c) && i < |W|
    requires actual.Wf() && SameShape(actual, expected) && SameShape(actual, T[|W|])
    ensures var next := ErrorSignal(W, T, actual, expected, fd, i + 1);
      && Hadamard(Mul(Transpose(W[i]), next), Mat(MapEntries(T[i], fd)))
           == Ok(ErrorSignal(W, T, actual, expected, fd, i))
      && Sub(W[i], Mul(next, Transpose(MapEntries(T[i], f)))) == UpdatedWeights(W, T, actual, expected, f, fd)[i]
  {
    ErrorSignalShape(W, T, c, actual, expected, fd, i);
    UpdatedWeightsAt(W, T, actual, expected, f, fd);
  }

  /** Every subtraction of the backward pass is between equal shapes, so the
      pass keeps the network shaped. */
  lemma UpdateShapes(layers: seq<nat>, W: seq<Matrix>, T: seq<Matrix>, actual: Matrix, expected: Matrix,
                     f: real -> real, fd: real -> real)
    requires Shaped(layers, W) && PrimedTrace(W, T)
    requires actual.Wf() && SameShape(actual, expected) && SameShape(actual, T[|W|])
    ensures forall i :: 0 <= i < |W| ==> SameShape(WeightGradient(W, T, actual, expected, f, fd, i), W[i])
    ensures Shaped(layers, UpdatedWeights(W, T, actual, expected, f, fd))
  {
    UpdatedWeightsAt(W, T, actual, expected, f, fd);
    forall i | 0 <= i < |W|
      ensures SameShape(WeightGradient(W, T, actual, expected, f, fd, i), W[i])
    {
      WeightGradientShape(W, T, T[0].cols, actual, expected, f, fd, i);
    }
  }

  /** On a shaped network and a primed trace, the pass raises only on
      mismatched shapes, and it keeps the network shaped. */
  lemma BackPassShaped(layers: seq<nat>, W: seq<Matrix>, T: seq<Matrix>, actual: Matrix,
                       expected: Matrix, f: real -> real, fd: real -> real)
    requires Shaped(layers, W) && PrimedTrace(W, T) && actual.Wf()
    ensures var b := BackPass(W, T, actual, expected, f, fd);
      && Shaped(layers, b.weights)
      && (b.outcome == Pass <==> SameShape(actual, expected) && SameShape(actual, T[|W|]))
  {
    if SameShape(actual, expected) && SameShape(actual, T[|W|]) {
      UpdateShapes(layers, W, T, actual, expected, f, fd);
    }
  }

  // ---------------------------------------------------------------------
  // Training

  /** The network's weights and trace, the losses so far, and the exception
      that ended the epoch, if any. */
  datatype Progress = Progress(weights: seq<Matrix>, trace: seq<Matrix>, losses: seq<real>, failure: Option<Error>)

  /** One example of `train`: feed forward, take the loss, propagate back. */
  function Step(p: Progress, ex: Example, f: real -> real, fd: real -> real): Progress
  {
    var T := TraceAfter(p.weights, f, ex.input);
    match Forward(p.weights, f, ex.input)
    case Err(e) => p.(trace := T, failure := Some(e))
    case Ok(actual) =>
      if !SameShape(actual, ex.output) then p.(trace := T, failure := Some(DimensionMismatch))
      else if HasEntries(actual) then
        Progress(UpdatedWeights(p.weights, T, actual, ex.output, f, fd), [],
                 p.losses + [MeanSquare(actual, ex.output)], None)
      else p.(trace := T, failure := Some(ZeroDivision))
  }

  /** A step succeeds exactly when the forward pass returns an output of
      the expected shape with at least one entry; it then records that
      output's loss, clears the trace and applies the updates computed from
      the full trace. */
  lemma StepSucceeds(p: Progress, ex: Example, f: real -> real, fd: real -> real)
    ensures var out := Forward(p.weights, f, ex.input);
      Step(p, ex, f, fd).failure.None? <==>
        out.Ok? && SameShape(out.value, ex.output) && HasEntries(out.value)
    ensures var out := Forward(p.weights, f, ex.input);
      out.Ok? && SameShape(out.value, ex.output) && HasEntries(out.value) ==>
        var T := Trace(p.weights, f, ex.input, |p.weights|);
        Step(p, ex, f, fd) ==
          Progress(UpdatedWeights(p.weights, T, out.value, ex.output, f, fd), [],
                   p.losses + [MeanSquare(out.value, ex.output)], None)
  {
    var out := Forward(p.weights, f, ex.input);
    if out.Ok? {
      assert TraceAfter(p.weights, f, ex.input) == Trace(p.weights, f, ex.input, |p.weights|);
    }
  }

  /** A failed step keeps the weights and losses, leaves the trace
      `feedForward` left, and records the first exception. */
  lemma StepFails(p: Progress, ex: Example, f: real -> real, fd: real -> real)
    requires Step(p, ex, f, fd).failure.Some?
    ensures var q := Step(p, ex, f, fd);
      && q.weights == p.weights && q.losses == p.losses
      && q.trace == TraceAfter(p.weights, f, ex.input)
    ensures var q := Step(p, ex, f, fd);
      var out := Forward(p.weights, f, ex.input);
      q.failure.value ==
        if out.Err? then out.error
        else if !SameShape(out.value, ex.output) then DimensionMismatch
        else ZeroDivision
  {
  }

  /** A step keeps every recorded loss non-negative and adds one loss
      exactly when it succeeds. */
  lemma StepLosses(p: Progress, ex: Example, f: real -> real, fd: real -> real)
    requires forall k :: 0 <= k < |p.losses| ==> p.losses[k] >= 0.0
    ensures var q := Step(p, ex, f, fd);
      (forall k :: 0 <= k < |q.losses| ==> q.losses[k] >= 0.0) &&
      (q.failure.None? ==> |q.losses| == |p.losses| + 1) &&
      (q.failure.Some? ==> q.losses == p.losses)
  {
    var out := Forward(p.weights, f, ex.input);
    StepSucceeds(p, ex, f, fd);
    if out.Ok? && SameShape(out.value, ex.output) && HasEntries(out.value) {
      MeanSquareNonNegative(out.value, ex.output);
    } else {
      StepFails(p, ex, f, fd);
    }
  }

  /** `train(examples)`: the examples in order, stopping at the first
      exception. */
  function Epoch(W: seq<Matrix>, T: seq<Matrix>, examples: seq<Example>, f: real -> real, fd: real -> real): Progress
    decreases |examples|
  {
    if |examples| == 0 then Progress(W, T, [], None)
    else
      var p := Epoch(W, T, examples[..|examples| - 1], f, fd);
      if p.failure.Some? then p else Step(p, examples[|examples| - 1], f, fd)
  }

  /** One training step is `feedForward`, then `meanSquareError` on its
      output, then `backPropogation` on the trace the forward pass left; the
      first of them to raise ends the step with that exception. */
  lemma StepByPasses(layers: seq<nat>, p: Progress, ex: Example, f: real -> real, fd: real -> real)
    requires Shaped(layers, p.weights) && ex.input.Wf()
    ensures var out := Forward(p.weights, f, ex.input);
      var T := TraceAfter(p.weights, f, ex.input);
      var q := Step(p, ex, f, fd);
      && (out.Err? ==> q == p.(trace := T, failure := Some(out.error)))
      && (out.Ok? ==> PrimedTrace(p.weights, T) && out.value.Wf())
      && (out.Ok? && !SameShape(out.value, ex.output) ==> q == p.(trace := T, failure := Some(DimensionMismatch)))
      && (out.Ok? && SameShape(out.value, ex.output) && !(HasEntries(out.value)) ==>
            q == p.(trace := T, failure := Some(ZeroDivision)))
      && (out.Ok? && SameShape(out.value, ex.output) && HasEntries(out.value) ==>
            var b := BackPass(p.weights, T, out.value, ex.output, f, fd);
            && b.outcome == Pass
            && q == Progress(b.weights, b.trace, p.losses + [MeanSquare(out.value, ex.output)], None))
  {
    var out := Forward(p.weights, f, ex.input);
    if out.Ok? {
      ForwardPrimes(layers, p.weights, f, ex.input);
    }
  }

  /** An epoch that has not failed after n examples runs example n as one
      more step. */
  lemma EpochSnoc(W: seq<Matrix>, T: seq<Matrix>, examples: seq<Example>, n: nat, f: real -> real, fd: real -> real)
    requires n < |examples|
    requires Epoch(W, T, examples[..n], f, fd).failure.None?
    ensures Epoch(W, T, examples[..n + 1], f, fd) == Step(Epoch(W, T, examples[..n], f, fd), examples[n], f, fd)
  {
    assert examples[..n + 1][..n] == examples[..n];
  }

  /** An epoch that has failed after n examples ignores example n. */
  lemma EpochHalts(W: seq<Matrix>, T: seq<Matrix>, examples: seq<Example>, n: nat,
                   f: real -> real, fd: real -> real)
    requires n < |examples|
    requires Epoch(W, T, examples[..n], f, fd).failure.Some?
    ensures Epoch(W, T, examples[..n + 1], f, fd) == Epoch(W, T, examples[..n], f, fd)
  {
    assert examples[..n + 1][..n] == examples[..n];
  }

  /** Once an example has raised, the rest of the examples are never run. */
  lemma {:induction false} FailureIsFinal(W: seq<Matrix>, T: seq<Matrix>, examples: seq<Example>, n: nat,
                                          f: real -> real, fd: real -> real)
    requires n <= |examples|
    requires Epoch(W, T, examples[..n], f, fd).failure.Some?
    ensures Epoch(W, T, examples, f, fd) == Epoch(W, T, examples[..n], f, fd)
    decreases |examples| - n
  {
    if n < |examples| {
      EpochHalts(W, T, examples, n, f, fd);
      FailureIsFinal(W, T, examples, n + 1, f, fd);
    } else {
      assert examples[..n] == examples;
    }
  }

  /** Every loss recorded by an epoch is non-negative, and an epoch that
      raised nothing records one loss per example. */
  lemma {:induction false} EpochLosses(W: seq<Matrix>, T: seq<Matrix>, examples: seq<Example>,
                                       f: real -> real, fd: real -> real)
    ensures var p := Epoch(W, T, examples, f, fd);
      (forall k :: 0 <= k < |p.losses| ==> p.losses[k] >= 0.0) &&
      (p.failure.None? ==> |p.losses| == |examples|)
    decreases |examples|
  {
    if |examples| > 0 {
      var prefix := examples[..|examples| - 1];
      EpochLosses(W, T, prefix, f, fd);
      var p := Epoch(W, T, prefix, f, fd);
      if p.failure.None? {
        StepLosses(p, examples[|examples| - 1], f, fd);
      }
    }
  }

  /** The average `train` reports is the arithmetic mean of the per-example
      losses (0 for no examples) and is never negative. */
  lemma EpochAverage(W: seq<Matrix>, T: seq<Matrix>, examples: seq<Example>, f: real -> real, fd: real -> real)
    ensures var p := Epoch(W, T, examples, f, fd);
      && RunningMean(p.losses) >= 0.0
      && (p.failure.None? && |examples| == 0 ==> RunningMean(p.losses) == 0.0)
      && (p.failure.None? && |examples| > 0 ==> RunningMean(p.losses) == Sum(p.losses) / |examples| as real)
  {
    var p := Epoch(W, T, examples, f, fd);
    EpochLosses(W, T, examples, f, fd);
    RunningMeanNonNegative(p.losses);
    RunningMeanIsMean(p.losses);
  }

  /** Layers [1, 1], weight 2, identity activation, derivative constantly 1,
      input 3, expected 5: the forward pass gives 6 and records [3, 6], the
      output error is 1, and the weight becomes 2 - 1 * 3 = -1. */
  lemma WorkedExample(f: real -> real, fd: real -> real)
    requires forall x :: f(x) == x
    requires forall x :: fd(x) == 1.0
    ensures var W := [Matrix(1, 1, [[2.0]])];
      var input := Matrix(1, 1, [[3.0]]);
      var six := Matrix(1, 1, [[6.0]]);
      && Forward(W, f, input) == Ok(six)
      && Trace(W, f, input, 1) == [input, six]
      && UpdatedWeights(W, [input, six], six, Matrix(1, 1, [[5.0]]), f, fd) == [Matrix(1, 1, [[-1.0]])]
  {
    var W := [Matrix(1, 1, [[2.0]])];
    var input := Matrix(1, 1, [[3.0]]);
    var six, expected := Matrix(1, 1, [[6.0]]), Matrix(1, 1, [[5.0]]);
    var out0 := Activated(W, f, input, 0);
    Ext(out0, input);
    assert Mul(W[0], out0).At(0, 0) == 6.0;
    Ext(WeightedInput(W, f, input, 1), six);
    Ext(Activated(W, f, input, 1), six);
    var T := [input, six];
    var e1 := ErrorSignal(W, T, six, expected, fd, 1);
    Ext(e1, Matrix(1, 1, [[1.0]]));
    var a0 := Transpose(MapEntries(T[0], f));
    assert a0.At(0, 0) == 3.0;
    assert Dot(e1, 0, a0, 0, 1) == e1.At(0, 0) * a0.At(0, 0);
    assert WeightGradient(W, T, six, expected, f, fd, 0).At(0, 0) == 3.0;
    UpdatedWeightsAt(W, T, six, expected, f, fd);
    Ext(UpdatedWeights(W, T, six, expected, f, fd)[0], Matrix(1, 1, [[-1.0]]));
  }

  /** The body of `backPropogation`: takes the output error of the last
      trace entry, then walks the weight layers from the output down,
      popping one trace entry per layer and overwriting `@weights[i]`. */
  method PropagateBack(ghost layers: seq<nat>, weights: seq<Matrix>, trace: seq<Matrix>,
                       actual: Matrix, expected: Matrix, f: real -> real, fd: real -> real)
    returns (r: Outcome, ws: seq<Matrix>, ts: seq<Matrix>)
    requires Shaped(layers, weights) && PrimedTrace(weights, trace) && actual.Wf() && expected.Wf()
    ensures Shaped(layers, ws)
    ensures Backward(r, ws, ts) == BackPass(weights, trace, actual, expected, f, fd)
  {
    ghost var spec := BackPass(weights, trace, actual, expected, f, fd);
    ghost var c := trace[0].cols;
    ws, ts := weights, trace;
    if !SameShape(actual, expected) {
      assert spec == Backward(Fail(DimensionMismatch), weights, trace);
      return Fail(DimensionMismatch), ws, ts;
    }
    var diff := Sub(actual, expected);
    var z := ts[|ts| - 1];
    ts := ts[..|ts| - 1];
    var outputError := Hadamard(diff, Mat(MapEntries(z, fd)));
    if outputError.Err? {
      assert !SameShape(actual, trace[|weights|]);
      assert spec == Backward(Fail(DimensionMismatch), weights, trace[..|weights|]);
      return Fail(outputError.error), ws, ts;
    }
    assert SameShape(actual, trace[|weights|]);
    ghost var W' := UpdatedWeights(weights, trace, actual, expected, f, fd);
    var nextError := outputError.value;
    assert nextError == ErrorSignal(weights, trace, actual, expected, fd, |weights|) by {
      ErrorSignalShape(weights, trace, c, actual, expected, fd, |weights|);
    }
    var i := |ws| - 1;
    while i >= 0
      invariant -1 <= i < |weights|
      invariant ts == trace[..i + 1]
      invariant nextError == ErrorSignal(weights, trace, actual, expected, fd, i + 1)
      invariant |ws| == |weights|
      invariant forall k :: 0 <= k <= i ==> ws[k] == weights[k]
      invariant forall k :: i < k < |ws| ==> ws[k] == W'[k]
    {
      BackStep(weights, trace, c, actual, expected, f, fd, i);
      var weightLayer := ws[i];
      z := ts[|ts| - 1];
      ts := ts[..|ts| - 1];
      var a := MapEntries(z, f);
      var gated := Hadamard(Mul(Transpose(weightLayer), nextError), Mat(MapEntries(z, fd)));
      var deltaW := Mul(nextError, Transpose(a));
      ws := ws[i := Sub(weightLayer, deltaW)];
      nextError := gated.value;
      i := i - 1;
    }
    Agree(ws, W');
    assert spec == Backward(Pass, W', []);
    BackPassShaped(layers, weights, trace, actual, expected, f, fd);
    r := Pass;
  }

  /** The loop of `initialize`: for every layer but the last, the weight
      matrix to the next layer, filled with the starting weight for its
      fan-in. */
  method BuildWeights(layers: seq<nat>, init: nat -> real) returns (ws: seq<Matrix>)
    ensures ws == InitialWeights(layers, init)
  {
    ws := [];
    var index := 0;
    while index < |layers|
      invariant 0 <= index <= |layers|
      invariant |ws| == if index == |layers| && index > 0 then index - 1 else index
      invariant forall i :: 0 <= i < |ws| ==> ws[i] == Filled(layers[i + 1], layers[i], init(layers[i]))
    {
      if index != |layers| - 1 {
        var a, b := layers[index], layers[index + 1];
        ws := ws + [Filled(b, a, init(a))];
      }
      index := index + 1;
    }
  }

  // ---------------------------------------------------------------------
  // The engine

  class NeuralNetwork {
    /** The layer widths the network was built from (a local of `initialize`). */
    ghost const layers: seq<nat>
    const activation: real -> real
    const derivative: real -> real
    var weights: seq<Matrix>
    /** `@weightedInputs` */
    var trace: seq<Matrix>

    ghost predicate Valid()
      reads this
    {
      Shaped(layers, weights)
    }

    /** The trace a successful `feedForward` leaves for `backPropogation`. */
    ghost predicate Primed()
      reads this
    {
      PrimedTrace(weights, trace)
    }

    /** `initialize(layers, activation, derivative, startingWeight)`; the
        trace is empty until the first `feedForward`. */
    constructor (layers: seq<nat>, activation: real -> real, derivative: real -> real, init: nat -> real)
      ensures Valid() && this.layers == layers
      ensures this.activation == activation && this.derivative == derivative
      ensures weights == InitialWeights(layers, init) && trace == []
    {
      var ws := BuildWeights(layers, init);
      this.layers := layers;
      this.activation := activation;
      this.derivative := derivative;
      weights, trace := ws, [];
    }

    /** `feedForward(input)`; the product `weightLayer * output` raises on
        a height that does not match, which on a shaped network can only
        happen at the first layer. */
    method FeedForward(input: Matrix) returns (r: Result<Matrix>)
      requires Valid() && input.Wf()
      modifies this`trace
      ensures Valid()
      ensures r == Forward(weights, activation, input)
      ensures trace == TraceAfter(weights, activation, input)
      ensures r.Ok? ==> Primed() && r.value.Wf() && SameShape(r.value, trace[|weights|])
    {
      trace := [input];
      var output := MapEntries(input, activation);
      var layer := 0;
      while layer < |weights|
        invariant 0 <= layer <= |weights|
        invariant output == Activated(weights, activation, input, layer)
        invariant trace == Trace(weights, activation, input, layer)
        invariant output.rows == if layer == 0 then input.rows else weights[layer - 1].rows
        invariant layer > 0 ==> weights[0].cols == input.rows
      {
        var weightLayer := weights[layer];
        if weightLayer.cols != output.rows {
          return Err(DimensionMismatch);
        }
        output := Mul(weightLayer, output);
        trace := trace + [output];
        output := MapEntries(output, activation);
        layer := layer + 1;
      }
      r := Ok(output);
      ForwardPrimes(layers, weights, activation, input);
    }

    /** `backPropogation(actual, expected)`, run over the network's own
        weights and trace by `PropagateBack`. */
    method Backpropagate(actual: Matrix, expected: Matrix) returns (r: Outcome)
      requires Valid() && Primed() && actual.Wf() && expected.Wf()
      modifies this`weights, this`trace
      ensures Valid()
      ensures Backward(r, weights, trace) == BackPass(old(weights), old(trace), actual, expected, activation, derivative)
    {
      r, weights, trace := PropagateBack(layers, weights, trace, actual, expected, activation, derivative);
    }

    /** `train(examples)`: the running mean of the losses it reports, or the
        first exception raised. */
    method Train(examples: seq<Example>) returns (r: Result<real>)
      requires Valid()
      requires forall k :: 0 <= k < |examples| ==> examples[k].input.Wf() && examples[k].output.Wf()
      modifies this`weights, this`trace
      ensures Valid()
      ensures var p := Epoch(old(weights), old(trace), examples, activation, derivative);
        && weights == p.weights && trace == p.trace
        && r == if p.failure.Some? then Err(p.failure.value) else Ok(RunningMean(p.losses))
    {
      ghost var W0, T0 := weights, trace;
      ghost var losses: seq<real> := [];
      var avgErr := 0.0;
      var n := 0;
      while n < |examples|
        invariant 0 <= n <= |examples| && Valid() && |losses| == n
        invariant Epoch(W0, T0, examples[..n], activation, derivative) == Progress(weights, trace, losses, None)
        invariant avgErr == RunningMean(losses)
      {
        ghost var p := Progress(weights, trace, losses, None);
        var example := examples[n];
        EpochSnoc(W0, T0, examples, n, activation, derivative);
        StepByPasses(layers, p, example, activation, derivative);
        var actual := FeedForward(example.input);
        if actual.Err? {
          assert Step(p, example, activation, derivative) == p.(trace := trace, failure := Some(actual.error));
          FailureIsFinal(W0, T0, examples, n + 1, activation, derivative);
          return Err(actual.error);
        }
        var error := MeanSquareError(actual.value, example.output);
        if error.Err? {
          assert Step(p, example, activation, derivative) == p.(trace := trace, failure := Some(error.error));
          FailureIsFinal(W0, T0, examples, n + 1, activation, derivative);
          return Err(error.error);
        }
        ghost var b := BackPass(p.weights, trace, actual.value, example.output, activation, derivative);
        var outcome := Backpropagate(actual.value, example.output);
        assert b.weights == weights && b.trace == trace;
        assert error.value == MeanSquare(actual.value, example.output);
        assert Step(p, example, activation, derivative) == Progress(weights, trace, losses + [error.value], None);
        avgErr := FoldLoss(avgErr, n, error.value, losses);
        losses := losses + [error.value];
        n := n + 1;
      }
      assert examples[..n] == examples;
      r := Ok(avgErr);
    }
  }
}
