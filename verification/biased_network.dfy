/** `NeuralNetwork` of lib/neuralnetwork.rb, the variant with a bias column
    for every layer (the input layer included) and a learning rate.

    The first half states what the engine computes as functions of its
    weights W, biases B and forward trace T (the Ruby `@weightedInputs`);
    the class `NeuralNetwork` then does it step by step as the Ruby does,
    and each of its methods is proved to leave exactly the state those
    functions describe. */
module BiasedNetwork {
  import opened Matrices
  import opened Elementwise
  import opened Loss
  import opened Layers

  /** `defaults[:learningRate]` */
  const DefaultLearningRate: real := 1.0

  /** weights[i] is layers[i+1] x layers[i]; biases[k] is a column of
      height layers[k]. */
  ghost predicate Shaped(layers: seq<nat>, W: seq<Matrix>, B: seq<Matrix>) {
    && |B| == |layers|
    && |W| == (if |layers| == 0 then 0 else |layers| - 1)
    && (forall k :: 0 <= k < |B| ==> B[k].Wf() && B[k].rows == layers[k] && B[k].cols == 1)
    && (forall i {:trigger W[i]} :: 0 <= i < |W| ==> W[i].Wf() && W[i].rows == layers[i + 1] && W[i].cols == layers[i])
  }

  /** One bias per layer, or (a network built from no layers) none at all. */
  predicate Layered(W: seq<Matrix>, B: seq<Matrix>) {
    |B| == 0 || |B| == |W| + 1
  }

  /** A trace left by a successful forward pass: one column per layer. */
  ghost predicate PrimedTrace(layers: seq<nat>, T: seq<Matrix>) {
    && |layers| > 0 && |T| == |layers|
    && forall k :: 0 <= k < |T| ==> T[k].Wf() && T[k].rows == layers[k] && T[k].cols == 1
  }

  /** The biases of a fresh network: a zero column per layer. */
  function InitialBiases(layers: seq<nat>): (B: seq<Matrix>)
    ensures |B| == |layers|
    ensures forall k :: 0 <= k < |B| ==> B[k].Wf() && B[k].rows == layers[k] && B[k].cols == 1
    ensures forall k, r :: 0 <= k < |B| && 0 <= r < layers[k] ==> B[k].At(r, 0) == 0.0
  {
    seq(|layers|, k requires 0 <= k < |layers| => ZeroColumn(layers[k]))
  }

  // ---------------------------------------------------------------------
  // Forward pass

  /** The activated output of layer k. Layer 0 activates `input + B[0]`. */
  function Activated(W: seq<Matrix>, B: seq<Matrix>, f: real -> real, input: Matrix, k: nat): Matrix
    requires k <= |W| && k < |B|
    decreases k, 1
  {
    if k == 0 then MapEntries(Add(input, B[0]), f)
    else MapEntries(WeightedInput(W, B, f, input, k), f)
  }

  /** The pre-activation of layer k >= 1: `W[k-1] * output + B[k]`. */
  function WeightedInput(W: seq<Matrix>, B: seq<Matrix>, f: real -> real, input: Matrix, k: nat): Matrix
    requires 1 <= k <= |W| && k < |B|
    decreases k, 0
  {
    Add(Mul(W[k - 1], Activated(W, B, f, input, k - 1)), B[k])
  }

  /** `@weightedInputs` after the first k weight layers: the raw input,
      then each pre-activation in layer order. */
  function Trace(W: seq<Matrix>, B: seq<Matrix>, f: real -> real, input: Matrix, k: nat): (T: seq<Matrix>)
    requires k <= |W| && k < |B|
    ensures |T| == k + 1
  {
    if k == 0 then [input] else Trace(W, B, f, input, k - 1) + [WeightedInput(W, B, f, input, k)]
  }

  /** What `feedForward(input)` returns or raises. */
  function Forward(W: seq<Matrix>, B: seq<Matrix>, f: real -> real, input: Matrix): Result<Matrix>
    requires Layered(W, B)
  {
    if |B| == 0 then Err(NotCoercible)
    else if !SameShape(input, B[0]) then Err(DimensionMismatch)
    else Ok(Activated(W, B, f, input, |W|))
  }

  /** `@weightedInputs` after `feedForward(input)`, whether it returned or
      raised: the trace is reset to `[input]` before anything can fail. */
  function TraceAfter(W: seq<Matrix>, B: seq<Matrix>, f: real -> real, input: Matrix): seq<Matrix>
    requires Layered(W, B)
  {
    if Forward(W, B, f, input).Ok? then Trace(W, B, f, input, |W|) else [input]
  }

  /** Entry 0 of the trace is the raw input, although layer 0 is activated
      from `input + B[0]`; entry m >= 1 is the pre-activation
      `W[m-1] * out_(m-1) + B[m]` of layer m. */
  lemma {:induction false} TraceAt(W: seq<Matrix>, B: seq<Matrix>, f: real -> real, input: Matrix, k: nat, m: nat)
    requires m <= k <= |W| && k < |B|
    ensures m == 0 ==> Trace(W, B, f, input, k)[m] == input
    ensures 1 <= m ==> Trace(W, B, f, input, k)[m] == Add(Mul(W[m - 1], Activated(W, B, f, input, m - 1)), B[m])
  {
    if m < k {
      TraceAt(W, B, f, input, k - 1, m);
    }
  }

  /** The returned output has the shape of the last trace entry, the one
      `backPropogation` pops first. */
  lemma OutputFitsTrace(W: seq<Matrix>, B: seq<Matrix>, f: real -> real, input: Matrix, k: nat)
    requires k <= |W| && k < |B|
    ensures SameShape(Activated(W, B, f, input, k), Trace(W, B, f, input, k)[k])
  {
    TraceAt(W, B, f, input, k, k);
  }

  /** On a shaped network and an input column of height layers[0], every
      addition and product of the forward pass is between compatible shapes,
      output k is a column of height layers[k], and so is trace entry k. */
  lemma {:induction false} ForwardShapes(layers: seq<nat>, W: seq<Matrix>, B: seq<Matrix>, f: real -> real,
                                         input: Matrix, k: nat)
    requires Shaped(layers, W, B) && k < |layers|
    requires input.Wf() && input.rows == layers[0] && input.cols == 1
    ensures SameShape(input, B[0])
    ensures var out := Activated(W, B, f, input, k); out.Wf() && out.rows == layers[k] && out.cols == 1
    ensures 1 <= k ==> W[k - 1].cols == Activated(W, B, f, input, k - 1).rows
    ensures 1 <= k ==> SameShape(Mul(W[k - 1], Activated(W, B, f, input, k - 1)), B[k])
    ensures forall m :: 0 <= m <= k ==>
              var T := Trace(W, B, f, input, k); T[m].Wf() && T[m].rows == layers[m] && T[m].cols == 1
  {
    if k > 0 {
      ForwardShapes(layers, W, B, f, input, k - 1);
    }
  }

  /** A successful forward pass returns a column of height layers[-1] and
      leaves a primed trace of |layers| entries. */
  lemma ForwardPrimes(layers: seq<nat>, W: seq<Matrix>, B: seq<Matrix>, f: real -> real, input: Matrix)
    requires Shaped(layers, W, B) && input.Wf() && Forward(W, B, f, input).Ok?
    ensures var out := Forward(W, B, f, input).value;
      out.Wf() && out.rows == layers[|layers| - 1] && out.cols == 1
    ensures PrimedTrace(layers, TraceAfter(W, B, f, input))
  {
    ForwardShapes(layers, W, B, f, input, |W|);
  }

  // ---------------------------------------------------------------------
  // Backward pass

  /** The weights after `backPropogation`: `W[i] - nextError * a.t * lr`
      for every layer i. */
  function UpdatedWeights(W: seq<Matrix>, T: seq<Matrix>, actual: Matrix, expected: Matrix,
                          f: real -> real, fd: real -> real, lr: real): (W': seq<Matrix>)
    requires |T| == |W| + 1
    ensures |W'| == |W|
  {
    WeightPrefix(W, T, actual, expected, f, fd, lr, |W|)
  }

  /** The first n updated weight layers. */
  function WeightPrefix(W: seq<Matrix>, T: seq<Matrix>, actual: Matrix, expected: Matrix,
                        f: real -> real, fd: real -> real, lr: real, n: nat): (W': seq<Matrix>)
    requires |T| == |W| + 1 && n <= |W|
    ensures |W'| == n
  {
    if n == 0 then []
    else WeightPrefix(W, T, actual, expected, f, fd, lr, n - 1)
           + [Sub(W[n - 1], Scale(WeightGradient(W, T, actual, expected, f, fd, n - 1), lr))]
  }

  /** The biases after `backPropogation`: `B[k] - error_k * lr` for every
      layer, the input layer included. */
  function UpdatedBiases(B: seq<Matrix>, W: seq<Matrix>, T: seq<Matrix>, actual: Matrix, expected: Matrix,
                         fd: real -> real, lr: real): (B': seq<Matrix>)
    requires |T| == |W| + 1 && |B| == |T|
    ensures |B'| == |B|
  {
    BiasPrefix(B, W, T, actual, expected, fd, lr, |B|)
  }

  /** The first n updated bias columns. */
  function BiasPrefix(B: seq<Matrix>, W: seq<Matrix>, T: seq<Matrix>, actual: Matrix, expected: Matrix,
                      fd: real -> real, lr: real, n: nat): (B': seq<Matrix>)
    requires |T| == |W| + 1 && |B| == |T| && n <= |B|
    ensures |B'| == n
  {
    if n == 0 then []
    else BiasPrefix(B, W, T, actual, expected, fd, lr, n - 1)
           + [Sub(B[n - 1], Scale(ErrorSignal(W, T, actual, expected, fd, n - 1), lr))]
  }

  lemma {:induction false} WeightPrefixAt(W: seq<Matrix>, T: seq<Matrix>, actual: Matrix, expected: Matrix,
                                          f: real -> real, fd: real -> real, lr: real, n: nat, i: nat)
    requires |T| == |W| + 1 && i < n <= |W|
    ensures WeightPrefix(W, T, actual, expected, f, fd, lr, n)[i]
              == Sub(W[i], Scale(WeightGradient(W, T, actual, expected, f, fd, i), lr))
  {
    if i < n - 1 {
      WeightPrefixAt(W, T, actual, expected, f, fd, lr, n - 1, i);
    }
  }

  lemma {:induction false} BiasPrefixAt(B: seq<Matrix>, W: seq<Matrix>, T: seq<Matrix>, actual: Matrix,
                                        expected: Matrix, fd: real -> real, lr: real, n: nat, k: nat)
    requires |T| == |W| + 1 && |B| == |T| && k < n <= |B|
    ensures BiasPrefix(B, W, T, actual, expected, fd, lr, n)[k]
              == Sub(B[k], Scale(ErrorSignal(W, T, actual, expected, fd, k), lr))
  {
    if k < n - 1 {
      BiasPrefixAt(B, W, T, actual, expected, fd, lr, n - 1, k);
    }
  }

  /** Every weight layer is updated by its own gradient, computed from the
      weights as they were before the pass. */
  lemma UpdatedWeightsAt(W: seq<Matrix>, T: seq<Matrix>, actual: Matrix, expected: Matrix,
                         f: real -> real, fd: real -> real, lr: real)
    requires |T| == |W| + 1
    ensures forall i :: 0 <= i < |W| ==>
              (UpdatedWeights(W, T, actual, expected, f, fd, lr)[i]
                 == Sub(W[i], Scale(WeightGradient(W, T, actual, expected, f, fd, i), lr)))
  {
    forall i | 0 <= i < |W|
      ensures UpdatedWeights(W, T, actual, expected, f, fd, lr)[i]
                == Sub(W[i], Scale(WeightGradient(W, T, actual, expected, f, fd, i), lr))
    {
      WeightPrefixAt(W, T, actual, expected, f, fd, lr, |W|, i);
    }
  }

  /** Every bias column, the input layer's included, is updated by its own
      layer's error signal. */
  lemma UpdatedBiasesAt(B: seq<Matrix>, W: seq<Matrix>, T: seq<Matrix>, actual: Matrix, expected: Matrix,
                        fd: real -> real, lr: real)
    requires |T| == |W| + 1 && |B| == |T|
    ensures forall k :: 0 <= k < |B| ==>
              (UpdatedBiases(B, W, T, actual, expected, fd, lr)[k]
                 == Sub(B[k], Scale(ErrorSignal(W, T, actual, expected, fd, k), lr)))
  {
    forall k | 0 <= k < |B|
      ensures UpdatedBiases(B, W, T, actual, expected, fd, lr)[k]
                == Sub(B[k], Scale(ErrorSignal(W, T, actual, expected, fd, k), lr))
    {
      BiasPrefixAt(B, W, T, actual, expected, fd, lr, |B|, k);
    }
  }

  /** The outcome of `backPropogation` and the state it leaves. */
  datatype Backward = Backward(outcome: Outcome, weights: seq<Matrix>, biases: seq<Matrix>, trace: seq<Matrix>)

  /** What `backPropogation(actual, expected)` does on a primed trace T: the
      output error `(actual - expected).hadamard(...)` raises before any
      update, either at the subtraction (the trace intact) or at the
      elementwise product (after the last entry was popped); otherwise every
      weight and bias is updated and the whole trace is popped. */
  function BackPass(W: seq<Matrix>, B: seq<Matrix>, T: seq<Matrix>, actual: Matrix, expected: Matrix,
                    f: real -> real, fd: real -> real, lr: real): Backward
    requires |T| == |W| + 1 && |B| == |T|
  {
    if !SameShape(actual, expected) then Backward(Fail(DimensionMismatch), W, B, T)
    else if !SameShape(actual, T[|W|]) then Backward(Fail(DimensionMismatch), W, B, T[..|W|])
    else Backward(Pass, UpdatedWeights(W, T, actual, expected, f, fd, lr),
                  UpdatedBiases(B, W, T, actual, expected, fd, lr), [])
  }

  /** One turn of the backward loop for weight layer i: the elementwise
      product yields layer i's error signal, and the subtractions yield the
      updated W[i] and B[i+1]. */
  lemma BackStep(W: seq<Matrix>, B: seq<Matrix>, T: seq<Matrix>, actual: Matrix, expected: Matrix,
                 f: real -> real, fd: real -> real, lr: real, i: nat)
    requires ShapedTrace(W, T, 1) && |B| == |T| && i < |W|
    requires actual.Wf() && SameShape(actual, expected) && SameShape(actual, T[|W|])
    ensures var next := ErrorSignal(W, T, actual, expected, fd, i + 1);
      && Hadamard(Mul(Transpose(W[i]), next), Mat(MapEntries(T[i], fd)))
           == Ok(ErrorSignal(W, T, actual, expected, fd, i))
      && Sub(W[i], Scale(Mul(next, Transpose(MapEntries(T[i], f))), lr))
           == UpdatedWeights(W, T, actual, expected, f, fd, lr)[i]
      && Sub(B[i + 1], Scale(next, lr)) == UpdatedBiases(B, W, T, actual, expected, fd, lr)[i + 1]
  {
    ErrorSignalShape(W, T, 1, actual, expected, fd, i);
    UpdatedWeightsAt(W, T, actual, expected, f, fd, lr);
    UpdatedBiasesAt(B, W, T, actual, expected, fd, lr);
  }

  /** On a shaped network and a primed trace, the pass raises only on
      mismatched shapes, and when it does not it keeps the network shaped. */
  lemma BackPassShaped(layers: seq<nat>, W: seq<Matrix>, B: seq<Matrix>, T: seq<Matrix>, actual: Matrix,
                       expected: Matrix, f: real -> real, fd: real -> real, lr: real)
    requires Shaped(layers, W, B) && PrimedTrace(layers, T) && actual.Wf()
    ensures var b := BackPass(W, B, T, actual, expected, f, fd, lr);
      && Shaped(layers, b.weights, b.biases)
      && (b.outcome == Pass <==> SameShape(actual, expected) && SameShape(actual, T[|W|]))
  {
    if SameShape(actual, expected) && SameShape(actual, T[|W|]) {
      UpdateShapes(layers, W, B, T, actual, expected, f, fd, lr);
    }
  }

  lemma PrimedFits(layers: seq<nat>, W: seq<Matrix>, B: seq<Matrix>, T: seq<Matrix>)
    requires Shaped(layers, W, B) && PrimedTrace(layers, T)
    ensures ShapedTrace(W, T, 1)
  {
  }

  /** Every subtraction of the backward pass is between equal shapes, so the
      pass raises nothing once the output error is formed, and it keeps the
      network shaped. */
  lemma UpdateShapes(layers: seq<nat>, W: seq<Matrix>, B: seq<Matrix>, T: seq<Matrix>, actual: Matrix,
                     expected: Matrix, f: real -> real, fd: real -> real, lr: real)
    requires Shaped(layers, W, B) && PrimedTrace(layers, T)
    requires actual.Wf() && SameShape(actual, expected) && SameShape(actual, T[|W|])
    ensures forall i :: 0 <= i < |W| ==>
              SameShape(Scale(WeightGradient(W, T, actual, expected, f, fd, i), lr), W[i])
    ensures forall k :: 0 <= k < |B| ==>
              SameShape(Scale(ErrorSignal(W, T, actual, expected, fd, k), lr), B[k])
    ensures Shaped(layers, UpdatedWeights(W, T, actual, expected, f, fd, lr),
                   UpdatedBiases(B, W, T, actual, expected, fd, lr))
  {
    PrimedFits(layers, W, B, T);
    UpdatedWeightsAt(W, T, actual, expected, f, fd, lr);
    UpdatedBiasesAt(B, W, T, actual, expected, fd, lr);
    forall i | 0 <= i < |W|
      ensures SameShape(Scale(WeightGradient(W, T, actual, expected, f, fd, i), lr), W[i])
    {
      WeightGradientShape(W, T, 1, actual, expected, f, fd, i);
    }
    forall k | 0 <= k < |B|
      ensures SameShape(Scale(ErrorSignal(W, T, actual, expected, fd, k), lr), B[k])
    {
      ErrorSignalShape(W, T, 1, actual, expected, fd, k);
    }
  }

  /** The layer-0 weight gradient is taken against `f(input)`, and the input
      layer's error signal, which updates `@biases[0]`, is gated by
      `f'(input)`: both use the raw input the trace recorded, not the biased
      `input + B[0]` that the forward pass activated. */
  lemma FirstGradientUsesRawInput(W: seq<Matrix>, B: seq<Matrix>, f: real -> real, fd: real -> real,
                                  input: Matrix, actual: Matrix, expected: Matrix)
    requires 1 <= |W| < |B|
    ensures var T := Trace(W, B, f, input, |W|);
      WeightGradient(W, T, actual, expected, f, fd, 0)
        == Mul(ErrorSignal(W, T, actual, expected, fd, 1), Transpose(MapEntries(input, f)))
    ensures var T := Trace(W, B, f, input, |W|);
      ErrorSignal(W, T, actual, expected, fd, 0)
        == Product(Mul(Transpose(W[0]), ErrorSignal(W, T, actual, expected, fd, 1)), MapEntries(input, fd))
  {
    TraceAt(W, B, f, input, |W|, 0);
  }

  // ---------------------------------------------------------------------
  // Training

  /** The network's parameters and trace, the losses so far, and the
      exception that ended the epoch, if any. */
  datatype Progress = Progress(weights: seq<Matrix>, biases: seq<Matrix>, trace: seq<Matrix>,
                               losses: seq<real>, failure: Option<Error>)

  /** One example of `train`: feed forward, take the loss, propagate back. */
  function Step(p: Progress, ex: Example, f: real -> real, fd: real -> real, lr: real): (q: Progress)
    requires Layered(p.weights, p.biases)
    ensures Layered(q.weights, q.biases)
  {
    var T := TraceAfter(p.weights, p.biases, f, ex.input);
    match Forward(p.weights, p.biases, f, ex.input)
    case Err(e) => p.(trace := T, failure := Some(e))
    case Ok(actual) =>
      if !SameShape(actual, ex.output) then p.(trace := T, failure := Some(DimensionMismatch))
      else if HasEntries(actual) then
        Progress(UpdatedWeights(p.weights, T, actual, ex.output, f, fd, lr),
                 UpdatedBiases(p.biases, p.weights, T, actual, ex.output, fd, lr),
                 [], p.losses + [MeanSquare(actual, ex.output)], None)
      else p.(trace := T, failure := Some(ZeroDivision))
  }

  /** A step succeeds exactly when the forward pass returns an output of
      the expected shape with at least one entry; it then records that
      output's loss, clears the trace and applies the updates computed from
      the full trace. */
  lemma StepSucceeds(p: Progress, ex: Example, f: real -> real, fd: real -> real, lr: real)
    requires Layered(p.weights, p.biases)
    ensures var out := Forward(p.weights, p.biases, f, ex.input);
      Step(p, ex, f, fd, lr).failure.None? <==>
        out.Ok? && SameShape(out.value, ex.output) && HasEntries(out.value)
    ensures var out := Forward(p.weights, p.biases, f, ex.input);
      out.Ok? && SameShape(out.value, ex.output) && HasEntries(out.value) ==>
        var T := Trace(p.weights, p.biases, f, ex.input, |p.weights|);
        Step(p, ex, f, fd, lr) ==
          Progress(UpdatedWeights(p.weights, T, out.value, ex.output, f, fd, lr),
                   UpdatedBiases(p.biases, p.weights, T, out.value, ex.output, fd, lr),
                   [], p.losses + [MeanSquare(out.value, ex.output)], None)
  {
    var out := Forward(p.weights, p.biases, f, ex.input);
    if out.Ok? {
      assert TraceAfter(p.weights, p.biases, f, ex.input) == Trace(p.weights, p.biases, f, ex.input, |p.weights|);
    }
  }

  /** A failed step keeps the weights, biases and losses, leaves the trace
      `feedForward` left, and records the first exception: the forward
      pass's own, then the loss's shape mismatch, then its division by zero. */
  lemma StepFails(p: Progress, ex: Example, f: real -> real, fd: real -> real, lr: real)
    requires Layered(p.weights, p.biases)
    requires Step(p, ex, f, fd, lr).failure.Some?
    ensures var q := Step(p, ex, f, fd, lr);
      && q.weights == p.weights && q.biases == p.biases && q.losses == p.losses
      && q.trace == TraceAfter(p.weights, p.biases, f, ex.input)
    ensures var q := Step(p, ex, f, fd, lr);
      var out := Forward(p.weights, p.biases, f, ex.input);
      q.failure.value ==
        if out.Err? then out.error
        else if !SameShape(out.value, ex.output) then DimensionMismatch
        else ZeroDivision
  {
  }

  /** A step keeps every recorded loss non-negative and adds one loss
      exactly when it succeeds. */
  lemma StepLosses(p: Progress, ex: Example, f: real -> real, fd: real -> real, lr: real)
    requires Layered(p.weights, p.biases)
    requires forall k :: 0 <= k < |p.losses| ==> p.losses[k] >= 0.0
    ensures var q := Step(p, ex, f, fd, lr);
      (forall k :: 0 <= k < |q.losses| ==> q.losses[k] >= 0.0) &&
      (q.failure.None? ==> |q.losses| == |p.losses| + 1) &&
      (q.failure.Some? ==> q.losses == p.losses)
  {
    var out := Forward(p.weights, p.biases, f, ex.input);
    StepSucceeds(p, ex, f, fd, lr);
    if out.Ok? && SameShape(out.value, ex.output) && HasEntries(out.value) {
      MeanSquareNonNegative(out.value, ex.output);
    } else {
      StepFails(p, ex, f, fd, lr);
    }
  }

  /** `train(examples)`: the examples in order, stopping at the first
      exception. */
  function Epoch(W: seq<Matrix>, B: seq<Matrix>, T: seq<Matrix>, examples: seq<Example>,
                 f: real -> real, fd: real -> real, lr: real): (p: Progress)
    requires Layered(W, B)
    ensures Layered(p.weights, p.biases)
    decreases |examples|
  {
    if |examples| == 0 then Progress(W, B, T, [], None)
    else
      var p := Epoch(W, B, T, examples[..|examples| - 1], f, fd, lr);
      if p.failure.Some? then p else Step(p, examples[|examples| - 1], f, fd, lr)
  }

  /** One training step is `feedForward`, then `meanSquareError` on its
      output, then `backPropogation` on the trace the forward pass left; the
      first of them to raise ends the step with that exception. */
  lemma StepByPasses(layers: seq<nat>, p: Progress, ex: Example, f: real -> real, fd: real -> real, lr: real)
    requires Shaped(layers, p.weights, p.biases) && ex.input.Wf()
    ensures var out := Forward(p.weights, p.biases, f, ex.input);
      var T := TraceAfter(p.weights, p.biases, f, ex.input);
      var q := Step(p, ex, f, fd, lr);
      && (out.Err? ==> q == p.(trace := T, failure := Some(out.error)))
      && (out.Ok? ==> PrimedTrace(layers, T) && out.value.Wf())
      && (out.Ok? && !SameShape(out.value, ex.output) ==> q == p.(trace := T, failure := Some(DimensionMismatch)))
      && (out.Ok? && SameShape(out.value, ex.output) && !(HasEntries(out.value)) ==>
            q == p.(trace := T, failure := Some(ZeroDivision)))
      && (out.Ok? && SameShape(out.value, ex.output) && HasEntries(out.value) ==>
            var b := BackPass(p.weights, p.biases, T, out.value, ex.output, f, fd, lr);
            && b.outcome == Pass
            && q == Progress(b.weights, b.biases, b.trace, p.losses + [MeanSquare(out.value, ex.output)], None))
  {
    var out := Forward(p.weights, p.biases, f, ex.input);
    if out.Ok? {
      ForwardPrimes(layers, p.weights, p.biases, f, ex.input);
      OutputFitsTrace(p.weights, p.biases, f, ex.input, |p.weights|);
    }
  }

  /** An epoch that has not failed after n examples runs example n as one
      more step. */
  lemma EpochSnoc(W: seq<Matrix>, B: seq<Matrix>, T: seq<Matrix>, examples: seq<Example>, n: nat,
                  f: real -> real, fd: real -> real, lr: real)
    requires Layered(W, B) && n < |examples|
    requires Epoch(W, B, T, examples[..n], f, fd, lr).failure.None?
    ensures Epoch(W, B, T, examples[..n + 1], f, fd, lr)
              == Step(Epoch(W, B, T, examples[..n], f, fd, lr), examples[n], f, fd, lr)
  {
    assert examples[..n + 1][..n] == examples[..n];
  }

  /** An epoch that has failed after n examples ignores example n. */
  lemma EpochHalts(W: seq<Matrix>, B: seq<Matrix>, T: seq<Matrix>, examples: seq<Example>, n: nat,
                   f: real -> real, fd: real -> real, lr: real)
    requires Layered(W, B) && n < |examples|
    requires Epoch(W, B, T, examples[..n], f, fd, lr).failure.Some?
    ensures Epoch(W, B, T, examples[..n + 1], f, fd, lr) == Epoch(W, B, T, examples[..n], f, fd, lr)
  {
    assert examples[..n + 1][..n] == examples[..n];
  }

  /** Once an example has raised, the rest of the examples are never run. */
  lemma {:induction false} FailureIsFinal(W: seq<Matrix>, B: seq<Matrix>, T: seq<Matrix>, examples: seq<Example>,
                                          n: nat, f: real -> real, fd: real -> real, lr: real)
    requires Layered(W, B) && n <= |examples|
    requires Epoch(W, B, T, examples[..n], f, fd, lr).failure.Some?
    ensures Epoch(W, B, T, examples, f, fd, lr) == Epoch(W, B, T, examples[..n], f, fd, lr)
    decreases |examples| - n
  {
    if n < |examples| {
      EpochHalts(W, B, T, examples, n, f, fd, lr);
      FailureIsFinal(W, B, T, examples, n + 1, f, fd, lr);
    } else {
      assert examples[..n] == examples;
    }
  }

  /** Every loss recorded by an epoch is non-negative, and an epoch that
      raised nothing records one loss per example. */
  lemma {:induction false} EpochLosses(W: seq<Matrix>, B: seq<Matrix>, T: seq<Matrix>, examples: seq<Example>,
                                       f: real -> real, fd: real -> real, lr: real)
    requires Layered(W, B)
    ensures var p := Epoch(W, B, T, examples, f, fd, lr);
      (forall k :: 0 <= k < |p.losses| ==> p.losses[k] >= 0.0) &&
      (p.failure.None? ==> |p.losses| == |examples|)
    decreases |examples|
  {
    if |examples| > 0 {
      var prefix := examples[..|examples| - 1];
      EpochLosses(W, B, T, prefix, f, fd, lr);
      var p := Epoch(W, B, T, prefix, f, fd, lr);
      if p.failure.None? {
        StepLosses(p, examples[|examples| - 1], f, fd, lr);
      }
    }
  }

  /** The value `train` returns is the arithmetic mean of the per-example
      losses (0 for no examples) and is never negative. */
  lemma EpochAverage(W: seq<Matrix>, B: seq<Matrix>, T: seq<Matrix>, examples: seq<Example>,
                     f: real -> real, fd: real -> real, lr: real)
    requires Layered(W, B)
    ensures var p := Epoch(W, B, T, examples, f, fd, lr);
      && RunningMean(p.losses) >= 0.0
      && (p.failure.None? && |examples| == 0 ==> RunningMean(p.losses) == 0.0)
      && (p.failure.None? && |examples| > 0 ==> RunningMean(p.losses) == Sum(p.losses) / |examples| as real)
  {
    var p := Epoch(W, B, T, examples, f, fd, lr);
    EpochLosses(W, B, T, examples, f, fd, lr);
    RunningMeanNonNegative(p.losses);
    RunningMeanIsMean(p.losses);
  }

  /** A single example is one forward pass, one loss and one backward pass. */
  lemma TrainOneExample(W: seq<Matrix>, B: seq<Matrix>, T: seq<Matrix>, ex: Example,
                        f: real -> real, fd: real -> real, lr: real)
    requires Layered(W, B)
    ensures Epoch(W, B, T, [ex], f, fd, lr) == Step(Progress(W, B, T, [], None), ex, f, fd, lr)
  {
    assert [ex][..0] == [];
  }

  /** Layers [1, 1], weight 2, zero biases, identity activation, input 3:
      the forward pass gives 6 and records the trace [3, 6]. */
  lemma WorkedForward(f: real -> real)
    requires forall x :: f(x) == x
    ensures var W := [Matrix(1, 1, [[2.0]])];
      var B := [ZeroColumn(1), ZeroColumn(1)];
      var input := Matrix(1, 1, [[3.0]]);
      && Forward(W, B, f, input) == Ok(Matrix(1, 1, [[6.0]]))
      && Trace(W, B, f, input, 1) == [input, Matrix(1, 1, [[6.0]])]
  {
    var W := [Matrix(1, 1, [[2.0]])];
    var B := [ZeroColumn(1), ZeroColumn(1)];
    var input := Matrix(1, 1, [[3.0]]);
    var six := Matrix(1, 1, [[6.0]]);
    var out0 := Activated(W, B, f, input, 0);
    Ext(out0, input);
    var z1 := WeightedInput(W, B, f, input, 1);
    assert Mul(W[0], out0).At(0, 0) == 6.0;
    Ext(z1, six);
    Ext(Activated(W, B, f, input, 1), six);
  }

  /** The same network, derivative constantly 1, output 6 against the
      expected 5: the output error is 1, the input layer's error is
      2 * 1 = 2, and the weight gradient is 1 * 3 = 3. */
  lemma WorkedSignals(f: real -> real, fd: real -> real)
    requires forall x :: f(x) == x
    requires forall x :: fd(x) == 1.0
    ensures var W := [Matrix(1, 1, [[2.0]])];
      var T := [Matrix(1, 1, [[3.0]]), Matrix(1, 1, [[6.0]])];
      var actual, expected := Matrix(1, 1, [[6.0]]), Matrix(1, 1, [[5.0]]);
      && ErrorSignal(W, T, actual, expected, fd, 1) == Matrix(1, 1, [[1.0]])
      && ErrorSignal(W, T, actual, expected, fd, 0) == Matrix(1, 1, [[2.0]])
      && WeightGradient(W, T, actual, expected, f, fd, 0) == Matrix(1, 1, [[3.0]])
  {
    var W := [Matrix(1, 1, [[2.0]])];
    var T := [Matrix(1, 1, [[3.0]]), Matrix(1, 1, [[6.0]])];
    var six, expected := Matrix(1, 1, [[6.0]]), Matrix(1, 1, [[5.0]]);
    var e1 := ErrorSignal(W, T, six, expected, fd, 1);
    Ext(e1, Matrix(1, 1, [[1.0]]));
    var e0 := ErrorSignal(W, T, six, expected, fd, 0);
    assert Transpose(W[0]).At(0, 0) == 2.0;
    assert Dot(Transpose(W[0]), 0, e1, 0, 1) == Transpose(W[0]).At(0, 0) * e1.At(0, 0);
    Ext(e0, Matrix(1, 1, [[2.0]]));
    var g := WeightGradient(W, T, six, expected, f, fd, 0);
    var a0 := Transpose(MapEntries(T[0], f));
    assert a0.At(0, 0) == 3.0;
    assert Dot(e1, 0, a0, 0, 1) == e1.At(0, 0) * a0.At(0, 0);
    Ext(g, Matrix(1, 1, [[3.0]]));
  }

  /** With learning rate 1 the weight becomes 2 - 3 = -1 and the biases
      become 0 - 2 = -2 (input layer) and 0 - 1 = -1 (output layer). */
  lemma WorkedBackward(f: real -> real, fd: real -> real)
    requires forall x :: f(x) == x
    requires forall x :: fd(x) == 1.0
    ensures var W := [Matrix(1, 1, [[2.0]])];
      var B := [ZeroColumn(1), ZeroColumn(1)];
      var T := [Matrix(1, 1, [[3.0]]), Matrix(1, 1, [[6.0]])];
      var actual, expected := Matrix(1, 1, [[6.0]]), Matrix(1, 1, [[5.0]]);
      && UpdatedWeights(W, T, actual, expected, f, fd, 1.0) == [Matrix(1, 1, [[-1.0]])]
      && UpdatedBiases(B, W, T, actual, expected, fd, 1.0) == [Matrix(1, 1, [[-2.0]]), Matrix(1, 1, [[-1.0]])]
  {
    WorkedWeights(f, fd);
    WorkedBiases(f, fd);
  }

  lemma WorkedWeights(f: real -> real, fd: real -> real)
    requires forall x :: f(x) == x
    requires forall x :: fd(x) == 1.0
    ensures var W := [Matrix(1, 1, [[2.0]])];
      var T := [Matrix(1, 1, [[3.0]]), Matrix(1, 1, [[6.0]])];
      UpdatedWeights(W, T, Matrix(1, 1, [[6.0]]), Matrix(1, 1, [[5.0]]), f, fd, 1.0) == [Matrix(1, 1, [[-1.0]])]
  {
    var W := [Matrix(1, 1, [[2.0]])];
    var T := [Matrix(1, 1, [[3.0]]), Matrix(1, 1, [[6.0]])];
    WorkedSignals(f, fd);
    UpdatedWeightsAt(W, T, Matrix(1, 1, [[6.0]]), Matrix(1, 1, [[5.0]]), f, fd, 1.0);
    UnitStep(2.0, 3.0);
  }

  lemma WorkedBiases(f: real -> real, fd: real -> real)
    requires forall x :: f(x) == x
    requires forall x :: fd(x) == 1.0
    ensures var W := [Matrix(1, 1, [[2.0]])];
      var B := [ZeroColumn(1), ZeroColumn(1)];
      var T := [Matrix(1, 1, [[3.0]]), Matrix(1, 1, [[6.0]])];
      UpdatedBiases(B, W, T, Matrix(1, 1, [[6.0]]), Matrix(1, 1, [[5.0]]), fd, 1.0)
        == [Matrix(1, 1, [[-2.0]]), Matrix(1, 1, [[-1.0]])]
  {
    var W := [Matrix(1, 1, [[2.0]])];
    var B := [ZeroColumn(1), ZeroColumn(1)];
    var T := [Matrix(1, 1, [[3.0]]), Matrix(1, 1, [[6.0]])];
    WorkedSignals(f, fd);
    UpdatedBiasesAt(B, W, T, Matrix(1, 1, [[6.0]]), Matrix(1, 1, [[5.0]]), fd, 1.0);
    Ext(ZeroColumn(1), Matrix(1, 1, [[0.0]]));
    UnitStep(0.0, 2.0);
    UnitStep(0.0, 1.0);
  }

  /** One step of rate 1 on 1 x 1 matrices: x - y * 1. */
  lemma UnitStep(x: real, y: real)
    ensures Sub(Matrix(1, 1, [[x]]), Scale(Matrix(1, 1, [[y]]), 1.0)) == Matrix(1, 1, [[x - y]])
  {
    Ext(Sub(Matrix(1, 1, [[x]]), Scale(Matrix(1, 1, [[y]]), 1.0)), Matrix(1, 1, [[x - y]]));
  }

  /** Training that network on the one example (3, 5) records the loss 1
      and leaves the weight -1, the biases -2 and -1 and an empty trace. */
  lemma WorkedTraining(f: real -> real, fd: real -> real)
    requires forall x :: f(x) == x
    requires forall x :: fd(x) == 1.0
    ensures var W := [Matrix(1, 1, [[2.0]])];
      var B := [ZeroColumn(1), ZeroColumn(1)];
      var ex := Example(Matrix(1, 1, [[3.0]]), Matrix(1, 1, [[5.0]]));
      Epoch(W, B, [], [ex], f, fd, 1.0)
        == Progress([Matrix(1, 1, [[-1.0]])], [Matrix(1, 1, [[-2.0]]), Matrix(1, 1, [[-1.0]])], [], [1.0], None)
  {
    var W := [Matrix(1, 1, [[2.0]])];
    var B := [ZeroColumn(1), ZeroColumn(1)];
    var input, expected := Matrix(1, 1, [[3.0]]), Matrix(1, 1, [[5.0]]);
    var six := Matrix(1, 1, [[6.0]]);
    WorkedForward(f);
    WorkedBackward(f, fd);
    TrainOneExample(W, B, [], Example(input, expected), f, fd, 1.0);
    StepSucceeds(Progress(W, B, [], [], None), Example(input, expected), f, fd, 1.0);
    assert Squares(six, expected, 1) == 1.0;
  }

  /** The body of `backPropogation`: takes the output error of the last
      trace entry, then walks the weight layers from the output down,
      popping one trace entry per layer and updating `@biases[j]` and
      `@weights[i]` with j = i + 1, and finally `@biases[0]`. */
  method PropagateBack(ghost layers: seq<nat>, weights: seq<Matrix>, biases: seq<Matrix>, trace: seq<Matrix>,
                       actual: Matrix, expected: Matrix, f: real -> real, fd: real -> real, lr: real)
    returns (r: Outcome, ws: seq<Matrix>, bs: seq<Matrix>, ts: seq<Matrix>)
    requires Shaped(layers, weights, biases) && PrimedTrace(layers, trace) && actual.Wf() && expected.Wf()
    ensures Shaped(layers, ws, bs)
    ensures Backward(r, ws, bs, ts) == BackPass(weights, biases, trace, actual, expected, f, fd, lr)
  {
    ghost var spec := BackPass(weights, biases, trace, actual, expected, f, fd, lr);
    PrimedFits(layers, weights, biases, trace);
    ws, bs, ts := weights, biases, trace;
    if !SameShape(actual, expected) {
      assert spec == Backward(Fail(DimensionMismatch), weights, biases, trace);
      return Fail(DimensionMismatch), ws, bs, ts;
    }
    var diff := Sub(actual, expected);
    var z := ts[|ts| - 1];
    ts := ts[..|ts| - 1];
    var outputError := Hadamard(diff, Mat(MapEntries(z, fd)));
    if outputError.Err? {
      assert !SameShape(actual, trace[|weights|]);
      assert spec == Backward(Fail(DimensionMismatch), weights, biases, trace[..|weights|]);
      return Fail(outputError.error), ws, bs, ts;
    }
    assert SameShape(actual, trace[|weights|]);
    var nextError := outputError.value;
    assert nextError == ErrorSignal(weights, trace, actual, expected, fd, |weights|) by {
      ErrorSignalShape(weights, trace, 1, actual, expected, fd, |weights|);
    }
    ws, bs, ts := PropagateLayers(weights, biases, trace, actual, expected, f, fd, lr, nextError, ts);
    BackPassShaped(layers, weights, biases, trace, actual, expected, f, fd, lr);
    r := Pass;
  }

  /** One turn of the backward loop for weight layer i, with j = i + 1:
      `@biases[j]` loses `nextError * lr`, the new error signal is
      `(W[i].t * nextError).hadamard(f'(z))`, and `@weights[i]` loses
      `nextError * f(z).t * lr`, z being the popped trace entry T[i]. */
  method UpdateLayer(weights: seq<Matrix>, biases: seq<Matrix>, trace: seq<Matrix>, actual: Matrix,
                     expected: Matrix, f: real -> real, fd: real -> real, lr: real, i: nat,
                     weightLayer: Matrix, bias: Matrix, z: Matrix, nextError: Matrix)
    returns (w: Matrix, b: Matrix, e: Matrix)
    requires ShapedTrace(weights, trace, 1) && |biases| == |trace| && i < |weights|
    requires actual.Wf() && SameShape(actual, expected) && SameShape(actual, trace[|weights|])
    requires weightLayer == weights[i] && bias == biases[i + 1] && z == trace[i]
    requires nextError == ErrorSignal(weights, trace, actual, expected, fd, i + 1)
    ensures w == UpdatedWeights(weights, trace, actual, expected, f, fd, lr)[i]
    ensures b == UpdatedBiases(biases, weights, trace, actual, expected, fd, lr)[i + 1]
    ensures e == ErrorSignal(weights, trace, actual, expected, fd, i)
  {
    BackStep(weights, biases, trace, actual, expected, f, fd, lr, i);
    b := Sub(bias, Scale(nextError, lr));
    var a := MapEntries(z, f);
    var gated := Hadamard(Mul(Transpose(weightLayer), nextError), Mat(MapEntries(z, fd)));
    var deltaW := Scale(Mul(nextError, Transpose(a)), lr);
    w := Sub(weightLayer, deltaW);
    e := gated.value;
  }

  /** The loop of `backPropogation`: from the output layer down, pops one
      trace entry per weight layer i, updates `@biases[i + 1]` and
      `@weights[i]` from the error signal of layer i + 1 and hands layer
      i's error signal down; last it updates `@biases[0]`. */
  method PropagateLayers(weights: seq<Matrix>, biases: seq<Matrix>, trace: seq<Matrix>, actual: Matrix,
                         expected: Matrix, f: real -> real, fd: real -> real, lr: real,
                         outputError: Matrix, popped: seq<Matrix>)
    returns (ws: seq<Matrix>, bs: seq<Matrix>, ts: seq<Matrix>)
    requires ShapedTrace(weights, trace, 1) && |biases| == |trace|
    requires actual.Wf() && SameShape(actual, expected) && SameShape(actual, trace[|weights|])
    requires popped == trace[..|weights|]
    requires outputError == ErrorSignal(weights, trace, actual, expected, fd, |weights|)
    ensures ws == UpdatedWeights(weights, trace, actual, expected, f, fd, lr)
    ensures bs == UpdatedBiases(biases, weights, trace, actual, expected, fd, lr)
    ensures ts == []
  {
    ghost var W' := UpdatedWeights(weights, trace, actual, expected, f, fd, lr);
    ghost var B' := UpdatedBiases(biases, weights, trace, actual, expected, fd, lr);
    ws, bs, ts := weights, biases, popped;
    var nextError := outputError;
    var i := |ws| - 1;
    var j := |ws|;
    while i >= 0
      invariant -1 <= i < |weights| && j == i + 1
      invariant |ts| == j && forall k :: 0 <= k < j ==> ts[k] == trace[k]
      invariant nextError == ErrorSignal(weights, trace, actual, expected, fd, j)
      invariant |ws| == |weights| && |bs| == |biases|
      invariant forall k :: 0 <= k < j ==> ws[k] == weights[k]
      invariant forall k :: j <= k < |ws| ==> ws[k] == W'[k]
      invariant forall k :: 0 <= k <= j ==> bs[k] == biases[k]
      invariant forall k :: j < k < |bs| ==> bs[k] == B'[k]
    {
      var z := ts[|ts| - 1];
      ts := ts[..|ts| - 1];
      var w, b, e := UpdateLayer(weights, biases, trace, actual, expected, f, fd, lr, i, ws[i], bs[j], z, nextError);
      bs := bs[j := b];
      ws := ws[i := w];
      nextError := e;
      i, j := i - 1, j - 1;
    }
    BiasPrefixAt(biases, weights, trace, actual, expected, fd, lr, |biases|, 0);
    Agree(ws, W');
    Agree(bs[0 := B'[0]], B');
    bs := bs[j := Sub(bs[j], Scale(nextError, lr))];
  }

  /** The loop of `initialize`: for every layer a zero bias column, and
      for every layer but the last the weight matrix to the next layer,
      filled with the starting weight for its fan-in. */
  method BuildLayers(layers: seq<nat>, init: nat -> real) returns (ws: seq<Matrix>, bs: seq<Matrix>)
    ensures ws == InitialWeights(layers, init) && bs == InitialBiases(layers)
  {
    ws, bs := [], [];
    var index := 0;
    while index < |layers|
      invariant 0 <= index <= |layers|
      invariant |bs| == index && forall k :: 0 <= k < index ==> bs[k] == ZeroColumn(layers[k])
      invariant |ws| == if index == |layers| && index > 0 then index - 1 else index
      invariant forall i :: 0 <= i < |ws| ==> ws[i] == Filled(layers[i + 1], layers[i], init(layers[i]))
    {
      bs := bs + [ZeroColumn(layers[index])];
      if index != |layers| - 1 {
        var a, b := layers[index], layers[index + 1];
        ws := ws + [Filled(b, a, init(a))];
      }
      index := index + 1;
    }
  }

  // ---------------------------------------------------------------------
  // The engine

  class NeuralNetwork {
    /** The layer widths the network was built from (a local of `initialize`). */
    ghost const layers: seq<nat>
    const activation: real -> real
    const derivative: real -> real
    const learningRate: real
    var weights: seq<Matrix>
    var biases: seq<Matrix>
    /** `@weightedInputs` */
    var trace: seq<Matrix>

    ghost predicate Valid()
      reads this
    {
      Shaped(layers, weights, biases)
    }

    /** The trace a successful `feedForward` leaves for `backPropogation`. */
    ghost predicate Primed()
      reads this
    {
      PrimedTrace(layers, trace)
    }

    /** `initialize(args)`, with `args[:learningRate]` merged over the
        default of 1. */
    constructor (layers: seq<nat>, activation: real -> real, derivative: real -> real,
                 init: nat -> real, learningRate: Option<real>)
      ensures Valid() && this.layers == layers
      ensures this.activation == activation && this.derivative == derivative
      ensures this.learningRate == if learningRate.Some? then learningRate.value else DefaultLearningRate
      ensures weights == InitialWeights(layers, init) && biases == InitialBiases(layers) && trace == []
    {
      var ws, bs := BuildLayers(layers, init);
      this.layers := layers;
      this.activation := activation;
      this.derivative := derivative;
      this.learningRate := if learningRate.Some? then learningRate.value else DefaultLearningRate;
      weights, biases, trace := ws, bs, [];
    }

    /** `feedForward(input)` */
    method FeedForward(input: Matrix) returns (r: Result<Matrix>)
      requires Valid() && input.Wf()
      modifies this`trace
      ensures Valid()
      ensures r == Forward(weights, biases, activation, input)
      ensures trace == TraceAfter(weights, biases, activation, input)
      ensures r.Ok? ==> Primed() && r.value.Wf() && r.value.rows == layers[|layers| - 1] && r.value.cols == 1
    {
      var layer := 0;
      trace := [input];
      if |biases| == 0 {
        return Err(NotCoercible);
      }
      if !SameShape(input, biases[layer]) {
        return Err(DimensionMismatch);
      }
      var output := MapEntries(Add(input, biases[layer]), activation);
      while layer < |weights|
        invariant 0 <= layer <= |weights|
        invariant output == Activated(weights, biases, activation, input, layer)
        invariant trace == Trace(weights, biases, activation, input, layer)
      {
        var weightLayer := weights[layer];
        layer := layer + 1;
        output := Add(Mul(weightLayer, output), biases[layer]);
        trace := trace + [output];
        output := MapEntries(output, activation);
      }
      r := Ok(output);
      ForwardPrimes(layers, weights, biases, activation, input);
    }

    /** `backPropogation(actual, expected)`, run over the network's own
        weights, biases and trace by `PropagateBack`. */
    method Backpropagate(actual: Matrix, expected: Matrix) returns (r: Outcome)
      requires Valid() && Primed() && actual.Wf() && expected.Wf()
      modifies this`weights, this`biases, this`trace
      ensures Valid()
      ensures Backward(r, weights, biases, trace)
                == BackPass(old(weights), old(biases), old(trace), actual, expected, activation, derivative, learningRate)
    {
      r, weights, biases, trace :=
        PropagateBack(layers, weights, biases, trace, actual, expected, activation, derivative, learningRate);
    }

    /** `train(examples)`: the running mean of the losses, or the first
        exception raised. */
    method Train(examples: seq<Example>) returns (r: Result<real>)
      requires Valid()
      requires forall k :: 0 <= k < |examples| ==> examples[k].input.Wf() && examples[k].output.Wf()
      modifies this`weights, this`biases, this`trace
      ensures Valid()
      ensures var p := Epoch(old(weights), old(biases), old(trace), examples, activation, derivative, learningRate);
        && weights == p.weights && biases == p.biases && trace == p.trace
        && r == if p.failure.Some? then Err(p.failure.value) else Ok(RunningMean(p.losses))
    {
      ghost var W0, B0, T0 := weights, biases, trace;
      ghost var losses: seq<real> := [];
      var avgErr := 0.0;
      var n := 0;
      while n < |examples|
        invariant 0 <= n <= |examples| && Valid() && |losses| == n
        invariant Epoch(W0, B0, T0, examples[..n], activation, derivative, learningRate)
                    == Progress(weights, biases, trace, losses, None)
        invariant avgErr == RunningMean(losses)
      {
        ghost var p := Progress(weights, biases, trace, losses, None);
        var example := examples[n];
        EpochSnoc(W0, B0, T0, examples, n, activation, derivative, learningRate);
        StepByPasses(layers, p, example, activation, derivative, learningRate);
        var actual := FeedForward(example.input);
        if actual.Err? {
          FailureIsFinal(W0, B0, T0, examples, n + 1, activation, derivative, learningRate);
          return Err(actual.error);
        }
        var error := MeanSquareError(actual.value, example.output);
        if error.Err? {
          FailureIsFinal(W0, B0, T0, examples, n + 1, activation, derivative, learningRate);
          return Err(error.error);
        }
        var outcome := Backpropagate(actual.value, example.output);
        avgErr := FoldLoss(avgErr, n, error.value, losses);
        losses := losses + [error.value];
        n := n + 1;
      }
      assert examples[..n] == examples;
      r := Ok(avgErr);
    }
  }
}
