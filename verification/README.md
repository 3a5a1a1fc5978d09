# A verified model of a small Ruby neural-network engine

The engine is a feed-forward neural network built on Ruby's `Matrix`
library. It comes in two variants, each with its own copy of one
elementwise product.

- `lib/neuralnetwork.rb` is the current variant.
  - Every layer has a bias column, the input layer included, and there is a learning rate.
  - `train` returns the running mean of the per-example losses.
  - The file declares its own copy of `Matrix#hadamard` (lines 162-184), identical to `hadamard.rb`.
- `neuralnetwork.rb` is the older variant.
  - It has weights only and no learning-rate factor.
  - Its `train` prints the running mean.
- `hadamard.rb` is `Matrix#hadamard`, the elementwise product that the older variant loads. The two copies are identical, and `Elementwise.Hadamard` models both.

Both variants work the same way:

- `feedForward` pushes every layer's pre-activation onto a trace (`@weightedInputs`).
- `backPropogation` pops that trace from the output layer down.
  - It forms each layer's error signal from the weights as they were before the pass.
  - It overwrites `@weights[i]` and, in the biased variant, `@biases[j]`.
- `meanSquareError` sums and counts the squared entrywise differences.
- `train` folds the losses into `avgErr = (avgErr * n + error) / (n + 1)`.

## Project layout

| file | module | what it holds |
|---|---|---|
| `matrices.dfy` | `Matrices` | Dense real matrices with explicit row and column counts. They stand in for Ruby's `Matrix`: `build`, `+`, `-`, scalar `*`, `map`, `t`, the product, and the exceptions the engine can raise. |
| `hadamard.dfy` | `Elementwise` | `Matrix#hadamard`: dispatch on the operand's class, the shape check and the entrywise product. |
| `loss.dfy` | `Loss` | `meanSquareError` as a method with loops, and the running mean `train` keeps. Both are shared by the two variants. |
| `layers.dfy` | `Layers` | What both variants share: the initial weights, the backward recursion of error signals, and the weight gradient. |
| `biased_network.dfy` | `BiasedNetwork` | `lib/neuralnetwork.rb`. |
| `plain_network.dfy` | `PlainNetwork` | `neuralnetwork.rb`. |

Each network module follows the same pattern:

1. It first states what the engine computes as functions of the weights W, the biases B and the trace T: `Forward`, `Trace`, `BackPass`, `Step` and `Epoch`. It proves their properties as lemmas.
2. Its class `NeuralNetwork` then does the work step by step, as the Ruby does: the trace is pushed and popped, the weights are overwritten one index at a time, and the accumulators are updated.
   - Each method's `ensures` ties the new state to those functions.

Numbers are Dafny `real`. The activation function, its derivative and the starting-weight function are parameters.

## Model

| member | source | states |
|---|---|---|
| Matrices.Filled | lib/neuralnetwork.rb:32-35 | `Matrix.build(b, a) { x }` is a well-formed b x a matrix every entry of which is x |
| Matrices.ZeroColumn | lib/neuralnetwork.rb:25 | a fresh bias is a column of height n whose entries are all 0 |
| Matrices.ColumnVector | hadamard.rb:8 | `column_vector(v)` is a \|v\| x 1 matrix whose row i holds v[i] |
| Matrices.MapEntries | lib/neuralnetwork.rb:119-129 | `mapFunction(m, f)` keeps m's shape and puts f(m[i, j]) at (i, j); the activation and derivative maps are this with f and f' |
| Elementwise.AsMatrix | hadamard.rb:7-9 | a Vector operand becomes a one-column matrix of its length holding its entries; a Matrix operand is used as it is |
| Elementwise.Product | hadamard.rb:16-21 | the built matrix has self's shape, and entry (i, j) is self[i, j] * m[i, j] |
| Elementwise.Hadamard | hadamard.rb:3-22 | a scalar operand gives OperationNotDefined; otherwise the call succeeds exactly when the shapes agree, fails with DimensionMismatch when they differ, and on success returns self's shape with the entrywise products |
| Elementwise.HadamardIsProduct | lib/neuralnetwork.rb:175-182 | on matrices of one shape, the re-declared `hadamard` returns the entrywise product |
| Elementwise.VectorOperand | hadamard.rb:7-14 | a Vector operand succeeds exactly against an n x 1 matrix with n its length, and then row i is multiplied by v[i] |
| Elementwise.HadamardCommutes | hadamard.rb:18 | over the reals, a.hadamard(b) == b.hadamard(a) when the shapes agree, and both succeed |
| Elementwise.HadamardSelfNonNegative | lib/neuralnetwork.rb:133 | `diff.hadamard diff` succeeds and has only non-negative entries |
| Loss.RowSquares | lib/neuralnetwork.rb:135-140 | the sum `diff.each` accumulates over the first n entries of row i, in the order `each` visits them; properties in RowSquaresZeroIff and AccumulateRow |
| Loss.Squares | lib/neuralnetwork.rb:135-140 | the sum over the first n rows, row by row as `each` visits them; properties in SquaresZeroIff and MeanSquareError |
| Loss.MeanSquare | lib/neuralnetwork.rb:131-142 | the value `meanSquareError` returns on an output with at least one entry: the sum of the squared differences over rows * cols; properties in MeanSquareError, MeanSquareNonNegative and MeanSquareZeroIff |
| Loss.SquaredDiff | lib/neuralnetwork.rb:132-133 | each squared difference is >= 0, and it is 0 exactly when the two entries are equal |
| Loss.MeanSquareError | lib/neuralnetwork.rb:131-142 | mismatched shapes raise DimensionMismatch at `a - b`; a matrix without entries raises ZeroDivision at `sum / i`; otherwise the result is the sum of the squared differences divided by rows * cols |
| Loss.AccumulateRow | lib/neuralnetwork.rb:137-140 | `diff.each` over row i adds that row's squared differences to the sum and adds cols to the count |
| Loss.RowSquaresZeroIff | neuralnetwork.rb:106-111 | a row's sum of squares is >= 0, and it is 0 exactly when the row's entries agree |
| Loss.SquaresZeroIff | neuralnetwork.rb:106-111 | the sum over the first n rows is >= 0, and it is 0 exactly when a and b agree on those rows |
| Loss.MeanSquareNonNegative | lib/neuralnetwork.rb:131-142 | the loss is never negative |
| Loss.MeanSquareZeroIff | neuralnetwork.rb:102-113 | the loss is 0 exactly when actual == expected (both directions) |
| Loss.FoldLoss | lib/neuralnetwork.rb:59 | one `avgErr = (avgErr * n + error) / (n + 1)` step turns the running mean of n losses into the running mean of those losses followed by the new one |
| Loss.Sum | neuralnetwork.rb:34-45 | the plain sum of the losses, the reference that the running mean is compared against in RunningMeanIsMean |
| Loss.RunningMean | lib/neuralnetwork.rb:51-60 | the value of `avgErr` after folding the losses in order from `avgErr = 0`; properties in FoldLoss, RunningMeanIsMean and RunningMeanNonNegative |
| Loss.RunningMeanIsMean | neuralnetwork.rb:35-45 | after n >= 1 losses, `avgErr` is their arithmetic mean, and it is 0 after none |
| Loss.RunningMeanNonNegative | lib/neuralnetwork.rb:59 | the running mean of non-negative losses is non-negative |
| Layers.InitialWeights | neuralnetwork.rb:17-30 | the starting weights are max(\|layers\| - 1, 0) matrices; weights[i] is layers[i+1] x layers[i], and every entry is the starting weight for the fan-in layers[i] |
| Layers.ErrorSignal | lib/neuralnetwork.rb:81-98 | the output error `(actual - expected).hadamard(f'(T[L]))` at line 81, and the hidden error `(W[k].t * next).hadamard(f'(T[k]))` at line 93 below it, always over the weights as they were before the pass (neuralnetwork.rb:63,72 compute the same); properties in ErrorSignalShape, BackStep and WorkedSignals |
| Layers.WeightGradient | lib/neuralnetwork.rb:90-94 | `nextError * a.t` with `a = f(T[i])` and no rate (neuralnetwork.rb:73 uses it as is); properties in WeightGradientShape, UpdatedWeightsAt and FirstGradientUsesRawInput |
| Layers.ErrorSignalShape | lib/neuralnetwork.rb:81-93 | on a trace that fits the weights, each error signal has its layer's shape; the output error and every hidden error are well-defined `hadamard` calls that succeed with exactly the recursive error signal |
| Layers.WeightGradientShape | lib/neuralnetwork.rb:94 | `nextError * a.t` multiplies compatible shapes and has the shape of the weight matrix it updates |
| BiasedNetwork.InitialBiases | lib/neuralnetwork.rb:22-25 | a fresh network has one bias per layer, and bias k is a zero column of height layers[k] |
| BiasedNetwork.Activated | lib/neuralnetwork.rb:68-74 | layer 0's output is `f(input + B[0])` (line 68), and layer k's is f of its pre-activation (line 74); properties in ForwardShapes and WorkedForward |
| BiasedNetwork.WeightedInput | lib/neuralnetwork.rb:72 | the pre-activation `W[k-1] * out_(k-1) + B[k]`; properties in TraceAt and ForwardShapes |
| BiasedNetwork.Forward | lib/neuralnetwork.rb:65-77 | NotCoercible for a network without biases (`input + nil`), DimensionMismatch when the input and B[0] differ in shape, else the last layer's output `Activated(.., \|W\|)`; properties in TraceAt, ForwardShapes and ForwardPrimes |
| BiasedNetwork.TraceAfter | lib/neuralnetwork.rb:67-73 | `@weightedInputs` after `feedForward`: `[input]`, set at line 67 before anything can raise, if the pass raised, else the full trace; properties in ForwardPrimes and StepFails |
| BiasedNetwork.Trace | lib/neuralnetwork.rb:67-73 | after k weight layers, the trace holds k + 1 entries |
| BiasedNetwork.TraceAt | lib/neuralnetwork.rb:67-73 | trace entry 0 is the raw input, and entry m >= 1 is `W[m-1] * out_(m-1) + B[m]` |
| BiasedNetwork.OutputFitsTrace | lib/neuralnetwork.rb:72-76 | the returned output has the shape of the last trace entry, the one that `backPropogation` pops first |
| BiasedNetwork.ForwardShapes | lib/neuralnetwork.rb:65-77 | on a shaped network and a layers[0]-high input column, every `+` and `*` of the pass is shape-compatible, and output k and trace entry k are columns of height layers[k] |
| BiasedNetwork.ForwardPrimes | lib/neuralnetwork.rb:65-77 | a successful pass returns a column of height layers[-1] and leaves a trace of \|weights\| + 1 layer-shaped columns |
| BiasedNetwork.UpdatedWeights | lib/neuralnetwork.rb:94-96 | the update keeps the number of weight layers |
| BiasedNetwork.UpdatedBiases | lib/neuralnetwork.rb:87 | the update keeps the number of biases |
| BiasedNetwork.WeightPrefix | lib/neuralnetwork.rb:94-96 | the first n updated weight layers; properties in WeightPrefixAt |
| BiasedNetwork.BiasPrefix | lib/neuralnetwork.rb:87 | the first n updated bias columns; properties in BiasPrefixAt |
| BiasedNetwork.UpdatedWeightsAt | lib/neuralnetwork.rb:88-96 | every weight layer i becomes `W[i] - (error_(i+1) * f(T[i]).t) * lr`, with the gradient taken from the weights before the pass |
| BiasedNetwork.UpdatedBiasesAt | lib/neuralnetwork.rb:86-102 | every bias k, the input layer's included, becomes `B[k] - error_k * lr` |
| BiasedNetwork.BackPass | lib/neuralnetwork.rb:80-103 | `actual - expected` at line 81 raises DimensionMismatch before the pop, leaving the trace intact; the `hadamard` at line 81 raises it after the pop, leaving \|W\| entries; else every weight and bias is updated and the trace is empty; properties in BackPassShaped, UpdateShapes and PropagateBack |
| BiasedNetwork.BackStep | lib/neuralnetwork.rb:86-98 | one loop turn for layer i: the hidden-error `hadamard` succeeds with layer i's error signal, and the two subtractions give the updated W[i] and B[i+1] |
| BiasedNetwork.BackPassShaped | lib/neuralnetwork.rb:80-103 | on a shaped network and a primed trace, the pass succeeds exactly when actual, expected and the last trace entry share a shape, and it keeps every weight and bias in its shape |
| BiasedNetwork.UpdateShapes | lib/neuralnetwork.rb:87-96 | every subtraction of the pass is between equal shapes, so the updated network is still shaped |
| BiasedNetwork.FirstGradientUsesRawInput | lib/neuralnetwork.rb:67-102 | the layer-0 weight gradient is taken against f(input), and the input layer's error signal, which updates `@biases[0]`, is gated by f'(input): both use the raw input the trace recorded at line 67, not the biased `input + B[0]` that line 68 activated |
| BiasedNetwork.Step | lib/neuralnetwork.rb:55-60 | one example: the forward pass's exception, a DimensionMismatch or ZeroDivision from the loss, or the updated weights and biases, an empty trace and the loss appended; properties in StepSucceeds, StepFails, StepLosses and StepByPasses |
| BiasedNetwork.Epoch | lib/neuralnetwork.rb:50-63 | the examples in order from the given state, stopping at the first exception; properties in EpochSnoc, EpochHalts, FailureIsFinal, EpochLosses and EpochAverage |
| BiasedNetwork.StepSucceeds | lib/neuralnetwork.rb:54-60 | an example succeeds exactly when the forward output has the expected shape and at least one entry; it then records that output's loss, applies every update and empties the trace |
| BiasedNetwork.StepFails | lib/neuralnetwork.rb:55-57 | a failed example keeps the weights, biases and losses, keeps the trace that `feedForward` left, and records the first exception: the forward pass's own, then DimensionMismatch, then ZeroDivision |
| BiasedNetwork.StepLosses | lib/neuralnetwork.rb:56-59 | an example adds exactly one loss when it succeeds and none when it fails; every loss is >= 0 |
| BiasedNetwork.StepByPasses | lib/neuralnetwork.rb:54-58 | an example is `feedForward`, then `meanSquareError`, then `backPropogation` on the trace the forward pass left; the first call that raises ends the example, and the backward pass never fails after a successful loss |
| BiasedNetwork.EpochSnoc | lib/neuralnetwork.rb:54-61 | an epoch with no failure after n examples runs example n as one more step |
| BiasedNetwork.EpochHalts | lib/neuralnetwork.rb:54-57 | an epoch that has failed ignores the next example |
| BiasedNetwork.FailureIsFinal | lib/neuralnetwork.rb:54-57 | once an example has raised, no later example changes anything |
| BiasedNetwork.EpochLosses | lib/neuralnetwork.rb:50-63 | every recorded loss is >= 0, and an epoch without failure records one loss per example |
| BiasedNetwork.EpochAverage | lib/neuralnetwork.rb:50-63 | the returned average is the arithmetic mean of the losses (0 for no examples) and is never negative |
| BiasedNetwork.TrainOneExample | lib/neuralnetwork.rb:54-60 | training on one example is exactly one step |
| BiasedNetwork.WorkedForward | lib/neuralnetwork.rb:65-77 | layers [1, 1], weight 2, zero biases, identity activation, input 3: the output is 6 and the trace is [3, 6] |
| BiasedNetwork.WorkedSignals | lib/neuralnetwork.rb:81-94 | with derivative 1 and expected 5, the output error is 1, the input layer's error is 2, and the weight gradient is 3 |
| BiasedNetwork.WorkedBackward | lib/neuralnetwork.rb:86-102 | with learning rate 1, the weight becomes -1 and the biases become -2 and -1 |
| BiasedNetwork.WorkedWeights | lib/neuralnetwork.rb:94-96 | the weight of the worked example becomes 2 - 3 = -1 |
| BiasedNetwork.WorkedBiases | lib/neuralnetwork.rb:87-102 | the biases of the worked example become 0 - 2 and 0 - 1 |
| BiasedNetwork.WorkedTraining | lib/neuralnetwork.rb:50-63 | training the worked network on (3, 5) records the loss 1 and leaves the weight -1, the biases -2 and -1, and an empty trace |
| BiasedNetwork.PropagateBack | lib/neuralnetwork.rb:80-103 | the body of `backPropogation` returns and leaves exactly the outcome, weights, biases and trace of `BackPass`: DimensionMismatch with the trace intact, or with one entry popped, or every layer updated and the trace empty; the network stays shaped |
| BiasedNetwork.UpdateLayer | lib/neuralnetwork.rb:87-98 | one loop turn computes the updated W[i], the updated B[i+1] and layer i's error signal |
| BiasedNetwork.PropagateLayers | lib/neuralnetwork.rb:83-102 | the `until` loop with counters i and j = i + 1, followed by the final bias update, leaves exactly the updated weights and biases and an empty trace |
| BiasedNetwork.BuildLayers | lib/neuralnetwork.rb:21-37 | the `each_with_index` loop builds exactly the initial weights and the zero biases |
| BiasedNetwork.NeuralNetwork.constructor | lib/neuralnetwork.rb:13-38 | the new network is shaped, its learning rate is the one given or else 1, its weights and biases are the initial ones, and its trace is empty |
| BiasedNetwork.NeuralNetwork.FeedForward | lib/neuralnetwork.rb:65-77 | returns `Forward` and leaves the trace `TraceAfter`: NotCoercible for a network without biases, DimensionMismatch when the input does not match `@biases[0]`, and otherwise a layers[-1]-high output and a primed trace |
| BiasedNetwork.NeuralNetwork.Backpropagate | lib/neuralnetwork.rb:80-103 | the network's weights, biases and trace become those of `BackPass` on the old state, and the network stays shaped |
| BiasedNetwork.NeuralNetwork.Train | lib/neuralnetwork.rb:50-63 | the state afterwards is the state of `Epoch`, and the result is the running mean of the losses or the first exception raised |
| PlainNetwork.Activated | neuralnetwork.rb:51-56 | layer 0's output is `f(input)` (line 51) and layer k's is f of `W[k-1] * out_(k-1)` (line 56); properties in ForwardShapes and WorkedExample |
| PlainNetwork.WeightedInput | neuralnetwork.rb:54 | the pre-activation `W[k-1] * out_(k-1)`, with no bias; properties in TraceAt and ForwardShapes |
| PlainNetwork.Forward | neuralnetwork.rb:49-59 | DimensionMismatch when the first product `W[0] * f(input)` has mismatched shapes, else the last layer's output; without weights, `f(input)` whatever the input's shape; properties in TraceAt, ForwardShapes and ForwardPrimes |
| PlainNetwork.TraceAfter | neuralnetwork.rb:50-55 | `@weightedInputs` after `feedForward`: `[input]` if the pass raised, else the full trace; properties in ForwardPrimes and StepFails |
| PlainNetwork.Trace | neuralnetwork.rb:50-56 | after k weight layers, the trace holds k + 1 entries |
| PlainNetwork.TraceAt | neuralnetwork.rb:50-56 | trace entry 0 is the input, and entry m >= 1 is `W[m-1] * out_(m-1)`, with no bias |
| PlainNetwork.OutputFitsTrace | neuralnetwork.rb:54-58 | the returned output has the shape of the last trace entry |
| PlainNetwork.ForwardShapes | neuralnetwork.rb:49-59 | on a shaped network, every product of the pass is compatible, and output k and trace entry k have the input's column count and layer k's height |
| PlainNetwork.ForwardPrimes | neuralnetwork.rb:49-59 | a successful pass leaves a trace that fits the weights, and its output has height layers[-1] when the input has height layers[0] |
| PlainNetwork.UpdatedWeights | neuralnetwork.rb:73-75 | the update keeps the number of weight layers |
| PlainNetwork.UpdatedPrefix | neuralnetwork.rb:73-75 | the first n updated weight layers; properties in UpdatedPrefixAt |
| PlainNetwork.UpdatedWeightsAt | neuralnetwork.rb:67-75 | every weight layer i becomes `W[i] - error_(i+1) * f(T[i]).t`, with the gradient taken from the weights before the pass |
| PlainNetwork.BackPass | neuralnetwork.rb:62-80 | `actual - expected` at line 63 raises DimensionMismatch before the pop; the `hadamard` raises it after the pop; else every weight is updated and the trace is empty; properties in BackPassShaped, UpdateShapes and PropagateBack |
| PlainNetwork.UpdateIsUnitRate | neuralnetwork.rb:73 | this variant's update is the biased variant's weight update with a learning rate of 1 |
| PlainNetwork.BackStep | neuralnetwork.rb:66-78 | one loop turn for layer i: the hidden-error `hadamard` succeeds with layer i's error signal, and the subtraction gives the updated W[i] |
| PlainNetwork.UpdateShapes | neuralnetwork.rb:73-75 | each gradient has its weight matrix's shape, so the updated network is still shaped |
| PlainNetwork.BackPassShaped | neuralnetwork.rb:62-80 | on a primed trace, the pass succeeds exactly when actual, expected and the last trace entry share a shape, and it keeps every weight in its shape |
| PlainNetwork.Step | neuralnetwork.rb:39-44 | one example: the forward pass's exception, a DimensionMismatch or ZeroDivision from the loss, or the updated weights, an empty trace and the loss appended; properties in StepSucceeds, StepFails, StepLosses and StepByPasses |
| PlainNetwork.Epoch | neuralnetwork.rb:34-45 | the examples in order, stopping at the first exception; properties in EpochSnoc, EpochHalts, FailureIsFinal, EpochLosses and EpochAverage |
| PlainNetwork.StepSucceeds | neuralnetwork.rb:38-44 | an example succeeds exactly when the forward output has the expected shape and at least one entry; it then records the loss, applies every update and empties the trace |
| PlainNetwork.StepFails | neuralnetwork.rb:39-41 | a failed example keeps the weights and losses, keeps the trace that `feedForward` left, and records the first exception |
| PlainNetwork.StepLosses | neuralnetwork.rb:40-43 | an example adds exactly one loss when it succeeds and none when it fails; every loss is >= 0 |
| PlainNetwork.StepByPasses | neuralnetwork.rb:38-42 | an example is `feedForward`, `meanSquareError` and `backPropogation` in order; the first call that raises ends it, and the backward pass never fails after a successful loss |
| PlainNetwork.EpochSnoc | neuralnetwork.rb:38-44 | an epoch with no failure after n examples runs example n as one more step |
| PlainNetwork.EpochHalts | neuralnetwork.rb:38-41 | an epoch that has failed ignores the next example |
| PlainNetwork.FailureIsFinal | neuralnetwork.rb:38-41 | once an example has raised, no later example changes anything |
| PlainNetwork.EpochLosses | neuralnetwork.rb:38-45 | every recorded loss is >= 0, and an epoch without failure records one loss per example |
| PlainNetwork.EpochAverage | neuralnetwork.rb:34-46 | the reported average is the arithmetic mean of the losses (0 for no examples) and is never negative |
| PlainNetwork.WorkedExample | neuralnetwork.rb:49-75 | layers [1, 1], weight 2, input 3, expected 5: the output is 6, the trace is [3, 6], and the weight becomes -1 |
| PlainNetwork.PropagateBack | neuralnetwork.rb:62-80 | the body of `backPropogation` returns and leaves exactly the outcome, weights and trace of `BackPass`, and the network stays shaped |
| PlainNetwork.BuildWeights | neuralnetwork.rb:17-30 | the `each_with_index` loop builds exactly the initial weights |
| PlainNetwork.NeuralNetwork.constructor | neuralnetwork.rb:12-31 | the new network is shaped, its weights are the initial ones, and its trace is empty |
| PlainNetwork.NeuralNetwork.FeedForward | neuralnetwork.rb:49-59 | returns `Forward` and leaves the trace `TraceAfter`: DimensionMismatch when the input's height is not W[0]'s column count, and otherwise a primed trace and an output of the last entry's shape |
| PlainNetwork.NeuralNetwork.Backpropagate | neuralnetwork.rb:62-80 | the network's weights and trace become those of `BackPass` on the old state, and the network stays shaped |
| PlainNetwork.NeuralNetwork.Train | neuralnetwork.rb:34-47 | the state afterwards is the state of `Epoch`, and the result is the running mean that `train` prints, or the first exception raised |

## Left out

- Marshal serialisation (`loadFromString`, `saveToString`, `to_s`, `setWeightsFromMarshaledString`) is not modelled. It is a foreign binary encoding, and no round trip can be stated from the code.
- `SIGMOID`, `DERIVATIVE_SIGMOID` and `INVERSE_SQRT` are replaced by parameters.
  - They use `Math.exp`, `Math.sqrt` and `Random.rand`.
  - The starting weight is a deterministic function of the fan-in, so the constructor builds every entry of a matrix from the same value. The Ruby draws a fresh random number per entry.
- Floating-point rounding is not modelled: every number is a `real`.
  - Ruby Integer division in `sum / i` and in the running mean, which applies when the matrices hold Integers, is not modelled either.
- Ruby's `Matrix` library is not part of this model. Its `+`, `-`, `*`, `t`, `map` and `build` are the small total functions of `Matrices`.
  - Every call the engine makes is proved to be between compatible shapes. The only library raises in the model are the ones the engine can actually reach.
- The `apply_through_coercion` branch of `hadamard`, for an operand that is neither Numeric, Vector nor Matrix, is not modelled. Ruby's coercion protocol is not visible here.
  - The one coercion the engine can reach is `input + nil` in the biased `feedForward` of a network built from no layers. It is modelled as the error `NotCoercible` (a TypeError).
- The example inputs are matrices. A Ruby `Vector` passed to `feedForward` or `train` is not modelled, but the Vector operand of `hadamard` is.
- `puts` in the plain variant's `train` is console output. The model returns the value it prints. The Ruby method itself returns `nil`.
- `PlainNetwork.NeuralNetwork.Train` returns the printed average rather than `nil`, for the reason just given.
- `BiasedNetwork.NeuralNetwork.Backpropagate` requires a primed trace, the one a successful `feedForward` leaves.
  - Ruby lets a caller run `backPropogation` on an empty or stale trace. There `nil.map` raises NoMethodError, or shapes from an earlier input are used.
  - That protocol misuse is not modelled.
  - Shape errors of `actual` and `expected` against a primed trace are modelled.
- `PlainNetwork.NeuralNetwork.Backpropagate` requires a primed trace, for the same reason.
- `BiasedNetwork.NeuralNetwork.FeedForward` requires the weights and biases to keep the shapes the constructor gave them.
  - Weights reassigned through `attr_accessor :weights` or loaded by Marshal to other shapes are not modelled.
  - The same holds for `BiasedNetwork.NeuralNetwork.Train`, `PlainNetwork.NeuralNetwork.FeedForward` and `PlainNetwork.NeuralNetwork.Train`.
- Layer widths are natural numbers. A negative width, which makes `Matrix.build` raise, is not modelled.
- `initialize` of the biased variant takes its activation, derivative and starting-weight functions as parameters. Only the learning rate has a default (1), since the other defaults are the left-out procs above.
- No claim that training reduces the loss: that needs calculus on the activation function, which the model keeps abstract.
- The module-level methods `PropagateBack`, `PropagateLayers`, `UpdateLayer`, `BuildLayers` and `BuildWeights` work on `seq` values that the class methods then assign to the fields.
  - The Ruby arrays are overwritten in place, index by index.
  - The model does the same updates with `s[i := v]` on a sequence.
  - Aliasing of those arrays by outside code (through `attr_accessor`) is not modelled.
- The trace of a freshly built network is modelled as empty. Ruby's `initialize` never sets `@weightedInputs`, which stays `nil` until the first `feedForward`. Only a `backPropogation` before any `feedForward` could tell the two apart, and that call is the protocol misuse left out above.
- The default `layers = []` of the older variant's `initialize` is not a separate case: a caller passes the empty sequence, and `InitialWeights([])` gives no weights, as Ruby does.
