# A Dafny model of a small Java neural network

This project models the training core of a small feed-forward neural network written in
Java, and proves properties of the model. The Java code comes in two near-identical copies:
a primitive one on `double[]` and a packaged one, `Network/*.java`, on boxed `Double[]`.

The model covers:

- the layer (`Layer`): its flat weight storage and the two indexing schemes the source
  mixes, the forward pass with and without recording, the backpropagated node values,
  gradient accumulation, and the momentum / weight-decay update;
- the network (`Network`):
  - construction from a list of layer sizes;
  - forward propagation, loss, batch cost and classification;
  - `learn`, including the per-example scratch pool and the backward pass of
    `updateGradients`;
- the mean-squared-error cost and its derivative (`Functions/Cost.java`);
- training examples and their one-hot targets (`DataPoint`);
- the boxed copy's storage. Its arithmetic is the primitive one. Its arrays start out full of
  nulls.

Values are Dafny `real`s, so the model computes in exact arithmetic (see Left out). Every
Java exception the code can raise on these paths becomes an `Err(fault)` of the `Result`
type in `errors.dfy`:

- an index out of bounds;
- a negative array size;
- a null dereference;
- a division that yields an infinity or NaN.

One exception is not raised on the training path: the null cost function. Training uses
the intended mean-squared-error cost instead (see Left out and Findings).

The logistic activation and the random initial weights are parameters:

- `act: (seq<real>, int) -> real` reads a vector and an index, as the Java interface does.
  Its derivative is written `a * (1 - a)` in terms of the activated value, as in
  `Functions/Activation.java`. `Pointwise(act)` states the one property of the sigmoid the
  proofs use: the value at `i` depends only on entry `i`.
- `draw(i, j)` stands for the Xavier initializer's draw for connection `(i, j)`.

Modules:

- `Errors`: faults, `Option` and `Result`.
- `Sums`: the sum of a sequence and its lemmas.
- `Activations`: the activation derivative.
- `Costs`: the cost strategy.
- `DataPoints` and `BoxedDataPoints`: training examples.
- `Layers`: the layer.
- `Networks`: construction, forward pass, loss, cost and classification.
- `NetworkTraining`: `learn` and `updateGradients`.
- `BoxedLayers`: the boxed layer.

Weight addressing is a field of the layer. `Product` is what `getWeight`/`setWeight` do as
written: slot `input * output`. `Affine` is slot `output * inNodes + input`. That is the slot
`getIndex` uses for the gradients, and the scheme the rest of the code evidently assumes.
Every operation is defined for both. The findings below show what goes wrong under
`Product`.

## Model

| member | source | states |
|---|---|---|
| Layers.Zeros | Layer.java:18-27 | a fresh `double[n]`: length `n`, every entry 0 |
| Layers.GetIndex | Layer.java:161-163 | the gradient slot `output * inNodes + input` lies inside the `inNodes * outNodes` array for every connection |
| Layers.TimesIsProduct | Layer.java:161-163 | the repeated-addition product used for slots equals multiplication |
| Layers.GetIndexInjective | Layer.java:161-163 | distinct connections have distinct gradient slots |
| Layers.GetIndexOnto | Layer.java:161-163 | every slot of the flat array is the gradient slot of exactly the connection `(k % inNodes, k / inNodes)` |
| Layers.RowBefore | Layer.java:161-163 | a whole row of slots fits before the next row starts |
| Layers.ProductBelow | Layer.java:174-176 | the as-written slot `input * output` stays inside the weight array |
| Layers.ProductAtMost | Layer.java:174-176 | the as-written slot never exceeds `(inNodes - 1) * (outNodes - 1)` |
| Layers.MulMonotone | Layer.java:174-176 | multiplying by a fixed factor preserves order, the step that bounds the as-written slots |
| Layers.WeightSlot | Layer.java:174-176 | the slot `getWeight`/`setWeight` use, under either scheme, lies inside the weight array |
| Layers.SetWeight | Layer.java:214-216 | `setWeight` writes exactly the connection's slot and leaves every other slot and every other array unchanged |
| Layers.InitializeRow | Layer.java:65-71 | one input's row of draws: under the affine scheme each output's slot holds its draw and other inputs' slots are untouched |
| Layers.InitializeRows | Layer.java:65-71 | `initializeWeights`: under the affine scheme every connection's slot holds its own draw; only the weights change |
| Layers.InitializeRowProductFrame | Layer.java:65-71 | under the product scheme a row of draws never writes a slot above `(inNodes - 1) * (outNodes - 1)` |
| Layers.InitializeRowsProductFrame | Layer.java:65-71 | under the product scheme the whole initializer leaves the slots above `(inNodes - 1) * (outNodes - 1)` as allocated |
| Layers.NewLayer | Layer.java:15-41 | the constructor succeeds exactly on sizes it can allocate and initializer arguments the Xavier draw can read. A negative size gives `NegativeArraySize` and a short argument array gives `IndexOutOfBounds`. It returns well-sized arrays, zero gradients, velocities and biases, and each connection's draw in its own slot (affine scheme) |
| Layers.Blank | Layer.java:18-30 | the allocated layer: the requested shape with every array zero |
| Layers.PartialWeightedInputIsSum | Layer.java:77-85 | the accumulating loop over inputs computes the bias plus the sum of `x[in] * getWeight(in, out)` over the inputs read so far |
| Layers.WeightedTerms | Layer.java:80-82 | the terms of one weighted sum are `x[in] * getWeight(in, out)`, one per input |
| Layers.WeightedInputs | Layer.java:77-85 | the raw sums: one per output, each the bias plus the dot product of the input with the weights `getWeight` reads for that output |
| Layers.ActivateInPlace | Layer.java:88-90 | the activation loop writing back into its own array: it keeps the length, and entries already passed never change again |
| Layers.Activate | Layer.java:109-111 | the training overload's activation loop: entry `i` is the activation read at `i` of the untouched sums |
| Layers.Outputs | Layer.java:74-93 | `outputs(inputs)` returns one value per output node |
| Layers.OutputsTraining | Layer.java:95-114 | the recording overload stores the inputs, the raw sums and their activations. It keeps the node values and returns the recorded activations |
| Layers.ActivateInPlacePointwise | Layer.java:88-90 | with a pointwise activation the in-place loop yields the activation of the original sums |
| Layers.OutputsOverloadsAgree | Layer.java:74-114 | with a pointwise activation both overloads of `outputs` return the same vector |
| Layers.InPlaceActivationObservable | Layer.java:88-90 | for an activation that reads another entry, the in-place loop and the recording loop give different results |
| Layers.ProductSign | Layer.java:116-124 | a product with a positive factor has the sign of the other factor |
| Layers.OutputNodeValues | Layer.java:116-124 | each output node value is the cost derivative times the activation derivative. Inside the sigmoid's range it is positive exactly when the prediction is too high and zero exactly when it is exact. Only node values change |
| Layers.HiddenNodeValues | Layer.java:126-137 | each hidden node value is the sum over the next layer's nodes of `getWeight(i, j)` times that node's value, times the activation derivative at the raw sum. Only node values change and the shape is kept |
| Layers.BackSumIsTransposedProduct | Layer.java:126-137 | a hidden node collects the next layer's node values along the next layer's weights `getWeight(i, j)`, a bias-free transposed product |
| Layers.BackSumReadsOnlyWeights | Layer.java:126-137 | the backward sum depends on the next layer's weights and nothing else of it |
| Layers.HiddenNodeValuesReadOnlyWeights | Layer.java:126-137 | hidden node values are unaffected by the next layer's gradients and velocities |
| Layers.AccumulateRow | Layer.java:142-150 | one output's inner loop keeps the gradient array's length |
| Layers.AccumulateRowAt | Layer.java:142-150 | after one output's inner loop, a connection's gradient slot grew by `inputs[in] * nodeValues[out]` exactly when it belongs to that output and an input already visited; other slots are unchanged |
| Layers.AccumulateRows | Layer.java:140-151 | the outer loop keeps the gradient array's length |
| Layers.AccumulateRowsAt | Layer.java:140-151 | after the loops over outputs `0 .. m-1`, a connection's gradient slot grew by `inputs[in] * nodeValues[out]` exactly when its output was visited |
| Layers.UpdateGradients | Layer.java:139-159 | `updateGradients` adds `inputs[in] * nodeValues[out]` at every connection's gradient slot and each node value to its bias gradient. Weights, biases, velocities and shape are untouched |
| Layers.UpdateGradientsAt | Layer.java:139-151 | one connection's gradient after one accumulation |
| Layers.UpdateGradientsTwiceAt | Layer.java:139-151 | after two accumulations one connection's gradient holds both contributions |
| Layers.UpdateGradientsAccumulates | Layer.java:139-159 | after two examples every weight and bias gradient holds the sum of both contributions and no parameter moved |
| Layers.UpdateGradientsCommuteAt | Layer.java:139-151 | one gradient slot does not depend on the order of two accumulations |
| Layers.UpdateGradientsCommute | Layer.java:139-159 | accumulating two examples in either order yields the same layer |
| Layers.Gradient | Layer.java:44-61 | `gradient`: each new velocity is the old velocity times the momentum minus the gradient times the learning rate. Each weight becomes the old weight decayed by `1 - regularization * learnRate` plus its new velocity, and each bias the old bias plus its new velocity, with no decay. Every gradient is reset to zero and the shape is kept |
| Layers.PlainGradientStep | Layer.java:44-61 | without momentum and regularization every weight and bias moves by exactly `-learnRate` times its gradient |
| Layers.PlainGradientStepAt | Layer.java:47-53 | one slot of the plain step |
| Layers.BiasesIgnoreRegularization | Layer.java:44-61 | regularization affects only the weights: biases and all velocities come out the same for any regularization |
| Layers.MomentumCarriesOver | Layer.java:44-61 | velocities persist: a second step with cleared gradients scales each weight velocity by the momentum |
| Layers.ProductSharesSlotZero | Layer.java:174-176 | as written, every connection touching input 0 or output 0 reads slot 0 |
| Layers.ProductLeavesDeadSlot | Layer.java:65-71 | as written, the last weight slot is never read by any connection and stays zero, yet `getIndex` accumulates the gradient of the last connection into it |
| Layers.ProductStepMissesConnection | Layer.java:44-61 | as written, a descent step can leave the weight a connection reads unchanged although that connection has a nonzero gradient |
| Layers.AffineStepDescends | Layer.java:139-176 | with matching addressing, a plain step moves each connection's weight by `-learnRate` times the gradient accumulated for that connection |
| Layers.AffineStepAt | Layer.java:44-61 | under the affine scheme a plain step moves the weight a connection reads by `-learnRate` times the gradient at that connection's slot |
| Activations.Derivative | Functions/Activation.java:23-26 | the derivative `a * (1 - a)` never exceeds 1/4 and is positive when the activation lies strictly between 0 and 1 |
| Sums.SumNonNegative | Functions/Cost.java:17-25 | a sum of non-negative terms is non-negative |
| Sums.SumZeroIff | Functions/Cost.java:17-25 | a sum of non-negative terms is zero exactly when every term is |
| Sums.SumUpdate | Functions/Cost.java:17-25 | replacing one term changes the total by the difference of the terms |
| Costs.GetCostFunctionAsWritten | Functions/Cost.java:6-13 | every branch of the factory returns null |
| Costs.SquaredErrors | Functions/Cost.java:20-23 | one squared error `(p[i] - e[i])^2` per prediction, each non-negative |
| Costs.Cost | Functions/Cost.java:17-25 | half the total squared error. It throws `IndexOutOfBounds` exactly when the expected vector is shorter than the predictions. The cost is non-negative and zero exactly when the predictions equal the leading expected values |
| Costs.SquareSign | Functions/Cost.java:21-22 | a square is non-negative and zero exactly at zero |
| Costs.CostDerivative | Functions/Cost.java:27-29 | the derivative is zero exactly at the expected value and positive exactly when the prediction is too high |
| Costs.CallCostDerivative | Layer.java:120 | calling `costDerivative` through the layer's cost reference throws `NullPointer` exactly when the reference is null |
| Costs.AsWrittenCostCallFails | Functions/Cost.java:6-13 | as written, every derivative call made through the factory's result throws `NullPointer` |
| Costs.CostDerivativeIsPartial | Functions/Cost.java:17-29 | moving prediction `i` by `h` changes the cost by exactly `h * costDerivative + h^2/2`: the derivative is the exact partial derivative of the cost |
| Costs.SquareShift | Functions/Cost.java:21-22 | `(d + h)^2 = d^2 + 2hd + h^2` for the squared error |
| Costs.ScaleEqual | Functions/Cost.java:27-29 | equal factors give equal products |
| Costs.HalfShift | Functions/Cost.java:24 | the halving step of the partial-derivative identity |
| Costs.BoundCostIsConsistent | Functions/Cost.java:6-29 | with the factory fixed, the derivative call succeeds and is the exact partial derivative of the cost |
| DataPoints.CreateOneHot | DataPoint.java:12-16 | a negative size throws `NegativeArraySize` and an index outside the array throws `IndexOutOfBounds`. Otherwise the vector has `num` entries, 1 exactly at `index` and 0 exactly elsewhere |
| DataPoints.NewDataPoint | DataPoint.java:6-10 | the example keeps its inputs and label, and its expected outputs are the label's one-hot vector; it fails exactly as `CreateOneHot` does |
| BoxedDataPoints.Unbox | Network/DataPoint.java:4-5 | reading a boxed value throws `NullPointer` exactly on null |
| BoxedDataPoints.CreateOneHot | Network/DataPoint.java:14-18 | the boxed one-hot fails as the primitive one does. It holds 1.0 at the label and null everywhere else |
| BoxedDataPoints.BoxedOneHotHasNull | Network/DataPoint.java:14-18 | with two or more labels some entry of the boxed one-hot is null and unboxing it throws |
| BoxedDataPoints.CreateOneHotFilled | Network/DataPoint.java:14-18 | the corrected boxed one-hot unboxes, entry by entry, to the primitive one-hot |
| BoxedDataPoints.NewBoxedDataPoint | Network/DataPoint.java:8-12 | the boxed example keeps its inputs and label and takes the boxed one-hot as its expected outputs |
| Networks.BuildLayers | Network.java:15-21 | the constructor's loop succeeds exactly when every layer is buildable. Otherwise it fails with the fault of the first layer that is not. Each layer has its row's sizes and the chosen addressing |
| Networks.NewNetwork | Network.java:6-24 | an empty size list throws `NegativeArraySize`. Otherwise the network is built exactly when every layer is, and it is then chained: each layer has as many inputs as the previous one has outputs. No scratch pool exists yet |
| Networks.InitializeWeightsTable | Network/Layer.java:350-360 | row `i` of the helper's table is `[sizes[i], sizes[i + 1]]`; an empty size list throws `NegativeArraySize` |
| Networks.TableBuildsNetwork | Network/Layer.java:350-360 | with the helper's table and non-negative sizes the constructor always succeeds |
| Networks.Forward | Network.java:112-117 | `forwardPropogation` fails only with `IndexOutOfBounds` and returns as many values as the last layer has outputs |
| Networks.ForwardFailsOnlyAtInput | Network.java:112-117 | in a chained network the forward pass succeeds exactly when the input is long enough for the first layer |
| Networks.OutCost | Network.java:120-123 | the squared error of one output is non-negative and zero exactly when actual equals expected |
| Networks.SquaredError | Network.java:104-106 | the summed squared error is non-negative and zero exactly when the outputs equal the leading expected values |
| Networks.SquaredErrorIsTwiceCost | Network.java:100-109 | the network's loss is twice the value of the cost strategy, which halves the sum |
| Networks.Loss | Network.java:100-109 | `loss` succeeds exactly when the forward pass does and the expected vector covers the outputs. Its value is the sum of squared errors of the outputs, which is twice the mean-squared-error cost of `Functions/Cost.java`. It is non-negative and zero exactly when the output equals the leading expected values |
| Networks.Losses | Network.java:92-94 | the loop over examples succeeds exactly when every loss does, and collects each example's loss in order |
| Networks.Cost | Network.java:89-97 | `cost` is the mean loss: the sum of every example's loss divided by the number of examples. An empty batch yields no number. The cost is non-negative and zero exactly when every example's loss is zero |
| Networks.MeanSign | Network.java:96 | a mean of a non-negative total is non-negative and zero exactly when the total is |
| Networks.FirstMaxUnique | Network.java:133-141 | the first position of a maximum is unique |
| Networks.ArrayMax | Network.java:133-141 | `arrayMax` returns the first position of a maximum; an empty array yields 0 |
| Networks.Classify | Network.java:126-130 | `classify` fails exactly when the forward pass does and returns the outputs with the first position of their maximum |
| Networks.OneHotArgMaxIsLabel | Network.java:126-141 | classifying an example's own one-hot vector recovers its label |
| NetworkTraining.FreshLayerData | LayerData.java:7-11 | a fresh scratch record fits its layer and holds zeros |
| NetworkTraining.FreshNetworkData | Network.java:143-152 | `new NetworkData(layers)`: one fresh record per layer, each fitting its layer |
| NetworkTraining.PreparePool | Network.java:38-43 | `learn` reuses a pool of the batch's size and otherwise replaces it with fresh records, one per example; every record fits the layers |
| NetworkTraining.ForwardScratch | Network.java:61-65 | the recording forward pass fails exactly when the plain one does. Each record fits its layer, the first holds the input, each holds the previous record's activations, and the last's activations are the output |
| NetworkTraining.ForwardScratchRecords | Network.java:61-65 | each record holds the raw sums and activations of its own inputs, and its node values are left as they were |
| NetworkTraining.ForwardOkDependsOnLength | Network.java:61-65 | whether the forward pass gets through depends only on the input's length |
| NetworkTraining.ForwardScratchAgrees | Network.java:61-65 | with a pointwise activation the recording forward pass returns what `forwardPropogation` returns |
| NetworkTraining.SameButKeepsShape | Network.java:52-54 | a stack that differs only in gradients stays well formed, and the scratch pool still fits it |
| NetworkTraining.SameButCompose | Network.java:45-49 | gradient-only changes compose across examples |
| NetworkTraining.SameButShapedData | Network.java:45-49 | whether a record fits a stack does not depend on its gradients |
| NetworkTraining.HiddenBackward | Network.java:77-84 | the hidden loop gives each record from `k-1` down the node values computed from the record above through the weights of the layer above. It changes nothing else in any record and leaves records from `k` up alone |
| NetworkTraining.Backprop | Network.java:67-84 | the backward half computes the output layer's node values from the expected outputs and each hidden layer's from the one above. Every layer's gradients accumulate from its own record, and records change only in their node values |
| NetworkTraining.TrainExample | Network.java:57-86 | `updateGradients` for one example fails, with `IndexOutOfBounds`, exactly when the network is empty, the input is too short for the first layer, or the expected vector is shorter than the output layer. On success it changes the layers only in their gradients. This uses the corrected cost binding: as written, every example that reaches an output layer with at least one node and a non-empty expected vector throws `NullPointer` at Layer.java:120 (see Left out) |
| NetworkTraining.TrainExampleRecords | Network.java:61-65 | after one example the records form the forward pass's chain, starting from the example's input, and each record holds the raw sums and activations of its own inputs |
| NetworkTraining.TrainExampleNodeValues | Network.java:67-84 | after one example the output record's node values come from the expected outputs and each hidden record's from the record above. Each layer's gradients hold its own record's contribution |
| NetworkTraining.GetWeightIgnoresGradients | Layer.java:174-176 | `getWeight` reads the same weight on two layers that differ only in gradients and velocities |
| NetworkTraining.WeightedTermsIgnoreGradients | Layer.java:80-82 | the products `input * getWeight(in, out)` of one output are the same on two such layers |
| NetworkTraining.WeightedInputsIgnoreGradients | Layer.java:77-85 | the raw sums of a layer read its weights and biases, never its gradients |
| NetworkTraining.ForwardScratchIgnoresGradients | Network.java:61-65 | the recording forward pass succeeds on the same inputs and writes the same records and output on two stacks that differ only in gradients |
| NetworkTraining.NodeValuesIgnoreGradients | Layer.java:116-137 | output node values, and hidden node values computed through the layer above, are the same on layers that differ only in gradients |
| NetworkTraining.BackwardAgree | Network.java:77-84 | two runs of the hidden loop from layer `k` over stacks that differ only in gradients leave equal records from any layer `i` up |
| NetworkTraining.HiddenBackwardIgnoresGradients | Network.java:77-84 | the hidden loop writes the same records on two stacks that differ only in gradients |
| NetworkTraining.BackwardIgnoresGradients | Network.java:67-84 | the output layer's node values followed by the hidden loop give the same records on both such stacks |
| NetworkTraining.BackpropIgnoresGradients | Network.java:67-84 | backpropagation leaves the same records on both such stacks, and a record the forward pass fed on one is fed on the other |
| NetworkTraining.TrainExampleIgnoresGradients | Network.java:57-86 | whether `updateGradients` for one example throws, and the record it leaves, are the same on two stacks that differ only in gradients |
| NetworkTraining.ExampleRecord | Network.java:57-86 | the record an example leaves running alone on a stack fits that stack |
| NetworkTraining.ExampleRecordContents | Network.java:57-86 | the record an example that gets through leaves holds its own forward pass from its input (inputs, raw sums, activations) and the node values backpropagation computes from its expected outputs and the layers above |
| NetworkTraining.ExampleRecords | Network.java:45-49 | one record per example of the batch, each the one that example leaves running alone from its own pool record |
| NetworkTraining.RunBatch | Network.java:45-49 | running the examples of the batch changes the layers only in their gradients and keeps one fitting record per example. Its records are stated by `RunBatchRecords`, its gradients by `RunBatchAccumulatesAt` |
| NetworkTraining.BatchRun | Network.java:38-49 | the batch phase of `learn` on the prepared pool changes only gradients and leaves a pool of the batch's size. Its records are stated by `BatchRunRecords` |
| NetworkTraining.BatchRunRecords | Network.java:38-49 | after the batch phase of `learn`, scratch record `k` holds what example `k` leaves running alone on the network's layers from its record of the prepared pool |
| NetworkTraining.TrainsOnSameBut | Network.java:61-73 | whether an example gets through depends only on the layer sizes, which the examples before it do not change |
| NetworkTraining.BatchStep | Network.java:45-49 | one thread of `learn`: `updateGradients` (Network.java:57-86) for one example on scratch record `k`, against the layers the earlier examples left. The layers change only in their gradients and the pool keeps its size and fit. `BatchStepSkips` states that an example that throws leaves the state as it was, and `BatchStepTrains` and `BatchStepRecord` state the rest |
| NetworkTraining.BatchStepSkips | Network.java:45-49 | an example that throws leaves the layers and every record as they were |
| NetworkTraining.BatchStepTrains | Network.java:45-49 | an example that gets through keeps the earlier examples' records and leaves in its own a record each layer accepts, and each layer becomes `updateGradients` of what the earlier examples left, applied to that record. What the record holds is stated by `BatchStepRecord` |
| NetworkTraining.WeightContribution | Layer.java:141-148 | an example's `derivativeCostWrtWeight` for a connection is the record's input times the example's bias contribution `nodeValue`, and it is zero when the example throws |
| NetworkTraining.BiasContribution | Layer.java:153-157 | an example's `derivativeCostWrtBias` is non-zero only when the example got through and the record has that node value |
| NetworkTraining.TrainedWeightAt | Layer.java:139-151 | a layer taken through `updateGradients` with an example's record gains that example's contribution `inputs[input] * nodeValues[output]` at the connection's gradient |
| NetworkTraining.TrainedBiasAt | Layer.java:153-158 | a layer taken through `updateGradients` gains the record's node value at the bias gradient |
| NetworkTraining.BatchStepWeightAt | Layer.java:139-151 | one example adds exactly its contribution to a weight gradient, zero when it threw, and rewrites none of the earlier examples' records |
| NetworkTraining.BatchStepBiasAt | Layer.java:153-158 | one example adds exactly its node value to a bias gradient, zero when it threw, and rewrites none of the earlier examples' records |
| NetworkTraining.WeightChain | Network.java:45-49 | along any run of states in which each example adds its contribution, a weight gradient ends as its start value plus the sum of the contributions |
| NetworkTraining.BiasChain | Network.java:45-49 | the same for a bias gradient |
| NetworkTraining.RunBatchWeightGrows | Network.java:45-49 | example `m` of the batch adds its contribution to the weight gradient the examples before it left |
| NetworkTraining.RunBatchBiasGrows | Network.java:45-49 | example `m` of the batch adds its node value to the bias gradient the examples before it left |
| NetworkTraining.RunBatchWeightGrowsAll | Network.java:45-49 | every example of the first `n` adds its contribution to a weight gradient |
| NetworkTraining.RunBatchBiasGrowsAll | Network.java:45-49 | every example of the first `n` adds its node value to a bias gradient |
| NetworkTraining.RunBatchAccumulatesAt | Network.java:45-49 | after the first `n` examples, each weight gradient is its value before the batch plus the sum, over the examples that got through, of `inputs[input] * nodeValues[output]` read from their records (`RunBatchRecords` says what they hold) |
| NetworkTraining.RunBatchAccumulatesBiasAt | Network.java:45-49 | after the first `n` examples, each bias gradient is its value before the batch plus the sum of the node values of the examples that got through, read from their records (`RunBatchRecords` says what they hold) |
| NetworkTraining.BatchStepRecord | Network.java:45-49 | one example rewrites its own scratch record and no other, with the record it leaves running alone on the layers the batch started from, whether it gets through or throws |
| NetworkTraining.RecordChain | Network.java:45-49 | along any run of states in which each example rewrites only its own record that way, the first `n` records end as each example's own record and the rest are untouched |
| NetworkTraining.RunBatchRecordStep | Network.java:45-49 | example `m` of the batch takes the state the earlier examples left by rewriting only record `m`, with its own record |
| NetworkTraining.RunBatchRecordStepAll | Network.java:45-49 | every one of the first `n` examples does so |
| NetworkTraining.RunBatchRecords | Network.java:45-49 | after the first `n` examples, record `k < n` holds what example `k` leaves running alone on the starting layers from its pool record, so no other example's gradients or records reach it; records from `n` on are untouched |
| NetworkTraining.BatchRunAccumulatesAt | Network.java:38-49 | after the batch phase of `learn`, each weight gradient is its value before plus the contributions `inputs[input] * nodeValues[output]` of every example of the batch that got through, read from the record that example leaves running alone on the network's layers |
| NetworkTraining.BatchRunAccumulatesBiasAt | Network.java:38-49 | after the batch phase of `learn`, each bias gradient is its value before plus the node values of every example of the batch that got through, read from the record that example leaves running alone on the network's layers |
| NetworkTraining.StepAll | Network.java:52-54 | the update loop steps every layer with the same learning rate, regularization and momentum |
| NetworkTraining.StepAllKeepsShape | Network.java:52-54 | the update keeps the stack well formed and the pool fitting it |
| NetworkTraining.Learn | Network.java:37-55 | `learn` yields no number on an empty batch when the network has at least one layer, because only the loop over layers divides by the batch size; a network with no layers returns with an empty pool. Otherwise it keeps every layer's shape and keeps a pool of the batch's size. Its layers are the batch's accumulated layers stepped with the learning rate divided by the batch size, and every gradient is zero afterwards |
| NetworkTraining.LearnIsBatchDescent | Network.java:52-54 | without momentum and regularization the update is batch gradient descent: each weight moves against the batch's accumulated gradient by the learning rate over the batch size |
| NetworkTraining.LearnWeightAt | Network.java:37-54 | `learn` without momentum and regularization succeeds on a non-empty batch and moves each weight by minus the learning rate over the batch size times the gradient the batch left, which `BatchRunAccumulatesAt` gives |
| BoxedLayers.BoxAll | Network/Layer.java:6-7 | boxing an array keeps its length and values and leaves no null |
| BoxedLayers.OrZeros | Network/Layer.java:6-7 | the numbers of a boxed array, entry by entry |
| BoxedLayers.UnboxAll | Network/Layer.java:61-78 | unboxing a whole array throws `NullPointer` exactly when some entry is null, and otherwise returns its values |
| BoxedLayers.UnboxAllBoxAll | Network/Layer.java:6-7 | unboxing a boxed array gives back the array |
| BoxedLayers.OrZerosBoxAll | Network/Layer.java:6-7 | the numbers of a boxed array are the array |
| BoxedLayers.Box | Network/Layer.java:6-7 | the boxed copy of a well-sized layer is well sized and has no null |
| BoxedLayers.Primitive | Network/Layer.java:6-7 | the numbers of a boxed layer form a well-sized primitive layer of the same shape |
| BoxedLayers.BoxPrimitiveRoundTrip | Network/Layer.java:6-7 | boxing and reading back are inverse on layers without nulls |
| BoxedLayers.Slot | Network/Layer.java:191-193 | the boxed layer addresses weights exactly as the primitive layer does |
| BoxedLayers.Nulls | Network/Layer.java:28-37 | a fresh `Double[n]` holds `n` nulls |
| BoxedLayers.NewBoxedLayer | Network/Layer.java:26-52 | the constructor as written fails exactly as the primitive one does. On success the biases, gradients and velocities are all null, and each connection's slot holds the primitive constructor's weight |
| BoxedLayers.NewBoxedLayerFilled | Network/Layer.java:26-52 | the corrected constructor fails exactly as the primitive one does and otherwise returns a null-free layer whose numbers are the primitive constructor's layer |
| BoxedLayers.BoxedPartial | Network/Layer.java:94-102 | one output's loop throws exactly when the bias, an input or a weight it reads is null, or the input is too short. With a long enough input the fault is `NullPointer`. A null bias throws at once. On success it equals the primitive partial sum |
| BoxedLayers.BoxedSums | Network/Layer.java:94-105 | the loop over outputs succeeds exactly when every output reads cleanly, and then computes the primitive weighted sums |
| BoxedLayers.BoxedOutputs | Network/Layer.java:91-110 | boxed `outputs` succeeds exactly when every bias, input and weight it reads is present. A null first bias throws `NullPointer`. On success the result is the boxed primitive output of the layer's numbers |
| BoxedLayers.FreshBoxedLayerThrows | Network/Layer.java:26-110 | a layer fresh from the constructor as written, with at least one output, throws `NullPointer` in `outputs` for every input and in `gradient` |
| BoxedLayers.FilledBoxedLayerComputes | Network/Layer.java:26-110 | a layer from the corrected constructor computes, on any boxed input the primitive layer accepts, the primitive layer's output |
| BoxedLayers.BoxedOutputsOfBoxed | Network/Layer.java:91-110 | on a boxed copy of a layer and a boxed input, boxed `outputs` is the boxed primitive output |
| BoxedLayers.BoxedGradient | Network/Layer.java:61-78 | boxed `gradient` throws `NullPointer` exactly when some array holds a null. Otherwise it returns a null-free layer whose numbers are the primitive update of the old numbers |
| BoxedLayers.BoxedForward | Network/Network.java:135-140 | the boxed forward pass fails only with `NullPointer` or `IndexOutOfBounds`, and a null first bias in the first layer throws `NullPointer` |
| BoxedLayers.BoxLayers | Network/Network.java:135-140 | boxed copies of a stack, one per layer, each well sized |
| BoxedLayers.BoxedForwardOfBoxed | Network/Network.java:135-140 | on boxed copies of layers and a boxed input, the boxed forward pass fails exactly when the primitive one does and otherwise returns the boxed primitive output |

## Left out

- Concurrency. `learn` starts one thread per example and does not wait for them before
  updating. The model runs the examples one after the other, in batch order, before the
  update. An example that throws ends only its own thread, so the model leaves the layers
  as they were before that example.
- Exact failure state. When an example throws, the source has already partly overwritten
  that example's scratch record. The model keeps the record as it was. Gradients are never
  touched before any of these faults.
- Operation order in `updateGradients`. The source accumulates each layer's gradients
  before the layer below reads its weights. The model computes all node values first and
  accumulates afterwards. This gives the same result, because node values read only
  weights (`Layers.HiddenNodeValuesReadOnlyWeights`).
- Floating point. The model computes in exact real arithmetic: no rounding, overflow,
  infinities or NaN. Among the modelled operations, a division by an empty batch's size
  (`cost`, and `learn` on a network with at least one layer) is the one place the source produces a non-number, and the model
  returns `Err(NotFinite)` there. The Xavier bound `sqrt(6) / sqrt(values[0] + values[1])`
  (Functions/InitialWeights.java:30) is infinite when `initVals[0] + initVals[1]` is 0 and
  NaN when it is negative. That draw is the real-valued parameter `draw`, so such weights
  are not modelled.
- Generic boxed inputs. The boxed `outputs` (Network/Layer.java:91) accepts any `T[]` with
  `T extends Number` and casts each input with `(Double)` (Network/Layer.java:98). That
  throws `ClassCastException` for an `Integer` or other non-`Double` element. The boxed
  model takes `seq<Option<real>>`, that is `Double[]` only, so that fault is not modelled.
- 32-bit integers. `inputNodes * outputNodes` can overflow `int` in the source. The model's
  sizes are unbounded.
- The sigmoid and `Math.exp`. The activation is a parameter `act`; only its
  pointwise-ness and the `a * (1 - a)` derivative are used.
- Random initial weights. The Xavier initializer (`Functions/InitialWeights.java`) is the
  parameter `draw`. Its one modelled effect is reading `initVals[0]` and `initVals[1]`:
  fewer than two values throw as soon as there is a connection to draw for.
- `HyperParameter` is flattened into the constructor's arguments. `learnRateDecay` and
  `initialLearningRate` are never read by the modelled code.
- Unused accessors: `getWeightGradient`, `getWeightVelocity`, `setWeightGradient`,
  `setWeightVelocity`, `addWeight*` and `multiplyWeight*`. No modelled operation calls
  them. They all use the product slot `input * output`, as `getWeight` does.
- Layers.NewLayer: a negative input count with zero outputs allocates empty arrays in the
  source and keeps the negative count. The model stores 0 instead, because every loop over
  inputs is then empty and no operation can tell the two apart.
- Null arguments. A null array passed in from outside (inputs, expected outputs, a batch)
  is not modelled; sequences always exist.
- The boxed network's `cost`, `loss`, `classify`, `learn` and `updateGradients`
  (Network/Network.java). They are the primitive operations over boxed values. Their outcome
  is settled by the boxed layer: each calls boxed `outputs` or `gradient`, which throw on a
  freshly built layer (`BoxedLayers.FreshBoxedLayerThrows`). Only the forward pass is
  modelled at network level (`BoxedLayers.BoxedForward`).
- The boxed layer's recording `outputs`, node-value and `updateGradients` overloads. They
  read the scratch record's `Double[]` arrays, which `Network/LayerData.java` also
  allocates full of nulls. They are left out for the same reason as the boxed network
  operations.
- `MNISTExample.java` and file input: not part of this model.
- Layers.OutputNodeValues / NetworkTraining.TrainExample: training uses the derivative of
  the mean-squared-error cost, the cost `getCostFunction` evidently means to return (see
  Findings). As written it returns null, so every example that reaches an output layer
  with at least one node and a non-empty expected vector throws `NullPointer` at
  Layer.java:120. An empty network or a short input (Network.java:63-69) throws
  `IndexOutOfBounds` before that, and so does an empty expected vector, because the
  argument `expectedOutputs[i]` is evaluated before the null receiver is dereferenced. The
  training model does not raise the `NullPointer` fault. `Costs.AsWrittenCostCallFails`
  models it separately.
- BoxedLayers.BoxedGradient: the source fails at the first null in loop order, after
  updating the entries before it. The model reads every array first. The fault is
  `NullPointer` either way, but the partly updated state is not modelled.

## Findings

| source | as written | input that shows it | evidently intended | confidence | as-written member | corrected member |
|---|---|---|---|---|---|---|
| Layer.java:174-176 | `getWeight`/`setWeight` address slot `input * output`, while `getIndex` accumulates gradients at `output * inNodes + input`. All connections touching input 0 or output 0 share slot 0, and the descent step moves a slot other than the one the connection reads | a 2x2 layer with clear gradients, input `[1, 0]`, node values `[0, 1]`: connection (0, 1) gets gradient 1, yet `getWeight(0, 1)` does not move | one slot per connection, the same one `getIndex` uses | high; not executed | Layers.ProductStepMissesConnection | Layers.AffineStepDescends |
| Functions/Cost.java:6-13 | `getCostFunction` returns null on every branch, so every layer's `cost` is null and `calculateOutputLayerNodeValues` dereferences it | a network whose output layer has at least one node, trained on an example whose input fits the first layer and whose expected vector is non-empty | return the `MeanSquaredError` implementation | high; not executed | Costs.AsWrittenCostCallFails | Costs.BoundCostIsConsistent |
| Network/Layer.java:26-52 | the boxed arrays are allocated as `new Double[n]` (all null) and only the weights are ever written, so the first `outputs` or `gradient` call unboxes a null bias or velocity | a boxed layer with one input and one output, any input | arrays filled with 0.0 as the primitive copy has them | high; not executed | BoxedLayers.FreshBoxedLayerThrows | BoxedLayers.FilledBoxedLayerComputes |
| Network/DataPoint.java:14-18 | the boxed one-hot is `new Double[num]` with only the label's entry written; every other entry stays null | label 0 of 2: entry 1 is null | every other entry 0.0 | high; not executed | BoxedDataPoints.BoxedOneHotHasNull | BoxedDataPoints.CreateOneHotFilled |
