# DNN-demo layers and networks in Dafny

This project models the core of DNN-demo, a small C++ library of
feed-forward neural networks built on a dense-matrix library. It covers
the `Layer` class (include/Layer.hpp and src/Layer.cc) and the `Network`
class (include/Network.hpp and src/Network.cc).

- **Layer.** A layer appends a column of ones to its input, so the last
  row of its `(input columns + 1) x output size` weights is the bias. It
  multiplies the augmented input by the weights and applies an activation
  entrywise. The backward pass turns an error signal into a local error
  and a weight gradient. The update is gradient descent with momentum.
  Every intermediate matrix is cached in a field.
- **Network.** A network holds an ordered list of layers. `predict`
  threads each layer's output into the next and records the residual, the
  L2 loss and its derivative. `backwardPass` walks the layers last to
  first. `train` runs one unconditional round, then further rounds while
  the iteration limit and the gradient norm allow, and appends one loss
  per round to the loss history.

Files:

- `matrices.dfy`: matrices over `real` with explicit dimensions. It has the
  product, transpose, Hadamard product, sums, scaling, entrywise maps,
  dropping the last column, and the squared Frobenius norm.
- `outcomes.dfy`: the errors the library throws, and the `Outcome`,
  `Result` and `Option` wrappers. A thrown error is a `Fail` outcome.
- `activations.dfy`: the five activations and their derivative table.
- `losses.dfy`: the L2 loss and its derivative.
- `layers.dfy`: `LayerState`, the pure functions that specify each layer
  operation, and the `Layer` class.
- `networks.dfy`: `NetState`, the functions that specify each network
  operation, the properties of prediction, backward pass and training, and
  the `Network` class.

How the model is built:

- Each method of the two classes changes its fields in place. Its
  postcondition equates the new state with a pure function of the old
  state, and the properties are proved about those functions.
- The network's layer loops are `for` loops whose invariants tie the
  layers processed so far to a recursive sweep function.
- `train` is a `while` loop proved against the recursive function
  `TrainFrom`.

The two revisions of the layer are kept apart:

- The header's `forwardPass` works on the cached augmented input and
  ignores its argument. It is modelled as `ForwardCached` and
  `ForwardCachedPass`.
- The header's `backwardPass(next)` keeps the bias column. It is modelled
  as `ProjectedKeepingBias` and `BackwardKeepingBias`.
- The out-of-line revision adopts its argument in `forwardPass` and drops
  the bias column in `backwardPass(next)`. The network uses this revision.

Quirks of the code are kept as written:

- The relu and softplus derivatives are evaluated on the bias-augmented
  input, not on the pre-activations, so they have its shape.
- `setTarget` with override takes the output count from the column count
  of the stored target vector, which is always 1.

The default of `setInputShape`'s `reinitWeights` argument is declared in a
layer header that is not part of this model. The lines under "## Left out"
that start with `WithInputs` and `SetTargetStep` say which default the
model takes and why.

## Model

| member | source | states |
|---|---|---|
| Activations.Logistic | include/Layer.hpp:34 | the sigmoid 1/(1+e^-x) lies strictly between 0 and 1 for every x, given only that exp is positive |
| Activations.Activate | include/Layer.hpp:32-38 | linear is the identity, sigmoid lies in (0, 1), relu is x for positive x and 0 otherwise and never negative |
| Activations.Activated | include/Layer.hpp:217 | the activated matrix has the shape of the pre-activations and holds the activation of each entry |
| Activations.Derivative | include/Layer.hpp:43-60 | linear, sigmoid and tanh derivatives have the outputs' shape; relu and softplus derivatives have the augmented input's shape |
| Activations.LinearDerivativeEntries | include/Layer.hpp:44-46 | every entry of the linear derivative is 1 |
| Activations.SigmoidDerivativeEntries | include/Layer.hpp:47-49 | each sigmoid derivative entry is o(1 - o) of the matching output and at most 1/4 |
| Activations.TanhDerivativeEntries | include/Layer.hpp:50-52 | each tanh derivative entry is 1 - o*o of the matching output and at most 1 |
| Activations.ReluDerivativeEntries | include/Layer.hpp:53-55 | each relu derivative entry is 0 or 1, and 1 exactly where the augmented input is positive |
| Activations.SoftplusDerivativeEntries | include/Layer.hpp:56-58 | each softplus derivative entry is the logistic function of the augmented input, strictly between 0 and 1 |
| Activations.SigmoidDerivativeOnSigmoidOutputs | include/Layer.hpp:47-49 | on the outputs of a sigmoid layer every derivative entry lies in (0, 1/4] |
| Activations.LinearActivationIsIdentity | include/Layer.hpp:33 | the linear activation leaves every matrix unchanged |
| Losses.VectorLoss | include/Network.hpp:25-30 | the L2 loss of equally long vectors is never negative |
| Losses.VectorLossDerivative | include/Network.hpp:32-34 | the L2 derivative is as long as the prediction |
| Losses.L2ZeroIff | include/Network.hpp:25-30 | the L2 loss is zero if and only if prediction and observation are equal |
| Losses.L2DerivativeIsGradient | include/Network.hpp:25-34 | moving prediction entry k by h changes the loss by exactly h times derivative entry k plus h^2/2, so the derivative is the loss's gradient |
| Losses.L2AlongDirection | include/Network.hpp:25-34 | moving the whole prediction by a vector d changes the L2 loss by exactly d against the derivative plus half the squared length of d |
| Losses.L2AlongScaledDirection | include/Network.hpp:25-34 | when the prediction moves by h times a direction c, the loss changes by h times (c against the derivative) plus half the squared length of the move |
| Layers.MakeInputMat | include/Layer.hpp:105-110 | the augmented input has x.rows rows and x.cols + 1 columns, agrees with x on the leading columns, and its last column is all ones |
| Layers.MakeInputMatRoundTrip | src/Layer.cc:6-11 | dropping the last column of the augmented input gives the input back |
| Layers.WithInputShape | src/Layer.cc:13-24 | fails, changing nothing, exactly when a component is not positive; with reinit the weights become a matrix of the fitting shape, so the shape invariant holds; without it only the shape changes |
| Layers.WithInputs | src/Layer.cc:26-33 | stores the input, rebuilds the augmented input only when asked to, records the input's shape, and fails exactly for an empty input |
| Layers.Forward | src/Layer.cc:41-60 | adopts the input and, for a non-empty input, its shape first; then the input size error fires exactly when the weight rows do not fit the input width, otherwise the output size error exactly when the weight columns are not the output size; the pass succeeds exactly when the input is non-empty and the weights fit it and the output size; on success the outputs are input rows x output size; on failure the pre-activations and outputs are unchanged; only inputs, augmented input, input shape, pre-activations and outputs can change |
| Layers.ForwardCached | include/Layer.hpp:206-219 | three checks in order: the input size and output size errors against the recorded shape, then the product's dimension check of the cached augmented input against the weight rows; it succeeds exactly when the weights fit and the cached input has their row count; on failure the state is unchanged; on success only the pre-activations and outputs change, every pre-activation entry (i, j) is row i of the augmented input against weight column j, and every output entry is the activation of its pre-activation |
| Layers.ActDerivs | include/Layer.hpp:225-229 | the derivative matrix has the outputs' shape (linear, sigmoid, tanh) or the augmented input's shape (relu, softplus) |
| Layers.Jacobian | src/Layer.cc:68-74 | succeeds exactly when the derivative columns match the weight columns, giving derivative rows x weight rows, and entry (i, j) is derivative row i against weight row j |
| Layers.Backpropagated | src/Layer.cc:78-84 | the projected error exists exactly when the shapes fit and the downstream weights have a row; it has the downstream error's rows and one column fewer than the downstream weights have rows, and entry (i, j) is downstream error row i against downstream weight row j |
| Layers.ProjectedKeepingBias | include/Layer.hpp:239-241 | the header's projection keeps all downstream weight rows as columns; entry (i, j) is downstream error row i against downstream weight row j |
| Layers.BackwardStep | src/Layer.cc:93-100 | succeeds exactly when the signal has the derivative's shape and the augmented input's row count; only err and gradient may change, and on failure the gradient is kept; on success err is the Hadamard product of signal and derivative, the gradient is augmented-input columns x signal columns, and gradient entry (a, b) is column a of the augmented input against column b of err |
| Layers.UpdateStep | src/Layer.cc:103-118 | succeeds exactly when update, gradient and weights have one shape; then, entry by entry, the new update is momentum times the old one minus the learning rate times the gradient, and the new weights are the old weights plus the new update; nothing else changes; a failure on the first shape check changes nothing, one on the second may only have written the update |
| Layers.ScaledUpdateStep | src/Layer.cc:121-126 | the same outcome and new update as the plain update, with every weight entry then multiplied by mult; on success the state is the plain update's state with only the weights rescaled, and on failure it is exactly the plain update's result |
| Layers.Layer.constructor | include/Layer.hpp:112-134 | records shape, output size and activation, takes the initial weights of the fitting shape, starts the update at zero, and leaves every other cached matrix empty |
| Layers.Layer.FromInputs | include/Layer.hpp:136-150 | takes the inputs' shape as input shape and prepares the augmented input |
| Layers.Layer.SetInputShape | src/Layer.cc:13-24 | new state and outcome are those of WithInputShape |
| Layers.Layer.SetInputs | src/Layer.cc:26-33 | new state and outcome are those of WithInputs |
| Layers.Layer.SetInputsCached | include/Layer.hpp:169-173 | only the inputs and the rebuilt augmented input change |
| Layers.Layer.SetActivation | src/Layer.cc:35-39 | only the activation changes |
| Layers.Layer.SetWeights | include/Layer.hpp:164-167 | only the weights change |
| Layers.Layer.SetUpdateParams | include/Layer.hpp:190-192 | only learning rate and momentum change |
| Layers.Layer.SetOutputSize | src/Network.cc:32 | only the output size changes (the layer header that declares it is not part of this model) |
| Layers.Layer.CalculateOutput | include/Layer.hpp:199-202 | reads the layer without changing it; succeeds exactly when the weights fit the input width; for a linear layer each output entry is the row of x against the weight column plus the bias row entry |
| Layers.Layer.ForwardCachedPass | include/Layer.hpp:206-223 | new state and outcome are those of ForwardCached |
| Layers.Layer.ForwardPass | src/Layer.cc:41-60 | new state and outcome are those of Forward on the argument |
| Layers.Layer.ForwardPassAgain | src/Layer.cc:62-65 | new state and outcome are those of Forward on the stored inputs |
| Layers.Layer.ComputeJacobian | src/Layer.cc:68-74 | returns Jacobian of the old state and stores it on success only |
| Layers.Layer.Backward | src/Layer.cc:86-89 | new state and outcome are those of BackwardStep for the given signal |
| Layers.Layer.BackwardFromLayer | src/Layer.cc:76-91 | BackwardStep on the downstream error projected with the bias column dropped |
| Layers.Layer.BackwardKeepingBias | include/Layer.hpp:239-248 | BackwardStep on the downstream error projected with the bias column kept |
| Layers.Layer.BackwardFromLoss | src/Layer.cc:93-100 | BackwardStep on the given loss gradient |
| Layers.Layer.UpdateWeights | src/Layer.cc:103-118 | new state and outcome are those of UpdateStep |
| Layers.Layer.UpdateWeightsWith | include/Layer.hpp:277-280 | UpdateStep after installing the given learning rate and momentum |
| Layers.Layer.UpdateWeightsScaled | src/Layer.cc:121-126 | new state and outcome are those of ScaledUpdateStep |
| Layers.BiasIsLastWeightRow | include/Layer.hpp:199-202 | entry (i, j) of augmented input times weights is row i of x against the first rows of column j plus the last (bias) row |
| Layers.ForwardComputesActivations | src/Layer.cc:52-57 | after a successful forward pass the pre-activations are augmented input times weights and each output is the activation of its pre-activation |
| Layers.LinearForwardOutputsActVals | include/Layer.hpp:216-217 | a linear layer's outputs equal its pre-activations |
| Layers.ForwardIdempotent | src/Layer.cc:62-65 | running the forward pass again on the stored inputs changes nothing |
| Layers.ForwardCachedIdempotent | include/Layer.hpp:221-223 | running the cached forward pass twice gives the state of running it once |
| Layers.ForwardCachedAgreesWithForward | include/Layer.hpp:206-219 | on a layer whose augmented input and recorded shape come from its stored inputs, the cached forward pass gives the same outcome and state as the out-of-line forward pass on those inputs |
| Layers.CalculateOutputAgreesWithForward | include/Layer.hpp:199-202 | the output computed on demand equals the outputs of a successful forward pass |
| Layers.GradientHasWeightsShape | include/Layer.hpp:250-257 | with one signal column per output and fitting weights, the gradient has the weights' shape |
| Layers.BackpropagatedHasOutputWidth | src/Layer.cc:81-84 | from a fitting downstream layer the projected error has one column per output of this layer |
| Layers.BackpropagatedDropsBiasColumn | src/Layer.cc:78-84 | the out-of-line projection is the header's projection with its last (bias) column dropped, and fails exactly when that one fails |
| Layers.AugmentedDerivativeNeedsSquareLayer | include/Layer.hpp:53-58 | a relu or softplus backward pass with one signal column per output can succeed only if the output size is the input width plus one |
| Layers.KeepingBiasRejectsChainedLayer | include/Layer.hpp:239-248 | with the bias column kept, the backward pass of a linear, sigmoid or tanh layer from a fitting downstream layer always fails and changes nothing |
| Layers.DroppingBiasAcceptsChainedLayer | src/Layer.cc:76-91 | with the bias column dropped, the same backward pass succeeds when the row counts match |
| Layers.ZeroGradientFirstUpdate | include/Layer.hpp:86 | with the update at its zero start and a zero gradient, the update changes nothing |
| Layers.NoMomentumIsGradientDescent | src/Layer.cc:111-113 | with momentum 0 the new weights are the old weights minus learning rate times gradient |
| Layers.LinearGradientEntry | src/Layer.cc:93-100 | for a linear layer fed a one-column signal d, the backward pass succeeds and gradient entry (a, 0) is column a of the augmented input against d |
| Layers.LinearOutputsShift | src/Layer.cc:41-60 | moving weight (a, 0) of a one-output linear layer by h keeps the forward pass successful and moves every output entry k by h times entry (k, a) of the augmented input |
| Layers.LinearLossSlope | src/Layer.cc:93-100 | given such a shift of the outputs, the L2 loss changes by h times the gradient entry (a, 0) that the backward pass computes from the L2 derivative, plus half the squared length of the output change |
| Layers.LinearGradientIsLossSlope | src/Layer.cc:93-100 | for a one-output linear layer fed the L2 derivative of its outputs, gradient entry (a, 0) is the exact coefficient of h in the loss after weight (a, 0) moves by h; the rest is half the squared output change |
| Networks.ToVector | src/Network.cc:156 | a matrix converts to a vector exactly when it has one column, entry by entry |
| Networks.SetInputsStep | src/Network.cc:8-23 | without override: a row mismatch fails, then a column mismatch fails, otherwise only the input changes, and the layers never change; with override: input and input shape are taken from x, the first layer adopts x, and on success the first recorded layer shape becomes x's shape |
| Networks.SetTargetStep | src/Network.cc:27-41 | a target of the right length is stored and nothing else changes; a wrong length fails, changing nothing, without override; with override the output count becomes 1, the last layer takes output size 1 and its recorded input shape, and on success the target is stored |
| Networks.Conclude | src/Network.cc:156-162 | succeeds exactly when the last output has one column, matches the target length and a loss function is set; then output, residual, loss and derivative are the last output, output minus target, and the loss and derivative of output against target; nothing else changes |
| Networks.PrepareStep | src/Network.cc:141-146 | succeeds exactly when the new input has the recorded shape and the new target has the output count; then only input and target change |
| Networks.PredictStep | src/Network.cc:138-163 | prediction keeps the loss history and the gradient, and a successful prediction has a non-negative loss |
| Networks.BackwardNet | src/Network.cc:197-212 | only the gradient field changes, and on success it is the first layer's gradient |
| Networks.ForwardSweepRan | src/Network.cc:148-155 | in a successful sweep each layer ran its forward pass on the network input (layer 0) or on its predecessor's outputs, and succeeded |
| Networks.ForwardSweepOutput | src/Network.cc:148-156 | the sweep's result is the last processed layer's outputs, with one row per input row and one column per output of that layer |
| Networks.BackwardSweepRan | src/Network.cc:202-210 | in a successful backward sweep each layer ran its backward pass on the loss derivative (last layer) or on its processed downstream neighbour's projected error, and succeeded |
| Networks.UpdateSweepRan | include/Network.hpp:437-442 | in a successful update sweep every layer ran its update and succeeded |
| Networks.ForwardSweepStops | src/Network.cc:149-155 | once the forward sweep fails, further layers are not touched |
| Networks.BackwardSweepStops | src/Network.cc:202-210 | once the backward sweep fails, earlier layers are not touched |
| Networks.UpdateSweepStops | include/Network.hpp:439-441 | once the update sweep fails, later layers are not touched |
| Networks.PredictChainsLayers | src/Network.cc:148-155 | a successful prediction uses the new input and target if given, runs layer 0 on the network input and every later layer on its predecessor's outputs |
| Networks.PredictRecordsLoss | src/Network.cc:156-162 | after a successful prediction the output is the last layer's single column with one entry per input row, the residual is output minus target, and loss and derivative are the L2 loss and derivative of output against target |
| Networks.BackwardNetChains | src/Network.cc:197-212 | a successful backward pass ran every layer on the signal it receives, last layer first, and the network gradient is the first layer's gradient |
| Networks.BackwardSweepKeepsWeights | src/Network.cc:197-212 | the backward sweep changes only the err and gradient of each layer, so weights and update are those the sweep started from |
| Networks.LearnStepUpdatesBackwardStates | src/Network.cc:224-227 | a failed backward pass ends the round with the network unchanged, so no update is applied; a successful round ran the backward pass, recorded the network gradient, appended the current loss to the history, and applied the update to every layer as the backward pass left it |
| Networks.LearnStep | src/Network.cc:224-227 | the network stays well shaped (the steps it composes are stated by LearnStepUpdatesBackwardStates) |
| Networks.RoundRecordsLoss | src/Network.cc:223-227 | a round keeps the earlier loss entries and appends at most one, never negative; a successful round appends exactly the loss it computed |
| Networks.TrainFromRound | src/Network.cc:229-235 | when training runs another round, it continues from that round's result unless the round failed |
| Networks.TrainFromStops | src/Network.cc:229 | when the loop guard is false training ends where it is, with the rounds counted so far |
| Networks.TrainFromRounds | src/Network.cc:229-235 | the round count never decreases; from the start it never passes max(maxIter, 1), and after `done` rounds never max(maxIter, done); training that does not fail ran the first round and stops only at the iteration limit or within the tolerance |
| Networks.TrainFromLosses | src/Network.cc:229-235 | one loss entry per completed round (a failed round at most one more); earlier entries are kept, new entries are non-negative, and the last entry is the current loss |
| Networks.TrainStepRounds | src/Network.cc:216-239 | training that does not fail runs between 1 and max(1, maxIter) rounds, exactly one when maxIter <= 1, stops only at the iteration limit or within the tolerance, and warns exactly when it hit the limit and printing is not suppressed |
| Networks.TrainStepLosses | src/Network.cc:216-239 | training that does not fail appends exactly one loss per round and ends with the current loss; earlier entries are kept and every new entry is non-negative |
| Networks.Network.FromLayers | include/Network.hpp:86-94 | copies the layers; records their input shapes in order, the first as input shape and the last layer's output size as output count; no loss function |
| Networks.Network.WithActivation | include/Network.hpp:96-110 | the same, with every layer switched to the given activation and the named loss |
| Networks.Network.FromShapes | include/Network.hpp:112-127 | one layer per shape, expecting that shape with as many outputs as it has rows; the output count is the last of them |
| Networks.Network.SetInputs | src/Network.cc:8-23 | new fields, layers and outcome are those of SetInputsStep |
| Networks.Network.AdoptInputs | src/Network.cc:17-22 | SetInputsStep with override |
| Networks.Network.FirstLayerInputs | src/Network.cc:20 | only the first layer changes, as its setInputs makes it |
| Networks.Network.SetTarget | src/Network.cc:27-41 | new fields, layers and outcome are those of SetTargetStep |
| Networks.Network.AdoptTarget | src/Network.cc:30-34 | SetTargetStep with override for a target of a new length |
| Networks.Network.LastLayerResized | src/Network.cc:32-33 | only the last layer changes: new output size, then its recorded input shape |
| Networks.Network.SetWeights | src/Network.cc:99-109 | fails, changing nothing, exactly when the count differs from the layer count; otherwise layer k takes weight matrix k and nothing else changes |
| Networks.Network.SetUpdateParams | include/Network.hpp:306-311 | every layer takes the same learning rate and momentum, nothing else changes |
| Networks.Network.SetActivation | include/Network.hpp:326-331 | every layer takes the same activation, nothing else changes |
| Networks.Network.SetActivations | src/Network.cc:125-135 | fails, changing nothing, exactly when the count differs from the layer count; otherwise layer k takes activation k |
| Networks.Network.SetLossFunc | include/Network.hpp:345-349 | only the loss function changes |
| Networks.Network.ForwardLayer | src/Network.cc:150-154 | extends the forward sweep by one layer: that layer adopts the previous output and runs its forward pass |
| Networks.Network.ForwardLayers | src/Network.cc:148-155 | the layers end as the forward sweep over all of them leaves them |
| Networks.Network.Finish | src/Network.cc:156-162 | new fields and outcome are those of Conclude |
| Networks.Network.Prepare | src/Network.cc:141-146 | new fields and outcome are those of PrepareStep |
| Networks.Network.Predict | src/Network.cc:138-163 | new fields, layers and outcome are those of PredictStep |
| Networks.Network.PredictVal | src/Network.cc:166-194 | the same state as Predict, and returns the stored output |
| Networks.Network.BackwardLastLayer | src/Network.cc:203-205 | extends the backward sweep by the last layer, fed the loss derivative as a column |
| Networks.Network.BackwardInnerLayer | src/Network.cc:206-209 | extends the backward sweep by an inner layer, fed its downstream neighbour |
| Networks.Network.BackwardLayer | src/Network.cc:202-210 | extends the backward sweep by one layer |
| Networks.Network.BackwardLayers | src/Network.cc:200-210 | the layers end as the backward sweep over all of them leaves them |
| Networks.Network.BackwardPass | src/Network.cc:197-212 | new fields, layers and outcome are those of BackwardNet |
| Networks.Network.UpdateLayer | include/Network.hpp:440 | extends the update sweep by one layer |
| Networks.Network.UpdateWeights | include/Network.hpp:437-442 | the layers end as the update sweep leaves them; the network's own fields do not change |
| Networks.Network.UpdateWeightsWith | include/Network.hpp:450-454 | the update sweep after every layer took the given learning rate and momentum |
| Networks.Network.Learn | src/Network.cc:224-227 | new fields, layers and outcome are those of LearnStep |
| Networks.Network.Round | src/Network.cc:223-227 | new fields, layers and outcome are those of one training round |
| Networks.Network.TrainAgain | src/Network.cc:230-234 | training from before the round equals training from after it with one more round counted, or ends here if the round failed |
| Networks.Network.TrainRest | src/Network.cc:229-235 | the loop leaves the state, outcome and round count that TrainFrom gives |
| Networks.Network.Train | src/Network.cc:216-240 | the state, outcome, round count and warning are those of TrainStep |

## Findings

| source | as written | input that shows it | evidently intended | confidence | as-written member | corrected member |
|---|---|---|---|---|---|---|
| include/Layer.hpp:239-248 | the backward pass from the downstream layer keeps the bias column of the projected error, so the error has one column more than a linear, sigmoid or tanh layer has outputs, and the Hadamard product with the derivatives cannot be formed | any linear, sigmoid or tanh layer followed by a layer whose input width is its output size, e.g. two linear layers of sizes 2 -> 3 -> 1 | drop the bias column, as src/Layer.cc:84 does, so that the backward pass of chained layers succeeds | not executed | Layers.KeepingBiasRejectsChainedLayer | Layers.DroppingBiasAcceptsChainedLayer |

The network uses the corrected projection (`Layers.Backpropagated` and
`Layers.Layer.BackwardFromLayer`). The as-written one is kept as
`Layers.Layer.BackwardKeepingBias`.

## Left out

- Floating point: all arithmetic is over `real`, with no rounding and no overflow.
- exp, tanh and log are not defined. They are fields of a `MathLib` value, and the only fact assumed is that exp is positive. So the model proves nothing about the sigmoid, tanh and softplus outputs beyond what follows from that.
- Random initialisation (`Mat::Random`): the initial weights are a parameter of the fitting shape.
- The norm test of `train` compares the squared norm with the squared tolerance. A negative tolerance is always exceeded. The square root is not modelled.
- UpdateStep: the update in src/Layer.cc:109-114 is a bare `#pragma omp parallel` block, so every thread of the team runs the whole update once, concurrently, on the shared fields. The update is not idempotent: with several threads the momentum term and the weights are updated several times, racily. The model applies the update exactly once, which is the evident intent.
- ScaledUpdateStep: in the same way `weights *= mult` at src/Layer.cc:124-125 runs once per thread, so the weights would be scaled by a power of mult. The model scales them once.
- The other parallel blocks (src/Layer.cc:50-58 and 79-82) assign the same value from every thread. The model runs them once, sequentially.
- WithInputs: the defaults of `usemakeInputMat` and of `setInputShape`'s `reinitWeights` are declared in a layer header that is not part of this model. `usemakeInputMat` is a parameter, and every caller that relies on the default (`forwardPass`, the network's `setInputs`) passes `true`. `reinitWeights` is taken as `false`. If reinitialisation were the default, every forward pass would draw fresh random weights (src/Layer.cc:20-23) and its size errors could never fire.
- SetTargetStep: with override it calls `setInputShape` with the default argument; the model takes `reinitWeights = false` there too, so the last layer keeps its weights rather than being re-randomised as src/Layer.cc:20-23 would do.
- TrainStep: the default arguments of `train` (include/Network.hpp:456-460: `stopTol = 1e-5`, `maxIter = 1000`, no new data, `noprint = false`) are not modelled; every argument is passed explicitly.
- Console output: `summary`, `visualizeLayer` and the printed text are left out. The iteration-limit warning is the returned `warned` flag.
- `setLayers`, `appendLayers` and `insertLayer`: they store shape pairs in a list of layers and index a list. They do not compile as written.
- The first network constructor (include/Network.hpp:71-84) is left out. Its body calls the list members as functions and does not compile.
- The per-layer `setUpdateParams(list)` and `updateWeights(list)` overloads are left out. They call a member that does not exist.
- `setLossFunc` with two function objects is left out: a loss is one of the named losses.
- Unknown activation or loss names: a name is a closed datatype, so a missing map entry cannot be named.
- The getters are left out. The model reads the fields directly.
- `backwardPass` copies each processed layer into `prevLayer`. The model reads the downstream neighbour in place, which holds the same error and weights.
- `scalar_loss` is never initialised in the source. The model starts it at 0.0.
- Eigen's dimension assertions abort the program in a build with assertions enabled; without them a mismatched product is undefined behaviour. The model makes them `Fail(DimensionMismatch)` outcomes. A call of an unset loss function is `Fail(MissingLossFunction)`.
- A thrown error ends training in the source. In the model a failed round ends training and is not counted in the round count.
- Networks.PredictStep: its own contract states only the loss history, the gradient and a non-negative loss. What a prediction computes is stated by PredictChainsLayers and PredictRecordsLoss.
- include/PlapNetwork.hpp, the Python example code and the test programs are not part of this model.
