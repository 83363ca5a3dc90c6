# go-tensor-flow in Dafny

This project models the core of go-tensor-flow, a small Go library for neural networks, and proves properties of that model. The model covers:
- dense matrices and their product, sum and scaling;
- the softmax and ReLU activations;
- the Dense, ReLU and Softmax layers with their forward and backward passes and parameter accessors;
- the binary cross-entropy, categorical cross-entropy and mean-squared-error losses with their gradients;
- the Adam and SGD-with-momentum optimizers;
- the `Sequential` model, which chains layers, runs the backward pass in reverse, updates every parameter under a per-layer key, and trains in mini-batches over epochs;
- the forward passes of the 3-D convolution layer and 2-D max pooling.

Float64 arithmetic becomes exact `real` arithmetic. `math.Exp`, `math.Log` and `math.Sqrt` are constants of function type that carry only what is known about them: Exp is positive and Sqrt is non-negative. Go's integer division, which truncates toward zero, is written out as `Cnn.GoDiv`.

The files follow the Go sources:

| Dafny file | Module | Go file |
|---|---|---|
| `errors.dfy` | `Errors` | the error values, and `Result`/`Option` |
| `matrix.dfy` | `Matrices` | `matrix.go` |
| `elementary.dfy` | `Elementary` | the `math` functions used |
| `activations.dfy` | `Activations` | `activations.go` |
| `layers.dfy` | `Layers` | `layers.go` |
| `loss.dfy` | `Losses` | `loss.go` |
| `optimizer.dfy` | `Optimizers`, `OptimizerProperties` | `optimizer.go` |
| `keys.dfy`, `updates.dfy`, `passes.dfy`, `training.dfy` | `Keys`, `Updates`, `Passes`, `Training` | `model.go`, as value-level specifications |
| `model.dfy` | `Model` | `model.go`: the `Sequential` class and its loop methods |
| `cnn.dfy` | `Cnn` | `cnn.go` |

How each kind of Go entity is modelled:
- **Values:** matrices, tensors, layers, losses, and the convolution and pooling layers are datatypes.
- **Optimizers:** they keep per-key state maps that their `Update` modifies, so they are classes. So is `Sequential`.
- **Loops:** every loop of the source is a `while` loop in a method, with two exceptions. The copy-back loop of UpdateWeights (model.go:81-85) is the function `Layers.Layer.WithParam`, because parameters are values. NewConvLayer's filter-drawing loops (cnn.go:43-54) are replaced by a filter-bank parameter of `Cnn.NewConvLayer`, because they draw random numbers. Each loop method is proved equal to a specification function, and the properties the source promises are proved about that function.

## Model

The loop methods and the properties below are stated against these specification functions, whose bodies transcribe the cited source lines and which carry no contract of their own:
- `Losses.Loss.Term`: the per-element loss term of BCE (loss.go:37-39), CCE (loss.go:89-90) and MSE (loss.go:137-138).
- `Model.ForwardFrom`: Forward's loop from layer i on (model.go:42-47).
- `Training.BatchEnd` and `Training.Batches`: the batch boundaries of Fit's loop (model.go:132-136).
- `Training.EpochFrom`, `Training.EpochAt`, `Training.EpochTrain` and `Training.EpochAfter`: one epoch's batch loop (model.go:132-159).
- `Training.EpochMean`: the epoch mean totalLoss / numBatches (model.go:161).
- `Cnn.GoDiv`: Go's truncating integer `/` (cnn.go:76-77, 123-124).
- `Cnn.ConvOutSize`, `Cnn.ConvTerm`, `Cnn.ConvRowSum`, `Cnn.ConvChannelSum`, `Cnn.ConvChannelsSum`, `Cnn.ConvCell` and `Cnn.ConvOutput`: the convolution's output sizes, in-bounds products, nested sums, cells and whole output (cnn.go:70-108).
- `Cnn.PoolOutSize`, `Cnn.WindowValue`, `Cnn.PoolRowMax`, `Cnn.PoolWindowMax`, `Cnn.PoolCell` and `Cnn.PoolOutput`: the pooled output sizes, window reads, running maxima, cells and whole output (cnn.go:122-149).

| member | source | states |
|---|---|---|
| Matrices.NewMatrix | matrix.go:16-22 | a rows x cols matrix with every entry 0 |
| Matrices.Multiply | matrix.go:36-52 | fails (DimensionMismatch) exactly when the inner dimensions differ; otherwise the a.rows x b.cols matrix whose entry (i, j) is the sum over k of a[i][k]·b[k][j], added in increasing k |
| Matrices.Add | matrix.go:55-67 | fails exactly when the shapes differ; otherwise the element-wise sum, of the same shape |
| Matrices.Scale | matrix.go:70-78 | never fails, keeps the shape, and multiplies every entry by the scalar |
| Matrices.Matrix.Set | matrix.go:48 | writing one entry changes that entry and no other, and keeps the shape |
| Matrices.Tabulate | matrix.go:41-50 | the matrix built entry by entry has the given shape and entries |
| Matrices.ProductEntries | matrix.go:41-50 | the product is a.rows x b.cols and each entry is the row-by-column dot product |
| Matrices.SumCommutes | matrix.go:55-67 | Add(a, b) and Add(b, a) agree |
| Matrices.ScaleByOne | matrix.go:70-78 | Scale(m, 1) is m |
| Matrices.Extensionality | matrix.go:9-13 | two matrices of one shape with equal entries are equal |
| Elementary.Max | loss.go:37 | math.Max returns one of its arguments, and one at least as large as both |
| Elementary.Min | loss.go:37 | math.Min returns one of its arguments, and one at most as large as both |
| Elementary.PowInUnitInterval | optimizer.go:70-71 | β^t for 0 < β < 1 and t ≥ 1 lies strictly between 0 and 1, so Adam's bias corrections 1 − β^t never divide by zero |
| Activations.ReLU | activations.go:45-50 | ReLU(x) is non-negative, at least x, and either x or 0; it is x exactly when x ≥ 0 |
| Activations.ReLUIdempotent | activations.go:45-50 | applying ReLU twice is applying it once |
| Activations.RunningMaxIsMax | activations.go:11-16 | the running maximum (replace on a strictly larger value) bounds every element seen and is one of them |
| Activations.MaxElement | activations.go:11-16 | the first loop returns the maximum of the input |
| Activations.ShiftedExponentials | activations.go:19-24 | the second loop computes exp(v − max) of every element and their total, which is positive |
| Activations.Normalise | activations.go:27-30 | the third loop divides every exponential by the total |
| Activations.Softmax | activations.go:9-33 | the output has the input's length and positive entries, and they sum to 1 |
| Activations.SoftmaxIsDistribution | activations.go:9-33 | softmax of a non-empty vector has its length and positive entries, and they sum to 1 |
| Activations.ExponentArgumentsNonPositive | activations.go:11-22 | every exponent v − max is at most 0 and one is exactly 0, so no exponential exceeds 1 |
| Activations.SoftmaxShiftInvariant | activations.go:9-33 | adding a constant to every input leaves the softmax unchanged, the reason the max is subtracted |
| Activations.RunningMaxShift | activations.go:11-16 | shifting the input shifts the running maximum by the same constant |
| Activations.ExponentialsShift | activations.go:19-24 | the shifted exponentials are unchanged by a constant shift of the input |
| Activations.TotalDivided | activations.go:27-30 | the total of the normalised vector is the total divided by the divisor |
| Activations.PositiveTotal | activations.go:20-24 | a non-empty sum of positive exponentials is positive |
| Activations.PositiveQuotients | activations.go:27-30 | positive values divided by a positive total stay positive |
| Activations.TotalStep | activations.go:20-24 | the running total after i + 1 elements is the total after i plus element i |
| Activations.SoftmaxMatrix | activations.go:36-42 | same shape; row i is the softmax of input row i alone |
| Activations.ReLUMatrix | activations.go:53-61 | same shape; every entry is ReLU of the input entry |
| Layers.Layer.GetParams | layers.go:123-125 | Dense reports [weights, bias]; ReLULayer and SoftmaxLayer report none (layers.go:167-169, 205-207) |
| Layers.Layer.GetGrads | layers.go:128-130 | one gradient per parameter, each with its parameter's shape; none for activation layers |
| Layers.Layer.GetParamNames | layers.go:133-135 | one name per parameter, distinct; "weights" then "bias" for Dense |
| Layers.Layer.WithParam | model.go:81-85 | copying an updated matrix into parameter slot s replaces that slot only and keeps the layer's kind and gradient buffers |
| Layers.Layer.ForwardResult | layers.go:55-76 | Forward's result keeps the weights and gradient buffers; on failure the layer is unchanged; on success the output has the input's row count |
| Layers.Layer.BackwardResult | layers.go:79-120 | Backward's result keeps the weights and the cache; on failure the layer is unchanged; on success the gradient has the incoming gradient's row count |
| Layers.Layer.Forward | layers.go:55-76 | Dense fails with InputSizeMismatch(got, expected) exactly when input.cols ≠ inputSize and then caches nothing; otherwise it caches the input and returns input × weights + bias per row. ReLULayer caches the input and returns ReLU of every entry (layers.go:148-151). SoftmaxLayer caches and returns the row-wise softmax (layers.go:192-195) |
| Layers.Layer.Backward | layers.go:79-120 | Dense fails (GradientSizeMismatch) exactly when g.cols ≠ outputSize; otherwise the weight gradient is xᵀg divided by the batch size, the bias gradient the column sums divided by the batch size, and g × Wᵀ is passed upstream with weights and cache unchanged. ReLULayer passes g where the cached input was positive, 0 elsewhere (layers.go:154-164). SoftmaxLayer passes g through unchanged (layers.go:198-202) |
| Layers.NewDense | layers.go:32-52 | inputSize x outputSize weights, each the caller's standard-normal draw times √(2/inputSize); zero bias; zero gradient buffers; nothing cached |
| Layers.NewReLULayer | layers.go:143-145 | a ReLU layer with no parameters and nothing cached |
| Layers.NewSoftmaxLayer | layers.go:187-189 | a softmax layer with no parameters and nothing cached |
| Layers.WeightsAgree | layers.go:123-130 | layers with the same kind and parameters report the same GetParams, and the same GetGrads when their buffers agree |
| Layers.AddBiasInPlace | layers.go:69-73 | the bias loop adds bias[0][j] to every entry of column j |
| Layers.OverwriteWeightGradient | layers.go:88-96 | the weight-gradient buffer is overwritten with xᵀg divided by the batch size |
| Layers.OverwriteBiasGradient | layers.go:99-105 | the bias-gradient buffer is overwritten with the column sums of g divided by the batch size |
| Layers.PropagateGradient | layers.go:108-119 | a fresh g.rows x inputSize matrix g × Wᵀ |
| Layers.MaskGradient | layers.go:155-163 | a zero matrix of g's shape, with g copied where the cached input is strictly positive |
| Losses.Loss.Forward | loss.go:26-44 | BCE, CCE and MSE fail (ShapeMismatch) exactly when the shapes differ; otherwise the sum of the per-element terms divided by the element count (BCE, loss.go:26-44), the row count (CCE, loss.go:79-95) or twice the element count (MSE, loss.go:127-143) |
| Losses.Loss.Backward | loss.go:48-65 | fails exactly when the shapes differ; otherwise a fresh matrix of the predictions' shape holding each element's gradient, divided by the element count (BCE; MSE, loss.go:147-162) or the row count (CCE, loss.go:99-115) |
| Losses.Loss.Value | loss.go:26-44 | the loss value fails exactly on a shape mismatch |
| Losses.Loss.Gradient | loss.go:48-65 | the gradient fails exactly on a shape mismatch, and otherwise has the predictions' shape |
| Losses.Loss.ClampedInRange | loss.go:37 | BCE's clamp lands in (0, 1), and in [ε, 1 − ε] when ε ≤ ½; CCE's lands at or above ε and keeps predictions already ≥ ε (loss.go:89); no logarithm or division sees 0 |
| Losses.Loss.PositiveCount | loss.go:33 | a non-empty batch has a positive count |
| Losses.NewBinaryCrossEntropy | loss.go:20-22 | BCE with ε = 1e-7 |
| Losses.NewCategoricalCrossEntropy | loss.go:73-75 | CCE with ε = 1e-7 |
| Losses.NewMSE | loss.go:121-123 | the MSE loss |
| Losses.MSENonNegative | loss.go:127-143 | the MSE loss of two same-shaped non-empty matrices is never negative |
| Losses.MSERowNonNegative | loss.go:136-139 | every partial row sum of squared differences is non-negative |
| Losses.MSEGridNonNegative | loss.go:135-140 | every partial sum over rows is non-negative |
| Losses.MSESymmetric | loss.go:127-143 | swapping predictions and targets leaves the MSE loss unchanged |
| Losses.MSERowSymmetric | loss.go:136-139 | row sums of squared differences are symmetric |
| Losses.MSEGridSymmetric | loss.go:135-140 | the sums over rows are symmetric |
| Losses.MSEGradientAntisymmetric | loss.go:147-162 | swapping predictions and targets negates the MSE gradient |
| Losses.MSEGradientEntries | loss.go:157 | each MSE gradient entry is (p − t) / (rows · cols) |
| Losses.MSEExample | loss.go:127-162 | P = [[2]], T = [[0]]: loss 2 and gradient [[2]] |
| Losses.BCEExample | loss.go:26-44 | P = [[0.5]], T = [[1]]: the BCE loss is −log 0.5 |
| Losses.CCEGradientZeroWithoutTarget | loss.go:110 | CCE passes no gradient where the target is 0 |
| Optimizers.Blended | optimizer.go:47-58 | the moment loop: entries inside the parameter's rows x cols become β·m + (1 − β)·g (or g² for the second moment); entries outside stay; the shape stays |
| Optimizers.Corrected | optimizer.go:61-74 | a fresh rows x cols matrix of the moment's entries divided by the bias correction |
| Optimizers.Applied | optimizer.go:77-82 | a fresh matrix of the parameter's shape holding p − lr·m̂ / (√v̂ + ε) entry by entry |
| Optimizers.StartMoments | optimizer.go:37-44 | an unseen key starts from two zero matrices of the parameter's shape; a seen key from its stored moments; second moments are non-negative |
| Optimizers.BlendedSquaresNonNegative | optimizer.go:54-58 | blending squared gradients into a non-negative second moment keeps it non-negative, so √v̂ is defined |
| Optimizers.CorrectedNonNegative | optimizer.go:69-74 | dividing a non-negative moment by a positive correction keeps it non-negative |
| Optimizers.Correction | optimizer.go:64 | the bias correction 1 − βᵗ lies strictly between 0 and 1 for t ≥ 1 |
| Optimizers.Moments | optimizer.go:46-58 | both moment loops keep the moments' shapes and the second moment non-negative |
| Optimizers.CorrectedMoments | optimizer.go:60-74 | m̂ and v̂ have the parameter's shape and v̂ is non-negative |
| Optimizers.AdamKernel | optimizer.go:46-84 | the five loops yield moments of the stored shapes (second moment non-negative) and an update of the parameter's shape |
| Optimizers.AdamStep | optimizer.go:34-85 | T rises by one; the key gains moments and no other key's moments change; the update has the parameter's shape |
| Optimizers.AdamStepUnfolds | optimizer.go:34-85 | one Update is: T + 1, the key's moments replaced by the blended ones, and the kernel's update returned |
| Optimizers.BlendMoment | optimizer.go:47-58 | the in-place moment loop computes Blended |
| Optimizers.BiasCorrect | optimizer.go:61-74 | the bias-correction loop computes Corrected |
| Optimizers.ApplyStep | optimizer.go:77-82 | the parameter loop computes Applied |
| Optimizers.AdamLoops | optimizer.go:46-84 | the five loops in order compute AdamKernel |
| Optimizers.AdamMoments | optimizer.go:35-84 | Update's body on the value state computes AdamStep |
| Optimizers.AdamOptimizer.constructor | optimizer.go:21-31 | the given learning rate, T = 0 and empty moment maps (β₁ = 0.9, β₂ = 0.999, ε = 1e-8 are constants) |
| Optimizers.AdamOptimizer.Update | optimizer.go:34-85 | the new state and the returned matrix are AdamStep of the old state |
| Optimizers.Accelerated | optimizer.go:116 | the velocity's block becomes momentum·velocity − lr·g; the rest and the shape stay |
| Optimizers.Moved | optimizer.go:117 | a fresh matrix p + velocity, entry by entry |
| Optimizers.MomentumLoop | optimizer.go:113-119 | the single loop yields the Accelerated velocity and the Moved parameter |
| Optimizers.SGDStep | optimizer.go:104-122 | the key gains a velocity (a zero matrix of the parameter's shape the first time); no other key's velocity changes; the update has the parameter's shape |
| Optimizers.SGD.constructor | optimizer.go:95-101 | the given learning rate and momentum, and no velocities |
| Optimizers.SGD.Update | optimizer.go:104-122 | the new velocities and the returned matrix are SGDStep of the old velocities |
| OptimizerProperties.FirstMomentCorrected | optimizer.go:46-74 | from a zero moment at T = 1, the bias correction gives back exactly g (or g²) |
| OptimizerProperties.AdamFirstStepEntries | optimizer.go:34-85 | the first Update of a key on a fresh optimizer moves each entry to p − lr·g / (√(g²) + ε) |
| OptimizerProperties.AdamFirstStepDescends | optimizer.go:34-85 | with lr > 0 that first update lowers an entry exactly when its gradient is positive, and leaves it exactly when the gradient is 0 |
| OptimizerProperties.AdamFirstStepZeroGradient | optimizer.go:34-85 | a zero gradient on that first update returns the parameter unchanged |
| OptimizerProperties.SGDFirstStep | optimizer.go:104-122 | the first SGD update of a key is p − lr·g, and it leaves velocity −lr·g |
| OptimizerProperties.SGDWithoutMomentum | optimizer.go:116-117 | with momentum 0 every update is p − lr·g, whatever velocity is stored |
| OptimizerProperties.SGDExample | optimizer.go:104-122 | p = 1, g = 0.5, lr = 0.1 gives 0.95 on the first update |
| OptimizerProperties.SGDSecondStepAccelerates | optimizer.go:116-117 | a second update with the same gradient moves the parameter by (1 + momentum)·lr·g |
| Keys.NatToString | model.go:77 | the %d numeral of a number is non-empty and made of digits |
| Keys.NatToStringInjective | model.go:77 | distinct numbers have distinct numerals |
| Keys.Key | model.go:77 | the key is "layer_", the numeral, "_" and the name, so it has their total length and starts with "layer_" |
| Keys.KeyInjective | model.go:77 | two (layer, name) pairs with one key are the same pair, so every parameter of a model has its own optimizer state |
| Keys.KeyExample | model.go:77 | Key(12, "weights") is "layer_12_weights" |
| Updates.OptState.Step | model.go:78 | one optimizer Update: the same optimizer kind and rate; Adam's T rises by one; the key's stored state covers the parameter; other keys keep what they covered |
| Updates.LayerParams | layers.go:123-135 | the parameter names and shapes depend only on the layer's kind |
| Updates.StepKeepsCompatible | model.go:76-86 | updating one parameter keeps every parameter's stored state compatible with its shape |
| Updates.LayerUpdate | model.go:76-86 | the parameters of one layer from slot s on: Adam's T rises by their number; earlier slots are kept; gradients, cache and kind are kept |
| Updates.UpdateFrom | model.go:69-89 | the layers from index i on: Adam's T rises by their parameter count; earlier layers are kept; every layer keeps its kind, gradients and cache |
| Updates.UpdateWithoutParams | model.go:69-89 | a model whose layers have no parameters leaves the optimizer and the layers unchanged |
| Passes.Through | model.go:38-50 | Forward through the first k layers succeeds exactly when every layer accepts the width reaching it; then the output has the input's row count and the last width; a failure names a layer below k |
| Passes.Forwarded | model.go:42-43 | a layer after Forward keeps its parameters and gradient buffers |
| Passes.ForwardAll | model.go:38-50 | Forward keeps every layer's parameters; it succeeds exactly when every width is accepted; a failure is ForwardFailed at a layer index |
| Passes.ForwardErrorPersists | model.go:44-46 | once Forward has failed, later layers do not change its result |
| Passes.ForwardFailsAt | model.go:44-46 | when layer i is reached and fails, Forward reports index i, and this is the error it returns |
| Passes.ForwardKeepsFrom | model.go:42-46 | when layer i fails, it and every later layer keep their state |
| Passes.ForwardStopsAtFailure | model.go:42-46 | a failing Forward names the first layer that rejects its input's width |
| Passes.FirstFailure | model.go:42-46 | a failed Forward has one layer reached with an accepted input whose own step fails |
| Passes.ForwardEmpty | model.go:38-50 | a model without layers returns its input and no layer |
| Passes.GradFrom | model.go:53-66 | Backward from the top down to layer i keeps the gradient's row count; a failure is BackwardFailed at an index between i and the top |
| Passes.Backwarded | model.go:57-59 | a layer after Backward keeps its parameters and cache |
| Passes.BackwardAll | model.go:53-66 | Backward keeps every layer's parameters and cache; a failure is reported with a layer index |
| Passes.BackwardErrorPersists | model.go:60-62 | once Backward has failed, lower layers do not change its result |
| Passes.BackwardFailsAt | model.go:57-62 | when layer i is reached and fails, Backward reports index i; it and every lower layer keep their state |
| Passes.ForwardPrimesBackward | model.go:94-112 | after a successful Forward on a non-empty batch, Backward with a gradient of the output's shape succeeds |
| Passes.ForwardPrimesBackwardFrom | model.go:57-63 | the same from layer i down, with the gradient reaching layer i as wide as the input Forward gave it |
| Training.Evaluate | model.go:177-189 | same parameters afterwards; succeeds exactly when Forward succeeds with the targets' shape; otherwise the layer error or ShapeMismatch |
| Training.UpdateAll | model.go:69-89 | UpdateWeights keeps each layer's kind, the optimizer's kind and rate, and advances Adam's T by the model's parameter count |
| Training.TrainStep | model.go:92-121 | a training step keeps valid layers of the same kinds and an optimizer ready for them |
| Training.TrainStepForwardFailed | model.go:94-97 | a failed Forward returns its error; the optimizer is untouched and the layers are as Forward left them |
| Training.TrainStepLossFailed | model.go:100-103 | a loss failure returns ShapeMismatch with the optimizer untouched |
| Training.TrainStepGradient | model.go:106-113 | once the loss succeeds, the gradient exists and Backward with it succeeds |
| Training.TrainStepBackward | model.go:112-120 | after Backward, the optimizer is ready for the layers and the step's result is UpdateAll of them with the loss value |
| Training.TrainStepLoss | model.go:92-121 | the loss TrainOnBatch reports is the one Evaluate on the same layers reports; it succeeds exactly when the shapes agree |
| Training.TrainStepFailure | model.go:92-116 | a failed TrainOnBatch changes neither the optimizer nor any parameter, and its error is a layer's or ShapeMismatch |
| Training.TrainStepClock | model.go:92-121 | a successful TrainOnBatch advances Adam's T by the model's parameter count |
| Training.BatchCount | model.go:132 | there are ⌈(n − i) / bs⌉ batches from row i, the least count whose bs-row batches cover n − i rows |
| Training.CeilingQuotient | model.go:132 | a count c with (c − 1)·bs < m ≤ c·bs is ⌈m / bs⌉ |
| Training.BatchesTile | model.go:132-136 | the batches start at row i and end at n; they are contiguous and in order; each is non-empty with at most bs rows; all but the last have exactly bs rows |
| Training.RowBlock | model.go:139-149 | the batch copy has rows e − i and the source's width, and row a is source row i + a |
| Training.EpochPass | model.go:132-159 | one pass of the batch loop: a failed batch ends the epoch with its error; a batch loss is added and the loop goes on from i + bs |
| Training.EpochPassThen | model.go:152-159 | the second half of that pass, from TrainOnBatch's result |
| Training.EpochBatchStep | model.go:133-152 | the loop body from row i copies the batch and trains on it |
| Training.EpochFromPost | model.go:127-160 | an epoch keeps the model ready and the layer kinds; on success it counts one batch per Batches entry, and Adam's T rises by the parameter count per batch |
| Training.EpochAfterPost | model.go:152-160 | the same for the rest of an epoch after one batch |
| Training.MeanDefined | model.go:161 | the epoch mean total/numBatches is defined exactly when X has rows (without rows Go divides 0 by 0) |
| Training.FitFrom | model.go:124-169 | Fit keeps the model ready; on success it reports one mean per epoch, in order, each defined exactly when X has rows |
| Training.FitStep | model.go:127-166 | one epoch: an error ends Fit with it; otherwise the epoch's mean is appended and Fit goes on with the next epoch |
| Training.FitDone | model.go:127 | past the last epoch Fit returns the means so far |
| Model.OptimizerRef.Update | model.go:78 | the compiled optimizer's own Update, stated as the value Step |
| Model.ForwardLayers | model.go:38-50 | Forward's loop computes the layer-by-layer ForwardFrom |
| Model.ForwardLoopFrom | model.go:42-47 | from any loop state, the rest of the loop yields ForwardAll: the loop computes the specification |
| Model.UpdateLayer | model.go:76-86 | the inner loop over one layer's parameters computes LayerUpdate, updating one key per parameter and copying each result back |
| Model.UpdateFromStep | model.go:71-88 | one round of the outer loop is one step of UpdateFrom |
| Model.UpdateLayers | model.go:69-89 | the outer loop goes through the layers in index order and computes UpdateFrom from index 0 |
| Model.BackwardLayers | model.go:53-66 | the reverse loop computes BackwardAll and reports an error exactly when it fails |
| Model.TrainPasses | model.go:92-116 | on an error, TrainOnBatch's result; otherwise the layers Backward left, ready for UpdateWeights |
| Model.CopyRows | model.go:139-149 | the copy loop computes RowBlock |
| Model.BatchRows | model.go:133-149 | the batch at row i ends at min(i + batchSize, rows) and holds those rows of X and y |
| Model.Sequential.constructor | model.go:20-24 | no layers, no loss, no optimizer |
| Model.Sequential.Add | model.go:27-29 | the layer is appended; nothing else changes |
| Model.Sequential.Compile | model.go:32-35 | sets the loss and the optimizer and keeps the layers |
| Model.Sequential.Forward | model.go:38-50 | the new layers and the result are ForwardAll of the old layers |
| Model.Sequential.UpdateWeights | model.go:69-89 | the new layers and optimizer state are UpdateAll of the old ones |
| Model.Sequential.Predict | model.go:172-174 | Predict is Forward |
| Model.Sequential.Backward | model.go:53-66 | the new layers are BackwardAll's, and an error is reported exactly when it fails |
| Model.Sequential.TrainOnBatch | model.go:92-121 | the new layers, optimizer state and result are TrainStep of the old ones |
| Model.Sequential.TrainBatchRows | model.go:139-152 | the batch at row i, copied and trained on, is TrainStep on RowBlock |
| Model.Sequential.TrainBatchAt | model.go:132-159 | one pass of the batch loop body is one step of EpochFrom |
| Model.Sequential.Epoch | model.go:127-161 | one epoch's batch loop computes EpochFrom from row 0 with a zero total and count |
| Model.Sequential.Fit | model.go:124-169 | Fit computes FitFrom from epoch 0 |
| Model.Sequential.Evaluate | model.go:177-189 | the new layers and the result are Training.Evaluate of the old layers |
| Cnn.GoDivTruncates | cnn.go:76-77 | Go's quotient truncates toward zero: the remainder is smaller than the divisor and is 0 or has the dividend's sign; it is the floor quotient for a non-negative dividend and a positive divisor |
| Cnn.NewTensor3D | cnn.go:17-26 | a valid channels x height x width tensor with every cell 0, for every shape whose make calls take no negative length (a negative height is allowed without channels, a negative width without rows) |
| Cnn.ValidAllocatable | cnn.go:17-25 | every well-formed tensor has a shape NewTensor3D can allocate |
| Cnn.NewConvLayer | cnn.go:40-67 | a valid layer with the requested sizes, the given filter bank and an all-zero bias |
| Cnn.ConvLayer.Forward | cnn.go:70-108 | fails with ChannelMismatch exactly when the channels differ; otherwise, for every non-zero stride and every output size NewTensor3D can allocate (including 0 or negative sizes that leave no cells), a NumFilters x outH x outW tensor (sizes (n − F + 2P)/S + 1, truncating) whose cell (f, h, w) is bias[f] plus the sum over channels and the window of in-bounds input·filter products |
| Cnn.ConvolveChannel | cnn.go:87-100 | the window loops over one channel add that channel's in-bounds products to the sum |
| Cnn.ConvolveAt | cnn.go:84-102 | the channel loop gives the bias plus all channels' sums |
| Cnn.PadTensor | cnn.go:95-97 | surrounding each plane of a tensor of natural sizes with p zeros keeps the channels and adds 2p to the height and width |
| Cnn.PadReady | cnn.go:76-77 | the unpadded layer on the padded input has the same output sizes and is ready |
| Cnn.TermPadding | cnn.go:91-99 | an out-of-bounds product omitted by the layer equals the product with a zero from the padded tensor |
| Cnn.RowSumSame | cnn.go:89-99 | window sums over equal terms are equal |
| Cnn.ChannelSumSame | cnn.go:88-100 | channel sums over equal terms are equal |
| Cnn.ChannelsSumSame | cnn.go:87-101 | sums over all channels of equal terms are equal |
| Cnn.ConvPaddingIsZeroPadding | cnn.go:70-108 | with padding p ≥ 0, the result equals an unpadded convolution of the input surrounded by p zeros |
| Cnn.ConvOnesExample | cnn.go:76-105 | a 1x4x4 input with a single 2x2 all-ones filter, stride 1 and padding 0 gives a 1x3x3 output whose cells are the 2x2 window sums plus the bias |
| Cnn.ConvOutSizeTruncates | cnn.go:76 | for n = 2, F = 3, P = 0, S = 2 the output size is 1, where a floor division would give 0 |
| Cnn.ConvFilterLargerThanInput | cnn.go:70-108 | a 3x3 filter with stride 1 and no padding over a 1x2x1 input is accepted and returns the 1 x 0 x (−1) tensor with one empty plane, not an error |
| Cnn.ConvWithoutFilters | cnn.go:79-107 | with no filters every input of the right channel count is accepted, whatever the output sizes, and the result has no planes |
| Cnn.NewMaxPool2D | cnn.go:117-119 | a layer with the given pool size and stride |
| Cnn.MaxPool2D.Forward | cnn.go:122-149 | for every non-zero stride, output sizes NewTensor3D can allocate (including 0 or negative sizes that leave no cells) and in-bounds reads whenever there is a cell: the input's channel count and sizes (n − P)/S + 1 (truncating); every cell is the PoolCell fold of its window |
| Cnn.PoolMax | cnn.go:131-141 | the window loops, starting from the window's first value and replacing it on a strictly larger one, compute PoolCell |
| Cnn.RowMaxBounds | cnn.go:134-140 | the running maximum over a window row is at least its start and every value seen, and is one of them |
| Cnn.WindowMaxBounds | cnn.go:133-141 | the same over the whole window |
| Cnn.PoolCellIsWindowMax | cnn.go:131-143 | every pooled cell is at least every value of its P x P window and, for P ≥ 1, equals one of them |
| Cnn.PoolInBounds | cnn.go:123-137 | with S ≥ 1, P ≥ 1 and H, W ≥ P, every index the loops read is in bounds, and both output sizes are at least 1 |
| Cnn.EmptyPoolReadsPastEnd | cnn.go:123-131 | with P = 0 and S = 2 on a 4 x 4 input there are 3 outputs per axis, and the initial read of the last one is at index 4, past the end |
| Cnn.PoolIdentity | cnn.go:122-149 | pool size 1 and stride 1 return the input unchanged |
| Cnn.PoolLargerThanInput | cnn.go:122-149 | a 3x3 pool with stride 1 over a 1x2x1 input reads nothing and returns the 1 x 0 x (−1) tensor with one empty plane |
| Cnn.PoolWithoutChannels | cnn.go:122-149 | an input without channels is pooled, with any pool size and non-zero stride, into a tensor without planes of the computed sizes |

## Left out

- Randomness: `RandomMatrix` (matrix.go:25-33) is not modelled. NewDense takes the standard-normal draws as a parameter, and NewConvLayer takes the filter values (drawn from [-0.1, 0.1) by the source) as a parameter.
- Floating point: float64 arithmetic is exact real arithmetic, so rounding, NaN, infinities and overflow are not modelled. `math.Exp`, `math.Log` and `math.Sqrt` are uninterpreted functions that carry only their sign facts, and `math.Pow` on the step count is exact iterated multiplication.
- Go panics (an index out of range, a nil loss or optimizer) are preconditions. An operation that a caller could make panic requires, for example, that the loss is compiled, that the stored optimizer state covers the parameter, and that a softmax row is not empty.
- Messages: `fmt.Errorf` texts are not modelled. Errors are a datatype that carries the layer index and the wrapped layer error.
- Output: Fit's verbose printing (model.go:163-165) is not modelled. Fit instead returns each epoch's mean loss so its value can be stated.
- Model.Sequential.Fit: with batchSize 0 the source's `i += batchSize` (model.go:132) never ends, and with a negative batchSize `NewMatrix(end-i, …)` (model.go:139) panics; the model requires batchSize > 0 whenever X has rows.
- Model.Sequential.Fit: for an empty X the source's epoch mean is 0/0 (NaN); the model reports it as an undefined mean `None`.
- Aliasing: the Dense weights, gradient buffers and cached input are values, not shared pointers. Dense.Forward copies the input into the cache, and UpdateWeights' in-place copy-back is `Layer.WithParam`. Code that kept an alias to a parameter matrix would see the update in Go; that is not modelled.
- Gradient checks: no finite-difference gradient check is modelled, because it needs analysis over floats.
- Layers.Layer.Backward: a Dense layer that never ran Forward holds an empty cache, the same value a Forward on an empty batch leaves. Backward on it succeeds with a zero weight gradient, where Go dereferences the nil `lastInput` (layers.go:91) and panics when inputSize and outputSize are positive. Passes.BackwardAll and Model.Sequential.Backward inherit this.
- Cnn.ConvLayer.Forward: the output is built plane by plane as sequences (through the cell methods), not written into a pre-zeroed buffer.
- Cnn.ConvLayer.Forward and Cnn.MaxPool2D.Forward: there is no backward pass, because the source has none.
- Cnn.ConvLayer.Forward and Cnn.MaxPool2D.Forward: their preconditions are exactly Go's panics once the channels agree: a zero stride (integer division), an output size NewTensor3D would pass to make while negative, and, for pooling, a read outside the input. Tensor heights and widths are integers, as in Go, so the tensors without cells that an oversized filter or pool produces are results, not excluded inputs.
- Cnn.PadTensor: the zero border exists only for a tensor of natural height and width, so Cnn.PadReady, Cnn.TermPadding and Cnn.ConvPaddingIsZeroPadding are stated for those inputs; the source has no padding function of its own.
- Cnn.PoolInBounds: it needs P ≥ 1 as well as S ≥ 1 and H, W ≥ P. With P = 0 the first read of the last window is out of range, as `Cnn.EmptyPoolReadsPastEnd` shows.
- Cnn.PoolCellIsWindowMax: for P ≤ 0 the cell is the first value of its window, read before the empty window loops.
- Output sizes: the convolution and pooling sizes use Go's truncating division (`Cnn.GoDiv`), as the code does. A floor division would give a different size when the numerator is negative (`Cnn.ConvOutSizeTruncates`).
- Losses.MSEExample: it proves the gradient of P = [[2]], T = [[0]] is [[2]], which is what loss.go:157 computes, −(t − p)/N.
