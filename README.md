# A verified model of the CNN-Library training core

CNN-Library (Matumba) is a small C++ library that trains convolutional neural
networks on Armadillo cubes. This project models its core in Dafny:

- the `tensor4d` container and its copy and move quirks;
- the reshaping of a cube into a column and back;
- the ReLU and tanh activations;
- the Euclidean and cross-entropy costs;
- the four layer kinds (convolutional, max-pooling, fully connected, softmax)
  with their `Forward`, `Backward` and `Backward2nd` passes;
- the layers' weight loading, saving and random initialisation;
- the network that chains the layers forward and propagates the error back;
- the two solvers, plain stochastic gradient descent and stochastic diagonal
  Levenberg-Marquardt, with their test and snapshot schedules.

Every cube is a `Cube<real>` value indexed `(row, column, slice)`, and
`Tabulate`/`At`/`Set` build and read it. A `Tensor4d` is a datatype holding a
sequence of cubes and the four metadata fields of the C++ struct. Each layer
is a `class` whose `Forward`, `Backward` and weight methods update its fields
in place, as the C++ objects do. The network is a class holding a sequence of
layers. The loops of the source (im2col, pooling, reshaping, the solver
updates, the loops over layers and over weight files) are methods with loop
invariants. Each is proved against a specification function, and that
function's properties are proved as lemmas.

The solvers see the network through a `Source`. It is a value that, for an
epoch, a sample index and the current weights, yields the sample's error,
gradient list and curvature list. The runs of `Solve` are functions
(`SgdRun`, `SdlmRun`) over that value. The `Solve` methods update the layers'
weights in place and are proved to end in the state those functions
describe. Like the source, the update adds `lr * g` to each weight. With the
gradient the backward pass delivers, this steps up the loss, not down.

## Model

| member | source | states |
|---|---|---|
| Tensors.Default | include/cnn/util.hpp:59-62 | the default tensor holds no cubes, every extent is zero, and it is well formed |
| Tensors.Sized | include/cnn/util.hpp:64-70 | the sized constructor gives exactly `count` cubes of height x width x depth, with the metadata equal to the arguments |
| Tensors.Copied | include/cnn/util.hpp:72-76 | a copy keeps the cubes, rows and columns, but sets both the slice count and the cube count to the source's column count |
| Tensors.MoveConstructedFrom | include/cnn/util.hpp:78-81 | after a move construction the source has lost its cubes and keeps all four extents |
| Tensors.MovedFrom | include/cnn/util.hpp:93-106 | after a move assignment the source has no cubes and zero rows and columns; its slice and cube counts stay as they were |
| Tensors.MoveAssign | include/cnn/util.hpp:93-106 | the target of a move assignment becomes the copy of the source, and the source becomes the moved-from tensor |
| Tensors.CopiedIdempotent | include/cnn/util.hpp:83-91 | copying a copy changes nothing more |
| Tensors.CopiedFaithfulIff | include/cnn/util.hpp:72-91 | a copy equals its original exactly when the slice and cube counts already equal the column count |
| Tensors.CopiedWellFormedIff | include/cnn/util.hpp:72-91 | a non-empty well-formed tensor stays well formed under copy if and only if its slice and cube counts equal its column count |
| Tensors.ConvolutionBiasMetadata | include/cnn/convolutional_layer.hpp:76 | the convolution bias tensor (1 x 1 x depth, count cubes), once move-assigned, claims one slice and one cube while still holding `count` cubes of `depth` slices; it is well formed only when depth and count are both 1 |
| Tensors.ColumnBiasUnaffected | include/cnn/fully_connected_layer.hpp:40 | a dense layer's bias tensor (n x 1 x 1, one cube) is unchanged by the move assignment |
| Reshape.Vectorised | src/cnn/util.cpp:19-35 | the column holds every element, element (r, c, s) sitting at s * rows * cols + c * rows + r |
| Reshape.Unvectorised | src/cnn/util.cpp:37-62 | the cube of the requested shape whose element (r, c, s) is read from that same offset of the column |
| Reshape.UnvectoriseVectorise | src/cnn/util.cpp:19-62 | unvectorising the vectorised cube to its own shape gives the cube back |
| Reshape.VectoriseUnvectorise | src/cnn/util.cpp:19-62 | vectorising an unvectorised column gives the column back |
| Reshape.Vectorise | src/cnn/util.cpp:19-35 | the slice-by-slice span copies build exactly the vectorised cube |
| Reshape.Unvectorise | src/cnn/util.cpp:37-62 | under the asserts at 43-46, the slice and column loops build exactly the unvectorised cube |
| Activations.ActivationFunction.Apply | include/cnn/activation_function.hpp:51-86 | ReLU stores a non-negative value: the input when it is non-negative, else 0; Tanh stores tanh of the input |
| Activations.ReluDerivativeRange | include/cnn/activation_function.hpp:71-74 | ReLU's `Derivative`, the logistic function, lies strictly between 0 and 1 |
| Activations.TanhDerivativeRange | include/cnn/activation_function.hpp:88-91 | 1 - tanh^2 lies in (0, 1] |
| Activations.DerivativeRange | include/cnn/activation_function.hpp:71-91 | every derivative lies in (0, 1] |
| Activations.Applied | include/cnn/activation_function.hpp:51-86 | the activated cube has the input's shape and holds the activation of each element |
| Activations.ReluIdempotent | include/cnn/activation_function.hpp:51-69 | applying ReLU twice gives the same cube as once |
| Activations.ReluOutput | include/cnn/activation_function.hpp:51-69 | each ReLU output is non-negative, equals a non-negative input and is 0 for a negative one |
| Activations.Compute | include/cnn/activation_function.hpp:51-86 | `Compute(src, dst)` writes the activation at every position of src and leaves the rest of dst as it was; on equal shapes, dst becomes the activated src |
| Activations.SlopeRange | src/cnn/convolutional_layer.cpp:284-291 | the slope used in `Backward` (the derivative) and in `Backward2nd` (its square) lies in (0, 1] |
| Activations.SlopeShrinks | src/cnn/fully_connected_layer.cpp:63-70 | scaling an error by a slope keeps its sign and never grows it, and the result is zero exactly when the error is |
| Activations.Slopes | src/cnn/convolutional_layer.cpp:165-174 | the dfdz loops give the slope at every receptive-field element, each in (0, 1] |
| Activations.ColumnSlopes | src/cnn/fully_connected_layer.cpp:63-67 | the dense dfdz column holds the slope at each receptive-field row, each in (0, 1] |
| Costs.CostFunction.Derivative | include/cnn/cost_function.hpp:64-67 | the derivative d satisfies hypothesis = label + d, and is zero exactly when label and hypothesis agree |
| Costs.EuclidianNonNegative | include/cnn/cost_function.hpp:57-62 | the Euclidean loss is never negative |
| Costs.EuclidianZeroIff | include/cnn/cost_function.hpp:57-62 | the Euclidean loss is zero if and only if the labels equal the hypothesis |
| Costs.EuclidianSymmetric | include/cnn/cost_function.hpp:57-62 | swapping labels and hypothesis leaves the Euclidean loss unchanged |
| Costs.EuclidianFromDerivative | include/cnn/cost_function.hpp:57-67 | the Euclidean loss is half the squared norm of the vector of derivatives the network seeds backpropagation with |
| Dense.Affine | src/cnn/fully_connected_layer.cpp:44-46 | receptive-field entry j is column j of W dotted with the input, plus bias j |
| Dense.TransposeTimes | src/cnn/fully_connected_layer.cpp:44-45 | entry j of W'x is column j of W dotted with x |
| Dense.Times | src/cnn/fully_connected_layer.cpp:76 | entry i of W d is row i of W dotted with d |
| Dense.Outer | src/cnn/fully_connected_layer.cpp:82-83 | entry (i, j) of x d' is x_i * d_j |
| Dense.Squared | src/cnn/fully_connected_layer.cpp:111-118 | `arma::square` squares every element and keeps the shape |
| Dense.Transposition | src/cnn/fully_connected_layer.cpp:44-76 | the forward product and the error propagation are adjoint: <W'x, d> = <x, W d> |
| Dense.OuterIsGradient | src/cnn/fully_connected_layer.cpp:82-83 | the weight gradient x d' paired with any V equals <V'x, d>, so it is the derivative of the forward pairing with respect to W |
| Dense.SquaredPropagationNonNegative | src/cnn/fully_connected_layer.cpp:111 | square(W) d has no negative entry when d has none |
| Dense.SquaredOuterNonNegative | src/cnn/fully_connected_layer.cpp:117-118 | square(x) d' has no negative entry when d has none |
| Dense.MaxOf | include/cnn/softmax_layer.hpp:43 | the maximum bounds every element of the column |
| Dense.MaxOfAttained | include/cnn/softmax_layer.hpp:43 | the maximum is one of the elements |
| Dense.SoftmaxRange | include/cnn/softmax_layer.hpp:41-52 | every softmax output lies in (0, 1] |
| Dense.SoftmaxSumsToOne | include/cnn/softmax_layer.hpp:41-52 | the softmax outputs sum to 1 |
| Dense.SoftmaxMonotone | include/cnn/softmax_layer.hpp:41-52 | a larger input never gets a smaller output |
| Dense.ComputeOutput | include/cnn/softmax_layer.hpp:41-52 | the loop writes exp(rf_r - max) / sum at (r, 0, 0) and leaves the rest of the output; on equal shapes the output is the softmax of rf |
| Convolution.ForwardInput | src/cnn/convolutional_layer.cpp:89-96 | the padded input has padding added on both sides of rows and columns, and the same slices |
| Convolution.ForwardInputAt | src/cnn/convolutional_layer.cpp:89-96 | inside the border the padded input is the input shifted by the padding; on the border it is 0 |
| Convolution.UnpaddedInputUnchanged | src/cnn/convolutional_layer.cpp:89-90 | without padding the layer's input is the input itself |
| Convolution.PaddingCrop | src/cnn/convolutional_layer.cpp:94-96 | cropping the padding off the padded input gives the input back |
| Convolution.OutputExtentLaw | src/cnn/convolutional_layer.cpp:101-102 | (n - k) / stride + 1 windows fit and one more would not; when stride divides n - k, the last window ends on the edge |
| Convolution.Im2col | src/cnn/convolutional_layer.cpp:21-50 | input2col holds each window's vectorised slices in column col * height + row, and kernel2col holds each filter's vectorised slices in its row |
| Convolution.MatMul | src/cnn/convolutional_layer.cpp:106 | entry (i, j) of the product is row i dotted with column j |
| Convolution.Im2colProduct | src/cnn/convolutional_layer.cpp:104-106 | entry (k, col * height + row) of kernel2col * input2col is the cross-correlation of filter k with the window at (row, col) |
| Convolution.CorrelationFlat | src/cnn/convolutional_layer.cpp:35-47 | the dot product of the flattened filter and window is their cross-correlation over the slices |
| Convolution.ReceptiveField | src/cnn/convolutional_layer.cpp:117-125 | rf(r, c, k) is entry (k, c * height + r) of the product plus the sum of filter k's bias slices |
| Convolution.BiasTotal | src/cnn/convolutional_layer.cpp:119-122 | the bias of filter k is the sum over the bias tensor's slice count |
| Convolution.FilterSlice | src/cnn/convolutional_layer.cpp:123-124 | slice k of rf becomes the reshaped row k plus the bias; the other slices are unchanged |
| Pooling.ColumnArgMax | src/cnn/pooling_layer.cpp:56-57 | the row of the first maximum of a column span |
| Pooling.WindowArgMax | src/cnn/pooling_layer.cpp:56-57 | `max(rowIdx, colIdx)` finds the first maximum of the window in column-major order |
| Pooling.FirstMaxUnique | src/cnn/pooling_layer.cpp:56-57 | a window has only one first maximum |
| Pooling.Source | src/cnn/pooling_layer.cpp:56-59 | each window's flagged position lies inside the window and is its first maximum |
| Pooling.PoolMax | src/cnn/pooling_layer.cpp:56-58 | the pooled value is at least every element of its window |
| Pooling.SourceDistinct | src/cnn/pooling_layer.cpp:51-59 | distinct windows have distinct flagged positions, since a kernel no larger than the stride makes them disjoint |
| Pooling.Forward | src/cnn/pooling_layer.cpp:22-64 | rf has the output extents and holds each window's maximum; connect is 1 exactly at the windows' first maxima and 0 elsewhere |
| Pooling.OneFlagPerWindow | src/cnn/pooling_layer.cpp:46-59 | inside a window, connect is 1 at exactly one position, the window's first maximum |
| Pooling.FlagsLocateMax | src/cnn/pooling_layer.cpp:108-110 | the first maximum of a window of connect is the first maximum of the same window of the input |
| Pooling.Backward | src/cnn/pooling_layer.cpp:94-117 | each error entry lands on the flagged position of its window; every other position gets 0 |
| Pooling.RoutesToMax | src/cnn/pooling_layer.cpp:81-117 | after a forward pass, the backward pass routes each window's error to the input's own maximum and zeroes the rest |
| Pooling.WrittenPoolMax | src/cnn/pooling_layer.cpp:56-57 | the pooled value as written, with the kernel height as both spans, bounds that square span |
| Pooling.NarrowSpanMissesMax | src/cnn/pooling_layer.cpp:56-57 | on a 1 x 2 input [0 1] with a 1 x 2 kernel at stride 2, the written span pools 0 where the window's maximum is 1 |
| Pooling.NarrowSpanInput | src/cnn/pooling_layer.cpp:56-57 | such an input exists, and the kernel fits it with one window |
| WeightFiles.Readable | include/cnn/base_layer.hpp:154-160 | the count of records the loop reads before the first failure, up to the limit |
| WeightFiles.Interleaved | include/cnn/base_layer.hpp:171-177 | a save writes weight cube n and then bias cube n, for every n |
| WeightFiles.Drawn | include/cnn/base_layer.hpp:186-191 | cube n below the count becomes 0.1 times draw n; the others keep their values |
| WeightFiles.SaveLoadRoundTrip | include/cnn/base_layer.hpp:147-179 | loading what a save wrote reads every record and gives back every weight and bias cube |
| WeightFiles.LoadFailsFirst | include/cnn/base_layer.hpp:155-158 | when the first read fails, nothing is read, weight cube 0 is emptied and the biases stay |
| Layers.VectorisedColumn | src/cnn/fully_connected_layer.cpp:31-35 | vectorising a column gives the column, so both branches of the input check agree |
| Layers.DenseInput | src/cnn/fully_connected_layer.cpp:31-35 | a dense layer keeps a column input and vectorises any other |
| Layers.DenseField | src/cnn/fully_connected_layer.cpp:38-46 | rf_j = column j of W dotted with the columnised input, plus bias j |
| Layers.DenseResponse | src/cnn/fully_connected_layer.cpp:31-46 | the stored input is the columnised input, and rf is W'x + b |
| Layers.Activate | src/cnn/fully_connected_layer.cpp:48-52 | the output is the activation of rf |
| Layers.Normalise | src/cnn/softmax_layer.cpp:45-48 | the softmax layer's output is the softmax of rf |
| Layers.OutShape | src/cnn/pooling_layer.cpp:27-37 | dense layers output a column of nCols entries; convolution gives nFilters slices; pooling keeps the slices; both give positive extents |
| Layers.ConvOutShape | src/cnn/convolutional_layer.cpp:101-102 | the convolution's output is (padded height - kernel height) / stride + 1 by the same for width, by nFilters |
| Layers.FullyConnectedForward | src/cnn/fully_connected_layer.cpp:21-54 | input, rf = W'x + b and output = f(rf) are stored |
| Layers.SoftmaxForward | src/cnn/softmax_layer.cpp:20-49 | input, rf = W'x + b and output = softmax(rf) are stored |
| Layers.PaddedInput | src/cnn/convolutional_layer.cpp:89-96 | the stored input is the zero-padded input |
| Layers.CrossCorrelation | src/cnn/convolutional_layer.cpp:98-106 | entry (k, c * oh + r) is filter k correlated with window (r, c) |
| Layers.ConvField | src/cnn/convolutional_layer.cpp:98-125 | rf(r, c, k) is filter k correlated with window (r, c) of the padded input, plus filter k's bias sum |
| Layers.ConvForward | src/cnn/convolutional_layer.cpp:79-139 | padded input, convolved rf, and output = f(rf), or rf itself without an activation |
| Layers.PoolForward | src/cnn/pooling_layer.cpp:22-79 | input kept, rf = window maxima, connect = first-maximum flags, output = rf |
| Layers.Respond | include/cnn/base_layer.hpp:33 | `Forward` of each layer kind leaves its kind's buffers; only pooling changes connect |
| Layers.Upstream | src/cnn/convolutional_layer.cpp:150-153 | a column error is unvectorised to the output's shape; any other error is kept |
| Layers.UpstreamElements | src/cnn/convolutional_layer.cpp:150-153 | the reshaped error has the same elements in the same order |
| Layers.ReshapeError | src/cnn/convolutional_layer.cpp:150-153 | the reshaping step computes exactly that error |
| Layers.ScaledBySlopes | src/cnn/convolutional_layer.cpp:175 | `e %= dfdz` multiplies each error entry by the slope at rf |
| Layers.ScaleBySlopes | src/cnn/convolutional_layer.cpp:165-175 | the passed error is the error times the slope at each rf element |
| Layers.ScaleColumnBySlopes | src/cnn/fully_connected_layer.cpp:63-70 | the dense passed error is the error times the slope at each rf row |
| Layers.DenseEmit | src/cnn/fully_connected_layer.cpp:71-84 | local loss = W d (square(W) d), weight gradient = x d' (square(x) d'), bias gradient = d |
| Layers.FullyConnectedBackward | src/cnn/fully_connected_layer.cpp:56-122 | d = e * slope(rf), then local loss W d and gradients x d' and d; squared forms for `Backward2nd` |
| Layers.SoftmaxBackward | src/cnn/softmax_layer.cpp:51-110 | the error passes unscaled, then local loss W e and gradients x e' and e; squared forms for `Backward2nd` |
| Layers.ConvBackward | src/cnn/convolutional_layer.cpp:142-257 | the reshaped error times the slope at rf, a local loss of the input's shape, and gradient tensors of the weights' and biases' shapes |
| Layers.ConvGradients | src/cnn/convolutional_layer.cpp:177-180 | the gradient pair has the weights' extents and nFilters cubes, and 1 x 1 x bias-slices with nFilters cubes |
| Layers.PoolBackward | src/cnn/pooling_layer.cpp:81-131 | the reshaped error is routed to the flagged positions, zero elsewhere, with two empty gradient tensors |
| Layers.Backpropagate | include/cnn/base_layer.hpp:35-39 | `Backward`/`Backward2nd` of each layer kind gives that kind's gradients, passed error and local loss |
| Layers.LoadCubes | include/cnn/base_layer.hpp:154-160 | the loop reads records until the first failure; ok iff all 2 * count were read; loaded cubes take the records, the failing one is emptied |
| Layers.DrawCubes | include/cnn/base_layer.hpp:186-191 | every cube below the count becomes 0.1 times its draw |
| Layers.Layer.ConvolutionalLayer | include/cnn/convolutional_layer.hpp:66-77 | weights of kernel height x width x depth with one cube per filter; the bias tensor's metadata says 1 x 1 x 1 x 1 while it holds `count` cubes of 1 x 1 x depth |
| Layers.Layer.MaxPoolingLayer | include/cnn/pooling_layer.hpp:62-69 | a pooling layer has no weights, no biases and no activation |
| Layers.Layer.FullyConnectedLayer | include/cnn/fully_connected_layer.hpp:35-41 | weights in x out in one cube, biases out x 1 in one cube |
| Layers.Layer.SoftmaxLayer | include/cnn/softmax_layer.hpp:35-39 | weights in x out in one cube, biases out x 1, no activation |
| Layers.Layer.SaveWeights | include/cnn/base_layer.hpp:165-179 | true with nothing written for a layer without weights; false on a closed stream; otherwise the interleaved cubes up to the first failing write, and ok iff all fitted |
| Layers.Layer.LoadWeights | include/cnn/base_layer.hpp:147-163 | true and unchanged without weights; false and unchanged on a closed stream; otherwise the cubes read in order, and the flag set only if every read succeeded |
| Layers.Layer.InitWeights | include/cnn/base_layer.hpp:181-193 | every weight and bias cube becomes 0.1 times its draw, and the flag is set unless the layer has no weights |
| Layers.Layer.Forward | include/cnn/base_layer.hpp:33 | the layer's buffers after `Forward(x)` are its kind's response to x, and the output has the computed shape |
| Layers.Layer.Propagate | include/cnn/base_layer.hpp:35-39 | the gradients, passed error and new local loss of one backward pass, first or second order |
| Layers.Layer.Backward | include/cnn/base_layer.hpp:35-36 | the first-order backward pass of the layer's kind |
| Layers.Layer.Backward2nd | include/cnn/base_layer.hpp:38-39 | the second-order backward pass, with squared slopes, weights and inputs |
| Network.Seeded | src/cnn/neural_network.cpp:39-43 | the seed error is a column of one entry per label |
| Network.SeededVanishes | src/cnn/neural_network.cpp:39-43 | a first-order seed entry is zero exactly when the hypothesis matches its label |
| Network.Seed | src/cnn/neural_network.cpp:37-66 | the loop builds the seed from `Derivative` (or `SecondDerivative`) of each label and hypothesis entry |
| Network.PipedGrow | src/cnn/neural_network.cpp:27-31 | a layer that responded to the previous layer's output extends the forward chain |
| Network.BackedGrow | src/cnn/neural_network.cpp:47-51 | a layer that took the next layer's local loss extends the backward chain one layer down |
| Network.NeuralNetwork.constructor | include/cnn/neural_network.hpp:83-89 | a new network has no layers, the given cost and is not initialised |
| Network.NeuralNetwork.AppendLayer | include/cnn/neural_network.hpp:91-94 | the layer goes last and the others stay |
| Network.NeuralNetwork.InitWeights | include/cnn/neural_network.hpp:106-111 | every layer is redrawn from its draws, and the network is initialised |
| Network.NeuralNetwork.LoadWeights | include/cnn/neural_network.hpp:118-128 | layers load in order from the stream each leaves; loading stops at the first failure, later layers are untouched, and the flag is set only if all loaded |
| Network.NeuralNetwork.SaveWeights | include/cnn/neural_network.hpp:130-141 | false with nothing written when uninitialised or empty; otherwise the layers save in order up to the first failure |
| Network.NeuralNetwork.Forward | src/cnn/neural_network.cpp:21-32 | layer 0 responds to the input and layer i to layer i - 1's output; the hypothesis has the last shape |
| Network.NeuralNetwork.Pass | src/cnn/neural_network.cpp:34-75 | the seed goes to the last layer, and each layer's backward pass takes the local loss of the layer above; one gradient pair per layer |
| Network.NeuralNetwork.SeedAndBackward | src/cnn/neural_network.cpp:37-51 | the chain of backward passes started from the seed |
| Network.NeuralNetwork.Backward | src/cnn/neural_network.cpp:47-50 | one layer's backward pass, first or second order |
| Network.NeuralNetwork.Error | include/cnn/neural_network.hpp:184-196 | for the Euclidean loss, the error (taken on the softmax rf or else the output) is non-negative and zero iff the hypothesis matches the labels |
| Solvers.BaseSolver | include/cnn/solver.hpp:91-103 | the configuration stores every argument unchanged, with an empty snapshot prefix by default |
| Solvers.SgdSolver | include/cnn/solver.hpp:57-63 | the SGD solver's configuration is the base configuration |
| Solvers.SdlmSolver | include/cnn/solver.hpp:105-115 | the base configuration plus mu and gamma, unchanged |
| Solvers.SteppedCube | src/cnn/Solver.cpp:76-83 | each element inside the tensor's extents moves by the rule; any other element of the cube keeps its value |
| Solvers.StepCube | src/cnn/Solver.cpp:76-83 | the slice, column and row loops compute exactly the stepped cube |
| Solvers.SteppedTensor | src/cnn/Solver.cpp:75-84 | every cube of the tensor is stepped, and the metadata is kept |
| Solvers.StepTensor | src/cnn/Solver.cpp:75-95 | the item loop computes exactly the stepped tensor |
| Solvers.SteppedTensorElement | src/cnn/Solver.cpp:75-84 | one element of a stepped tensor: the rule's step where visited, the old weight elsewhere |
| Solvers.StepLayers | src/cnn/Solver.cpp:72-96 | the layers' weights and biases become the stepped weight list |
| Solvers.SteppedKeepsLayout | src/cnn/Solver.cpp:72-96 | an update keeps every layer's layout |
| Solvers.Combine | src/cnn/Solver.cpp:47-56 | the lists are combined cube by cube |
| Solvers.Quotient | src/cnn/Solver.cpp:59-68 | every element is divided by the batch size |
| Solvers.Blended | src/cnn/Solver.cpp:187-203 | (1 - gamma) * old + gamma * new, element by element |
| Solvers.BatchMean | src/cnn/Solver.cpp:42-68 | the mean gradient list has the batch's layout |
| Solvers.BatchMeanOfCopies | src/cnn/Solver.cpp:42-68 | the mean of k equal gradient lists is that list |
| Solvers.BatchMeanNonNegative | src/cnn/Solver.cpp:150-182 | the mean of non-negative curvature lists is non-negative |
| Solvers.CombinedNonNegative | src/cnn/Solver.cpp:187-203 | a sum, quotient or blend (gamma in [0, 1]) of non-negative lists is non-negative |
| Solvers.Accumulate | src/cnn/Solver.cpp:42-57 | the batch loop sums the errors, the gradients and (for SDLM) the curvatures |
| Solvers.EveryIffMultiple | src/cnn/Solver.cpp:98 | an epoch is scheduled exactly when the interval is non-zero and divides epoch + 1 |
| Solvers.Decimal | src/cnn/Solver.cpp:100 | the decimal form of a number is non-empty, all digits, without a leading zero |
| Solvers.DecimalRoundTrip | src/cnn/Solver.cpp:100 | reading the decimal form back gives the number |
| Solvers.SnapshotName | src/cnn/Solver.cpp:100 | the snapshot path is the prefix, `_` and the digits of epoch + 1 |
| Solvers.SnapshotNamesDistinct | src/cnn/Solver.cpp:98-100 | different epochs give different snapshot paths |
| Solvers.SgdEpoch | src/cnn/Solver.cpp:32-96 | one SGD epoch keeps the weights' layout |
| Solvers.SgdRun | src/cnn/Solver.cpp:32-109 | k epochs record k training errors, no tests, and one snapshot per scheduled epoch |
| Solvers.SgdSolve | src/cnn/Solver.cpp:24-110 | the layers end with the weights of `SgdRun` over max_epoch epochs, and the errors and snapshots are that run's |
| Solvers.SgdEpochIsStep | src/cnn/Solver.cpp:72-96 | an SGD epoch is the update by the batch's mean gradient |
| Solvers.SgdSteppedElement | src/cnn/Solver.cpp:79-80 | each visited weight becomes w + lr * g |
| Solvers.SgdEqualGradients | src/cnn/Solver.cpp:42-68 | when every sample gives the same gradient, the epoch gradient is that gradient |
| Solvers.SmoothedFits | src/cnn/Solver.cpp:186-203 | the smoothed curvature keeps the layout and stays non-negative |
| Solvers.SmoothedIsCurrent | src/cnn/Solver.cpp:186-203 | in the first epoch, or with gamma = 1, the smoothed curvature is the current one |
| Solvers.SdlmEpoch | src/cnn/Solver.cpp:124-236 | one SDLM epoch keeps the weights' layout and carries a non-negative curvature of that layout |
| Solvers.SdlmRun | src/cnn/Solver.cpp:124-249 | k epochs record k training errors, one test per scheduled epoch and one snapshot per scheduled epoch |
| Solvers.SdlmSolve | src/cnn/Solver.cpp:112-250 | the layers end with the weights of `SdlmRun` over max_epoch epochs, and the errors, tests and snapshots are that run's |
| Solvers.SdlmEpochIsStep | src/cnn/Solver.cpp:205-236 | an SDLM epoch is the update by the mean gradient with the smoothed curvature, which it carries on |
| Solvers.SdlmSteppedElement | src/cnn/Solver.cpp:213-216 | each visited weight becomes w + lr / (h + mu) * g, with h + mu non-zero |
| Solvers.TestPhase | src/cnn/Solver.cpp:126-139 | the test error is the mean of the test samples' errors |

## Left out

- Every number is a `real`: single- and double-precision rounding, overflow to infinity and NaN are not modelled, and the float/double mix between files is ignored.
- `exp`, `tanh` and `trunc_log` are values of the activation or cost, with only e^x > 0, monotone e^x and -1 < tanh x < 1 assumed where a proof needs them.
- Costs.CostFunction.Compute: Armadillo rejects columns of different lengths, so it requires equal lengths. It has no ensures; its properties are the `Euclidian*` lemmas.
- Costs.CostFunction.SecondDerivative: no cost class in the source defines it; it is a value of the cost function.
- Layers.Layer.InitWeights: `arma::randn` is not modelled; the normal draws are parameters.
- Network.NeuralNetwork.InitWeights: takes one pair of draw lists per layer for the same reason.
- Layers.Layer.LoadWeights: the stream is an abstract `InStream` of records, each a stored cube or a failed read, not Armadillo's binary format; `in.clear()` is not modelled.
- Layers.Layer.SaveWeights: the stream is an abstract `OutStream` with room for a number of cubes; `out.clear()` is not modelled.
- Snapshot files, the `ofstream` opening and every console message are left out; only the schedule (`Every`) and the path (`SnapshotName`) remain.
- Solvers.SgdSolve: the network is seen through a `Source` of per-sample errors and gradients (image loading, `Forward`, `Error` and `Backpropagation` folded into it). Its gradient layout is assumed through `GradientsFit`, not derived from `Pass`. Its `modifies` covers only the weights, not the layer buffers the source's passes overwrite. A batch size of 0, which the source divides by, is excluded.
- Solvers.SdlmSolve: the same abstractions. It also assumes mu > 0, gamma in [0, 1] and non-negative curvature from the source (`CurvaturesFit`), while the source accepts any float mu and gamma. Together these keep each local rate's denominator h + mu non-zero.
- Reshape.Vectorise: requires every slice to be non-empty when there are slices; a cube with slices but zero rows or columns makes the source's span `size + n_elem_slice - 1` wrap around, an Armadillo error.
- Reshape.Unvectorise: requires the source to be a column, besides the asserts at util.cpp:43-46; with equal element counts and non-zero extents, any other shape makes the row span leave slice 0.
- Pooling.Forward: requires a kernel no larger than the stride that tiles the input exactly; otherwise the stride loops open windows that leave the cube, an Armadillo bounds error.
- Layers.Layer.Forward: a pooling layer is accepted only with a square kernel, where the span taken from the kernel height for both extents is the window the layer means (see Findings).
- Layers.ConvBackward: the source computes neither the gradients nor the local loss (convolutional_layer.cpp:181-254 is commented out); the model fixes only their shapes.
- Network.NeuralNetwork.Pass: stated over the layer state on entry; the seed reads `Hypothesis()` before any layer changes.
- The image loader, `InputLayer`, `LoadTrainImage`, `LoadTestImage`, `SetInputImage`, `LabelName` and the OpenCV conversions are not part of this model; the input cube and labels are parameters.
- `Size`, `Output(i)`, `ReceptiveField(i)` and `Weights(n)` are plain field reads on the model's classes.
- Concurrency and the shared_ptr aliasing between a layer's output and the next layer's input are not modelled: buffers are cube values.

## Findings

| source | as written | input that shows it | evidently intended | confidence | as-written member | corrected member |
|---|---|---|---|---|---|---|
| src/cnn/pooling_layer.cpp:56-57 | both spans of the pooling window use `kernel_size_.height`, so a non-square kernel pools a height x height square | a 1 x 2 input [0 1], kernel 1 x 2, stride 2: the one window covers both elements, but the written span pools 0 where the maximum is 1 | the column span uses the kernel width | not executed | Pooling.NarrowSpanMissesMax | Pooling.Forward |
