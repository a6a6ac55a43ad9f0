/** The layers of the network. `BaseLayer` and its four subclasses become
    one class whose `kind` names the subclass and carries its
    hyperparameters; the virtual `Forward`, `Backward` and `Backward2nd`
    dispatch on it. The three buffers a forward pass fills are kept
    together in one `Buffers` value; whether they exist yet (the
    `shared_ptr`s are null until the first `Forward`) is a flag of the
    layer. A backward pass multiplies the caller's error
    buffer in place, so the methods return that buffer's new value for the
    caller to store.

    The work of each pass is done by a module-level method on values (the
    weights, the buffers, the signal), and each class method hands its
    fields to one of them and stores the result. */
module Layers {
  import opened Cubes
  import opened Tensors
  import opened Reshape
  import opened Activations
  import opened Dense
  import opened Convolution
  import opened WeightFiles
  import Pooling

  datatype Option<T> = None | Some(value: T)

  /** The subclass of a layer with its hyperparameters. */
  datatype LayerKind =
    | Conv(kernel: KernelSize, padding: KernelSize, nFilters: nat, stride: nat)
    | MaxPool(kernel: KernelSize, stride: nat)
    | FullyConnected
    | SoftMax(exp: real -> real)

  /** Rows, columns and slices of a cube. */
  type Shape = (nat, nat, nat)

  /** The buffers `input_`, `receptiveField_` and `output_` of a layer. */
  datatype Buffers = Buffers(input: Cube<real>, receptiveField: Cube<real>, output: Cube<real>)

  /** A column is its own vectorisation, so the fully connected and softmax
      layers may skip `vectorise` for column inputs. */
  lemma VectorisedColumn(x: Cube<real>)
    requires x.Valid() && x.IsColumn()
    ensures Vectorised(x) == x
  {
    var v := Vectorised(x);
    forall r: nat, c: nat, s: nat | x.InBounds(r, c, s) ensures v.At(r, c, s) == x.At(r, c, s) {
      assert Index(x.rows, x.cols, r, c, s) == r;
    }
    Extensionality(v, x);
  }

  /** The input a dense layer works on: the signal itself when it is a
      column, its vectorisation otherwise. */
  function Columnised(x: Cube<real>): (v: Cube<real>)
    requires x.Valid()
    ensures v == Vectorised(x)
    ensures v.Valid() && v.IsColumn() && v.rows == x.NElem()
  {
    if x.IsColumn() then VectorisedColumn(x); x else Vectorised(x)
  }

  /** `b.slice(0).col(0)` as a column cube. */
  function FirstColumn(b: Cube<real>): (v: Cube<real>)
    requires b.Valid() && b.cols > 0 && b.slices > 0
    ensures v.Valid() && v.IsColumn() && v.rows == b.rows
    ensures forall i: nat :: i < b.rows ==> v.At(i, 0, 0) == b.At(i, 0, 0)
  {
    Tabulate(b.rows, 1, 1, (r: nat, c: nat, s: nat) requires r < b.rows => b.At(r, 0, 0))
  }

  /** The gradient pair `std::make_pair(tensor4d(h, w, d, count), ...)`
      builds for one tensor: the pair's move gives it the copy metadata. */
  predicate GradientShaped(t: Tensor4d, h: nat, w: nat, d: nat, count: nat) {
    && t.nRows == h && t.nCols == w && t.nSlices == w && t.nSize == w
    && |t.data| == count && t.CubesShaped(h, w, d)
  }

  /** A gradient tensor with a single given cube, as the dense layers fill
      `result.first` and `result.second`. */
  function SingleCube(c: Cube<real>): (t: Tensor4d)
    ensures t.data == [c] && t.nRows == c.rows && t.nCols == c.cols
    ensures t.nSlices == c.cols && t.nSize == c.cols
  {
    Copied(Tensor4d([c], 1, c.rows, c.cols, c.slices))
  }

  /** The `vectorise` step of the dense layers, skipped for a column. */
  method DenseInput(x: Cube<real>) returns (col: Cube<real>)
    requires x.Valid() && (x.IsColumn() || x.slices == 0 || x.rows * x.cols > 0)
    ensures col == Columnised(x)
  {
    if x.IsColumn() {
      col := x;
    } else {
      col := Vectorise(x);
    }
  }

  /** `activationFunction_->Compute(rf, output)` into a buffer of the
      receptive field's shape. */
  method Activate(f: ActivationFunction, rf: Cube<real>, buffer: Cube<real>) returns (out: Cube<real>)
    requires rf.Valid() && buffer.Valid() && buffer.Shape() == rf.Shape()
    ensures out == Applied(f, rf)
  {
    out := Compute(f, rf, buffer);
  }

  /** `ComputeOutput` of the softmax layer into a buffer of the receptive
      field's shape. */
  method Normalise(exp: real -> real, rf: Cube<real>, buffer: Cube<real>) returns (out: Cube<real>)
    requires ExpPositive(exp) && IsVector(rf, rf.rows) && rf.rows > 0
    requires buffer.Valid() && buffer.Shape() == rf.Shape()
    ensures IsVector(out, rf.rows) && SoftmaxOf(exp, rf, out)
  {
    out := ComputeOutput(exp, rf, buffer);
  }

  // ---------------------------------------------------------------------
  // Forward: what each kind of layer demands and computes

  /** The weights a dense layer reads fit an input of shape s: matrix
      `weights.data[0]` is n_rows x n_cols, the first column of
      `biasWeights.data[0]` has n_cols entries, the input has n_rows
      elements, and an input that is not a column can be vectorised. */
  predicate DenseReady(w: Tensor4d, b: Tensor4d, s: Shape) {
    && |w.data| > 0 && IsMatrix(w.data[0])
    && w.data[0].rows == w.nRows && w.data[0].cols == w.nCols
    && |b.data| > 0 && b.data[0].Valid()
    && b.data[0].rows == w.nCols && b.data[0].cols > 0 && b.data[0].slices > 0
    && s.0 * s.1 * s.2 == w.nRows
    && ((s.1 == 1 && s.2 == 1) || s.2 == 0 || s.0 * s.1 > 0)
  }

  /** The receptive field of a dense layer: entry j is column j of the
      weight matrix dotted with the columnised input, plus bias j. */
  function DenseField(w: Tensor4d, b: Tensor4d, x: Cube<real>): (rf: Cube<real>)
    requires x.Valid() && DenseReady(w, b, x.Shape())
    ensures IsVector(rf, w.nCols)
    ensures forall j: nat :: j < w.nCols ==>
      rf.At(j, 0, 0) == ColumnDot(w.data[0], j, Columnised(x), w.nRows) + b.data[0].At(j, 0, 0)
  {
    Affine(w.data[0], Columnised(x), FirstColumn(b.data[0]))
  }

  /** The weights of a convolutional layer fit an input of shape s: one
      kH x kW x depth filter per output slice, a bias cube per filter, and
      a padded extent the windows tile exactly at the stride. */
  predicate ConvReady(kernel: KernelSize, padding: KernelSize, nFilters: nat, stride: nat, w: Tensor4d, b: Tensor4d, s: Shape) {
    && stride > 0
    && w.WellFormed() && w.nRows == kernel.height && w.nCols == kernel.width
    && w.nSize == nFilters && s.2 == w.nSlices
    && kernel.height <= s.0 + 2 * padding.height && kernel.width <= s.1 + 2 * padding.width
    && (s.0 + 2 * padding.height - kernel.height) % stride == 0
    && (s.1 + 2 * padding.width - kernel.width) % stride == 0
    && BiasFits(b, nFilters)
  }

  /** What `Forward` demands of a layer for an input of shape s: the
      source's asserts and the extents Armadillo checks. A pooling kernel
      must be square and no larger than the stride, as the window loops
      assume. */
  ghost predicate Configured(kind: LayerKind, activation: Option<ActivationFunction>, w: Tensor4d, b: Tensor4d, s: Shape) {
    match kind
    case FullyConnected => activation.Some? && DenseReady(w, b, s)
    case SoftMax(exp) => ExpPositive(exp) && DenseReady(w, b, s) && w.nCols > 0
    case Conv(kernel, padding, nFilters, stride) => ConvReady(kernel, padding, nFilters, stride, w, b, s)
    case MaxPool(kernel, stride) =>
      activation.None? && kernel.height == kernel.width && Pooling.Fits(s.0, s.1, kernel.height, kernel.height, stride)
  }

  /** The dense layers allocate their output buffer on the first call and
      reuse it afterwards, so a buffer already there has the output shape. */
  predicate PriorFits(kind: LayerKind, w: Tensor4d, existing: bool, prior: Cube<real>) {
    (kind.FullyConnected? || kind.SoftMax?) && existing ==>
      prior.Valid() && prior.Shape() == (w.nCols, 1, 1)
  }

  /** The output extents `Forward` computes for an input of shape s. */
  function OutShape(kind: LayerKind, w: Tensor4d, s: Shape): (t: Shape)
    requires kind.Conv? ==> kind.stride > 0 && kind.kernel.height <= s.0 + 2 * kind.padding.height && kind.kernel.width <= s.1 + 2 * kind.padding.width
    requires kind.MaxPool? ==> kind.stride > 0 && kind.kernel.height <= s.0 && kind.kernel.width <= s.1
    ensures kind.FullyConnected? || kind.SoftMax? ==> t == (w.nCols, 1, 1)
    ensures kind.Conv? ==> t.2 == kind.nFilters && t.0 > 0 && t.1 > 0
    ensures kind.MaxPool? ==> t.2 == s.2 && t.0 > 0 && t.1 > 0
  {
    match kind
    case Conv(kernel, padding, nFilters, stride) =>
      (OutputExtent(s.0 + 2 * padding.height, kernel.height, stride), OutputExtent(s.1 + 2 * padding.width, kernel.width, stride), nFilters)
    case MaxPool(kernel, stride) =>
      (OutputExtent(s.0, kernel.height, stride), OutputExtent(s.1, kernel.width, stride), s.2)
    case _ => (w.nCols, 1, 1)
  }

  /** The output shape of a convolutional layer, for a padded input of
      h x wd. */
  lemma ConvOutShape(kernel: KernelSize, padding: KernelSize, nFilters: nat, stride: nat, w: Tensor4d, s: Shape, h: nat, wd: nat)
    requires stride > 0 && kernel.height <= s.0 + 2 * padding.height && kernel.width <= s.1 + 2 * padding.width
    requires h == s.0 + 2 * padding.height && wd == s.1 + 2 * padding.width
    ensures OutShape(Conv(kernel, padding, nFilters, stride), w, s) ==
      (OutputExtent(h, kernel.height, stride), OutputExtent(wd, kernel.width, stride), nFilters)
  {
  }

  /** The buffers of a fully connected layer after `Forward(x)`: the
      columnised input, rf = W' x + b, and f applied to every entry. */
  ghost predicate FullyConnectedResponded(f: ActivationFunction, w: Tensor4d, b: Tensor4d, x: Cube<real>, r: Buffers)
    requires x.Valid() && DenseReady(w, b, x.Shape())
  {
    var rf := DenseField(w, b, x);
    r == Buffers(Columnised(x), rf, Applied(f, rf))
  }

  /** The buffers of a softmax layer after `Forward(x)`: the fully
      connected receptive field and its softmax. */
  ghost predicate SoftmaxResponded(exp: real -> real, w: Tensor4d, b: Tensor4d, x: Cube<real>, r: Buffers)
    requires x.Valid() && DenseReady(w, b, x.Shape()) && ExpPositive(exp) && w.nCols > 0
  {
    var rf := DenseField(w, b, x);
    && r.input == Columnised(x) && r.receptiveField == rf
    && IsVector(r.output, rf.rows) && SoftmaxOf(exp, rf, r.output)
  }

  /** The receptive field of a convolutional layer over the padded input
      p: entry (r, c, k) is the cross-correlation of filter k with the
      window of p at (r * stride, c * stride), plus the bias sum of
      filter k. */
  ghost predicate Convolved(kernel: KernelSize, nFilters: nat, stride: nat, w: Tensor4d, b: Tensor4d, p: Cube<real>, rf: Cube<real>)
    requires p.Valid() && stride > 0 && kernel.height <= p.rows && kernel.width <= p.cols
  {
    var oh, ow := OutputExtent(p.rows, kernel.height, stride), OutputExtent(p.cols, kernel.width, stride);
    && rf.Valid() && rf.Shape() == (oh, ow, nFilters)
    && w.WellFormed() && w.nRows == kernel.height && w.nCols == kernel.width
    && w.nSize == nFilters && p.slices <= w.nSlices && BiasFits(b, nFilters)
    && WindowsInside(p.rows, kernel.height, oh, stride) && WindowsInside(p.cols, kernel.width, ow, stride)
    && forall r: nat, c: nat, k: nat :: r < oh && c < ow && k < nFilters ==>
         rf.At(r, c, k) == Correlation(w.data[k], Patch(p, kernel.height, kernel.width, oh, ow, stride, r, c), p.slices)
                           + BiasSum(b.data[k], b.nSlices)
  }

  /** The buffers of a convolutional layer after `Forward(x)`: the padded
      input, its convolution, and the activation of it; without an
      activation the output is the receptive field itself. */
  ghost predicate ConvResponded(kernel: KernelSize, padding: KernelSize, nFilters: nat, stride: nat,
                                activation: Option<ActivationFunction>, w: Tensor4d, b: Tensor4d, x: Cube<real>, r: Buffers)
    requires x.Valid() && ConvReady(kernel, padding, nFilters, stride, w, b, x.Shape())
  {
    var p := ForwardInput(x, padding);
    && r.input == p && Convolved(kernel, nFilters, stride, w, b, p, r.receptiveField)
    && r.output == if activation.Some? then Applied(activation.value, r.receptiveField) else r.receptiveField
  }

  /** The buffers of a max-pooling layer after `Forward(x)`: the input, the
      maximum of every k x k window, the flags of the first maximum of each
      window, and the pooled field again as output. */
  ghost predicate PoolResponded(k: nat, stride: nat, x: Cube<real>, r: Buffers, connect: Cube<real>)
    requires x.Valid() && Pooling.Fits(x.rows, x.cols, k, k, stride)
  {
    && r.input == x && r.receptiveField.Valid()
    && r.receptiveField.Shape() == (OutputExtent(x.rows, k, stride), OutputExtent(x.cols, k, stride), x.slices)
    && (forall i: nat, j: nat, d: nat :: r.receptiveField.InBounds(i, j, d) ==>
          r.receptiveField.At(i, j, d) == Pooling.PoolMax(x, k, k, stride, i, j, d))
    && Pooling.Flags(x, k, k, stride, connect)
    && r.output == r.receptiveField
  }

  /** The buffers (and pooling flags) after `Forward(x)`, for each kind of
      layer. */
  ghost predicate Forwarded(kind: LayerKind, activation: Option<ActivationFunction>, w: Tensor4d, b: Tensor4d,
                            x: Cube<real>, r: Buffers, connect: Cube<real>)
    requires x.Valid() && Configured(kind, activation, w, b, x.Shape())
  {
    match kind
    case FullyConnected => FullyConnectedResponded(activation.value, w, b, x, r)
    case SoftMax(exp) => SoftmaxResponded(exp, w, b, x, r)
    case Conv(kernel, padding, nFilters, stride) => ConvResponded(kernel, padding, nFilters, stride, activation, w, b, x, r)
    case MaxPool(kernel, stride) => PoolResponded(kernel.height, stride, x, r, connect)
  }

  /** The shared start of the dense layers' `Forward`: the columnised
      input and rf = W' x + b. */
  method DenseResponse(w: Tensor4d, b: Tensor4d, x: Cube<real>) returns (col: Cube<real>, rf: Cube<real>)
    requires x.Valid() && DenseReady(w, b, x.Shape())
    ensures col == Columnised(x) && rf == DenseField(w, b, x)
  {
    col := DenseInput(x);
    rf := Affine(w.data[0], col, FirstColumn(b.data[0]));
  }

  /** `FullyConnectedLayer::Forward`: rf = W' x + b over the columnised
      input, then output = f(rf) in the buffer allocated on the first
      call. */
  method FullyConnectedForward(f: ActivationFunction, w: Tensor4d, b: Tensor4d, x: Cube<real>, existing: bool, prior: Cube<real>)
    returns (r: Buffers)
    requires x.Valid() && DenseReady(w, b, x.Shape())
    requires existing ==> prior.Valid() && prior.Shape() == (w.nCols, 1, 1)
    ensures FullyConnectedResponded(f, w, b, x, r)
    ensures r.output.Valid() && r.output.Shape() == (w.nCols, 1, 1)
  {
    var col, rf := DenseResponse(w, b, x);
    var buffer := if existing then prior else Allocated(w.nCols, 1, 1);
    var out := Activate(f, rf, buffer);
    r := Buffers(col, rf, out);
  }

  /** `SoftMaxLayer::Forward`: the fully connected receptive field, then
      `ComputeOutput` into the buffer allocated on the first call. */
  method SoftmaxForward(exp: real -> real, w: Tensor4d, b: Tensor4d, x: Cube<real>, existing: bool, prior: Cube<real>)
    returns (r: Buffers)
    requires x.Valid() && DenseReady(w, b, x.Shape()) && ExpPositive(exp) && w.nCols > 0
    requires existing ==> prior.Valid() && prior.Shape() == (w.nCols, 1, 1)
    ensures SoftmaxResponded(exp, w, b, x, r)
    ensures r.output.Valid() && r.output.Shape() == (w.nCols, 1, 1)
  {
    var col, rf := DenseResponse(w, b, x);
    var buffer := if existing then prior else Allocated(w.nCols, 1, 1);
    var out := Normalise(exp, rf, buffer);
    r := Buffers(col, rf, out);
  }

  /** The padding step of `ConvolutionalLayer::Forward`: the input itself
      when there is no padding, a zero-padded copy otherwise. */
  method PaddedInput(x: Cube<real>, padding: KernelSize) returns (p: Cube<real>)
    requires x.Valid()
    ensures p == ForwardInput(x, padding)
  {
    if padding.height == 0 && padding.width == 0 {
      p := x;
      UnpaddedInputUnchanged(x);
      assert padding == KernelSize(0, 0);
    } else {
      p := ForwardInput(x, padding);
    }
  }

  /** The receptive field of `ConvolutionalLayer::Forward` over the padded
      input p: im2col, the product with the kernel matrix, and the bias
      sums. */
  method ConvField(kernel: KernelSize, nFilters: nat, stride: nat, w: Tensor4d, b: Tensor4d, p: Cube<real>)
    returns (rf: Cube<real>)
    requires p.Valid() && stride > 0 && kernel.height <= p.rows && kernel.width <= p.cols
    requires (p.rows - kernel.height) % stride == 0 && (p.cols - kernel.width) % stride == 0
    requires w.WellFormed() && w.nRows == kernel.height && w.nCols == kernel.width
    requires w.nSize == nFilters && p.slices <= w.nSlices && BiasFits(b, nFilters)
    ensures Convolved(kernel, nFilters, stride, w, b, p, rf)
  {
    var oh := OutputExtent(p.rows, kernel.height, stride);
    var ow := OutputExtent(p.cols, kernel.width, stride);
    OutputExtentLaw(p.rows, kernel.height, stride);
    OutputExtentLaw(p.cols, kernel.width, stride);
    var cc := CrossCorrelation(p, w, oh, ow, stride);
    rf := ReceptiveField(cc, b, nFilters, oh, ow);
  }

  /** `kernel2col * input2col`: row k of the product, read at the column of
      output position (r, c), is the cross-correlation of filter k with the
      window at (r * stride, c * stride). */
  method CrossCorrelation(p: Cube<real>, w: Tensor4d, oh: nat, ow: nat, stride: nat) returns (cc: Cube<real>)
    requires p.Valid() && w.WellFormed() && p.slices <= w.nSlices
    requires WindowsInside(p.rows, w.nRows, oh, stride) && WindowsInside(p.cols, w.nCols, ow, stride)
    ensures cc.Valid() && cc.Shape() == (w.nSize, oh * ow, 1) && ColumnsInside(oh, ow, oh * ow)
    ensures forall r: nat, c: nat, k: nat :: r < oh && c < ow && k < w.nSize ==>
      cc.At(k, ColumnOf(r, c, oh), 0) == Correlation(w.data[k], Patch(p, w.nRows, w.nCols, oh, ow, stride, r, c), p.slices)
  {
    ColumnsBound(oh, ow);
    var data, kernelMatrix := Im2col(p, w, oh, ow, stride);
    cc := MatMul(kernelMatrix, data);
    forall r: nat, c: nat, k: nat | r < oh && c < ow && k < w.nSize
      ensures cc.At(k, ColumnOf(r, c, oh), 0) == Correlation(w.data[k], Patch(p, w.nRows, w.nCols, oh, ow, stride, r, c), p.slices)
    {
      Im2colProduct(p, w, oh, ow, stride, data, kernelMatrix, k, r, c);
    }
  }

  /** `ConvolutionalLayer::Forward`: pad the input (or use it as is when
      there is no padding), convolve it with the filters, and apply the
      activation if there is one; without one the output is the receptive
      field. */
  method ConvForward(kernel: KernelSize, padding: KernelSize, nFilters: nat, stride: nat,
                     activation: Option<ActivationFunction>, w: Tensor4d, b: Tensor4d, x: Cube<real>)
    returns (r: Buffers)
    requires x.Valid() && ConvReady(kernel, padding, nFilters, stride, w, b, x.Shape())
    ensures ConvResponded(kernel, padding, nFilters, stride, activation, w, b, x, r)
    ensures r.output.Valid() && r.output.Shape() == OutShape(Conv(kernel, padding, nFilters, stride), w, x.Shape())
  {
    var p := PaddedInput(x, padding);
    var rf := ConvField(kernel, nFilters, stride, w, b, p);
    ConvOutShape(kernel, padding, nFilters, stride, w, x.Shape(), p.rows, p.cols);
    if activation.Some? {
      var out := Compute(activation.value, rf, Allocated(rf.rows, rf.cols, rf.slices));
      r := Buffers(p, rf, out);
    } else {
      r := Buffers(p, rf, rf);
    }
  }

  /** `MaxPoolingLayer::Forward`: pool every k x k window, flag its first
      maximum; without an activation the output is the pooled field. */
  method PoolForward(k: nat, stride: nat, x: Cube<real>) returns (r: Buffers, connect: Cube<real>)
    requires x.Valid() && Pooling.Fits(x.rows, x.cols, k, k, stride)
    ensures PoolResponded(k, stride, x, r, connect)
  {
    var rf, flags := Pooling.Forward(x, k, k, stride);
    r := Buffers(x, rf, rf);
    connect := flags;
  }

  /** The forward pass of a layer of the given kind, dispatched as the
      virtual `Forward` is; only a pooling layer replaces its flags. */
  method Respond(kind: LayerKind, activation: Option<ActivationFunction>, w: Tensor4d, b: Tensor4d, x: Cube<real>,
                 existing: bool, prior: Cube<real>, connect: Cube<real>)
    returns (r: Buffers, connect': Cube<real>)
    requires x.Valid() && Configured(kind, activation, w, b, x.Shape()) && PriorFits(kind, w, existing, prior)
    ensures Forwarded(kind, activation, w, b, x, r, connect')
    ensures r.output.Valid() && r.output.Shape() == OutShape(kind, w, x.Shape())
    ensures !kind.MaxPool? ==> connect' == connect
  {
    connect' := connect;
    match kind {
      case FullyConnected =>
        r := FullyConnectedForward(activation.value, w, b, x, existing, prior);
      case SoftMax(exp) =>
        r := SoftmaxForward(exp, w, b, x, existing, prior);
      case Conv(kernel, padding, nFilters, stride) =>
        r := ConvForward(kernel, padding, nFilters, stride, activation, w, b, x);
      case MaxPool(kernel, stride) =>
        r, connect' := PoolForward(kernel.height, stride, x);
    }
  }

  // ---------------------------------------------------------------------
  // Backward: what each kind of layer demands and computes

  /** The error a layer receives fits its output: a column is unvectorised
      to the output's nonzero extents and must hold as many elements, any
      other error must have the output's shape. */
  predicate ErrorFits(es: Shape, os: Shape) {
    if es.1 == 1 && es.2 == 1 then os.0 > 0 && os.1 > 0 && os.2 > 0 && es.0 == os.0 * os.1 * os.2
    else es == os
  }

  /** The error after the "top layer was 1d" reshape, laid out in the
      output's shape. */
  function Upstream(e: Cube<real>, os: Shape): (u: Cube<real>)
    requires e.Valid() && ErrorFits(e.Shape(), os)
    ensures u.Valid() && u.Shape() == os
  {
    if e.IsColumn() then Unvectorised(e, os.0, os.1, os.2) else e
  }

  /** The reshape keeps the error's elements in column-major order. */
  lemma UpstreamElements(e: Cube<real>, os: Shape)
    requires e.Valid() && ErrorFits(e.Shape(), os)
    ensures Vectorised(Upstream(e, os)) == Vectorised(e)
  {
    if e.IsColumn() {
      VectoriseUnvectorise(e, os.0, os.1, os.2);
      VectorisedColumn(e);
    }
  }

  /** What the dense layers' backward pass reads: the column input and
      receptive field of the last forward pass, a weight matrix from one to
      the other, and an error of the receptive field's length. */
  predicate DenseLossReady(w: Tensor4d, r: Buffers, es: Shape) {
    && |w.data| > 0 && IsMatrix(w.data[0])
    && r.input.Valid() && r.input.IsColumn() && IsVector(r.receptiveField, r.receptiveField.rows)
    && w.data[0].rows == r.input.rows && w.data[0].cols == r.receptiveField.rows
    && es == (r.receptiveField.rows, 1, 1)
  }

  /** What `Backward` demands of a layer for an error of shape es, given
      the buffers of a forward pass: an activation whose derivative the
      layer takes, and an error that fits the output. */
  ghost predicate LossReady(kind: LayerKind, activation: Option<ActivationFunction>, w: Tensor4d, r: Buffers,
                            connect: Cube<real>, es: Shape) {
    match kind
    case FullyConnected => activation.Some? && activation.value.Valid() && DenseLossReady(w, r, es)
    case SoftMax(_) => DenseLossReady(w, r, es)
    case Conv(_, _, _, _) =>
      && activation.Some? && activation.value.Valid()
      && r.input.Valid() && r.receptiveField.Valid()
      && r.output.Valid() && r.output.Shape() == r.receptiveField.Shape()
      && ErrorFits(es, r.output.Shape())
    case MaxPool(kernel, stride) =>
      var k := kernel.height;
      && activation.None? && connect.Valid()
      && Pooling.Fits(connect.rows, connect.cols, k, k, stride)
      && r.output.Shape() == (OutputExtent(connect.rows, k, stride), OutputExtent(connect.cols, k, stride), connect.slices)
      && ErrorFits(es, r.output.Shape())
  }

  /** The gradients and the error a dense layer passes on: e_prev = W e
      and dW = x e', db = e, where `Backward2nd` squares W and x
      elementwise. The gradient pair is moved out of `make_pair`, so each
      tensor claims as many slices as columns. */
  ghost predicate DenseGradients(w: Tensor4d, x: Cube<real>, passed: Cube<real>, squared: bool,
                                 grads: (Tensor4d, Tensor4d), emitted: Cube<real>)
    requires |w.data| > 0 && IsMatrix(w.data[0]) && x.Valid() && x.IsColumn()
    requires IsVector(passed, w.data[0].cols) && w.data[0].rows == x.rows
  {
    var m := if squared then Squared(w.data[0]) else w.data[0];
    var input := if squared then Squared(x) else x;
    && emitted == Times(m, passed)
    && grads.0.nRows == x.rows && grads.0.nCols == passed.rows
    && grads.0.nSlices == passed.rows && grads.0.nSize == passed.rows
    && grads.0.data == [Outer(input, passed)]
    && grads.1 == Tensor4d([passed], 1, passed.rows, 1, 1)
  }

  /** The error a fully connected layer passes on: the error e scaled
      entry by entry by the slope of f at the receptive field. */
  ghost predicate ColumnScaled(f: ActivationFunction, rf: Cube<real>, e: Cube<real>, squared: bool, passed: Cube<real>)
    requires f.Valid() && IsVector(rf, rf.rows) && IsVector(e, rf.rows)
  {
    && IsVector(passed, rf.rows)
    && forall i: nat :: i < rf.rows ==> passed.At(i, 0, 0) == e.At(i, 0, 0) * Slope(f, rf.At(i, 0, 0), squared)
  }

  /** The error a convolutional layer passes on: the reshaped error u
      scaled entry by entry by the slope of f at the receptive field. */
  ghost predicate ScaledError(f: ActivationFunction, rf: Cube<real>, u: Cube<real>, squared: bool, passed: Cube<real>)
    requires f.Valid() && rf.Valid() && u.Valid() && u.Shape() == rf.Shape()
  {
    && passed.Valid() && passed.Shape() == rf.Shape()
    && forall i: nat, j: nat, d: nat :: rf.InBounds(i, j, d) ==>
         passed.At(i, j, d) == u.At(i, j, d) * Slope(f, rf.At(i, j, d), squared)
  }

  /** The pooling error routing: every error entry lands on the flagged
      source of its window, everything else is zero. */
  ghost predicate Routed(connect: Cube<real>, k: nat, stride: nat, e: Cube<real>, loss: Cube<real>)
    requires connect.Valid() && Pooling.Fits(connect.rows, connect.cols, k, k, stride)
    requires e.Valid() && e.Shape() == (OutputExtent(connect.rows, k, stride), OutputExtent(connect.cols, k, stride), connect.slices)
  {
    && loss.Valid() && loss.Shape() == connect.Shape()
    && (forall i: nat, j: nat, d: nat :: e.InBounds(i, j, d) ==>
          var p := Pooling.Source(connect, k, k, stride, i, j, d);
          loss.At(p.0, p.1, d) == e.At(i, j, d))
    && (forall r: nat, c: nat, d: nat :: connect.InBounds(r, c, d) && !Pooling.IsSource(connect, k, k, stride, r, c, d) ==>
          loss.At(r, c, d) == 0.0)
  }

  /** The results of `Backward(e)` (squared = false) or `Backward2nd(e)`
      (squared = true): the gradient pair, the caller's error buffer after
      the in-place multiplication (`passed`), and the layer's new local
      loss (`emitted`). */
  ghost predicate Propagated(kind: LayerKind, activation: Option<ActivationFunction>, w: Tensor4d, b: Tensor4d,
                             r: Buffers, connect: Cube<real>, e: Cube<real>, squared: bool,
                             grads: (Tensor4d, Tensor4d), passed: Cube<real>, emitted: Cube<real>)
    requires e.Valid() && LossReady(kind, activation, w, r, connect, e.Shape())
  {
    match kind
    case FullyConnected =>
      && ColumnScaled(activation.value, r.receptiveField, e, squared, passed)
      && DenseGradients(w, r.input, passed, squared, grads, emitted)
    case SoftMax(_) =>
      passed == e && DenseGradients(w, r.input, passed, squared, grads, emitted)
    case Conv(_, _, nFilters, _) =>
      && ScaledError(activation.value, r.receptiveField, Upstream(e, r.output.Shape()), squared, passed)
      && emitted.Valid() && emitted.Shape() == r.input.Shape()
      && GradientShaped(grads.0, w.nRows, w.nCols, w.nSlices, nFilters)
      && GradientShaped(grads.1, 1, 1, b.nSlices, nFilters)
    case MaxPool(kernel, stride) =>
      var u := Upstream(e, r.output.Shape());
      && passed == u && Routed(connect, kernel.height, stride, u, emitted)
      && grads == (Default(), Default())
  }

  /** The shape of the local loss a backward pass leaves: that of the
      layer's input (the flag map has it for a pooling layer). */
  function LossShape(kind: LayerKind, r: Buffers, connect: Cube<real>): Shape {
    if kind.MaxPool? then connect.Shape() else r.input.Shape()
  }

  /** Every backward pass leaves a local loss of its input's shape, which
      is what the layer below receives as its error. */
  lemma EmittedShape(kind: LayerKind, activation: Option<ActivationFunction>, w: Tensor4d, b: Tensor4d,
                     r: Buffers, connect: Cube<real>, e: Cube<real>, squared: bool,
                     grads: (Tensor4d, Tensor4d), passed: Cube<real>, emitted: Cube<real>)
    requires e.Valid() && LossReady(kind, activation, w, r, connect, e.Shape())
    requires Propagated(kind, activation, w, b, r, connect, e, squared, grads, passed, emitted)
    ensures emitted.Valid() && emitted.Shape() == LossShape(kind, r, connect)
  {
    match kind
    case FullyConnected => DenseEmittedShape(w, r.input, passed, squared, grads, emitted);
    case SoftMax(_) => DenseEmittedShape(w, r.input, passed, squared, grads, emitted);
    case Conv(_, _, _, _) =>
    case MaxPool(_, _) =>
  }

  /** The local loss W e of a dense layer is a column of the input's
      length. */
  lemma DenseEmittedShape(w: Tensor4d, x: Cube<real>, passed: Cube<real>, squared: bool,
                          grads: (Tensor4d, Tensor4d), emitted: Cube<real>)
    requires |w.data| > 0 && IsMatrix(w.data[0]) && x.Valid() && x.IsColumn()
    requires IsVector(passed, w.data[0].cols) && w.data[0].rows == x.rows
    requires DenseGradients(w, x, passed, squared, grads, emitted)
    ensures emitted.Valid() && emitted.Shape() == x.Shape()
  {
    var m := if squared then Squared(w.data[0]) else w.data[0];
    assert emitted == Times(m, passed);
  }

  /** Multiplying an error in place by a cube of slopes of f at rf scales
      each entry by its own slope. */
  lemma ScaledBySlopes(f: ActivationFunction, rf: Cube<real>, e: Cube<real>, dfdz: Cube<real>, squared: bool)
    requires f.Valid() && rf.Valid() && e.Valid() && dfdz.Valid()
    requires e.Shape() == rf.Shape() && dfdz.Shape() == rf.Shape()
    requires forall r: nat, c: nat, s: nat :: rf.InBounds(r, c, s) ==> dfdz.At(r, c, s) == Slope(f, rf.At(r, c, s), squared)
    ensures forall r: nat, c: nat, s: nat :: rf.InBounds(r, c, s) ==>
      Schur(e, dfdz).At(r, c, s) == e.At(r, c, s) * Slope(f, rf.At(r, c, s), squared)
  {
    var z := Schur(e, dfdz);
    forall r: nat, c: nat, s: nat | rf.InBounds(r, c, s)
      ensures z.At(r, c, s) == e.At(r, c, s) * Slope(f, rf.At(r, c, s), squared)
    {
      assert e.InBounds(r, c, s);
      assert dfdz.At(r, c, s) == Slope(f, rf.At(r, c, s), squared);
    }
  }

  /** The `dfdz` loop and `*prevLocalLoss %= dfdz` of the convolutional
      layer: every entry of the error times the slope of f at the same
      entry of the receptive field. */
  method ScaleBySlopes(f: ActivationFunction, rf: Cube<real>, e: Cube<real>, squared: bool) returns (passed: Cube<real>)
    requires f.Valid() && rf.Valid() && e.Valid() && e.Shape() == rf.Shape()
    ensures ScaledError(f, rf, e, squared, passed)
  {
    var dfdz := Slopes(f, rf, squared);
    ScaledBySlopes(f, rf, e, dfdz, squared);
    passed := Schur(e, dfdz);
  }

  /** The same for the column of a fully connected layer, whose `dfdz` loop
      runs over the first column only. */
  method ScaleColumnBySlopes(f: ActivationFunction, rf: Cube<real>, e: Cube<real>, squared: bool) returns (passed: Cube<real>)
    requires f.Valid() && IsVector(rf, rf.rows) && IsVector(e, rf.rows)
    ensures ColumnScaled(f, rf, e, squared, passed)
  {
    var dfdz := ColumnSlopes(f, rf, squared);
    ScaledBySlopes(f, rf, e, dfdz, squared);
    passed := Schur(e, dfdz);
  }

  /** The common tail of the dense layers' backward passes: pass W e down
      and form the gradients from the (scaled) error. */
  method DenseEmit(w: Tensor4d, x: Cube<real>, passed: Cube<real>, squared: bool)
    returns (grads: (Tensor4d, Tensor4d), emitted: Cube<real>)
    requires |w.data| > 0 && IsMatrix(w.data[0]) && x.Valid() && x.IsColumn()
    requires IsVector(passed, w.data[0].cols) && w.data[0].rows == x.rows
    ensures DenseGradients(w, x, passed, squared, grads, emitted)
  {
    var m := if squared then Squared(w.data[0]) else w.data[0];
    emitted := Times(m, passed);
    var input := if squared then Squared(x) else x;
    grads := (SingleCube(Outer(input, passed)), SingleCube(passed));
  }

  /** `FullyConnectedLayer::Backward` and `Backward2nd`: scale the error by
      the slope of f at the receptive field, then pass it on. */
  method FullyConnectedBackward(f: ActivationFunction, w: Tensor4d, r: Buffers, e: Cube<real>, squared: bool)
    returns (grads: (Tensor4d, Tensor4d), passed: Cube<real>, emitted: Cube<real>)
    requires e.Valid() && DenseLossReady(w, r, e.Shape()) && f.Valid()
    ensures ColumnScaled(f, r.receptiveField, e, squared, passed)
    ensures DenseGradients(w, r.input, passed, squared, grads, emitted)
  {
    passed := ScaleColumnBySlopes(f, r.receptiveField, e, squared);
    grads, emitted := DenseEmit(w, r.input, passed, squared);
  }

  /** `SoftMaxLayer::Backward` and `Backward2nd`: the error (the cost
      derivative with respect to the receptive field) is passed on as it
      is. */
  method SoftmaxBackward(w: Tensor4d, r: Buffers, e: Cube<real>, squared: bool)
    returns (grads: (Tensor4d, Tensor4d), passed: Cube<real>, emitted: Cube<real>)
    requires e.Valid() && DenseLossReady(w, r, e.Shape())
    ensures passed == e
    ensures DenseGradients(w, r.input, passed, squared, grads, emitted)
  {
    passed := e;
    grads, emitted := DenseEmit(w, r.input, passed, squared);
  }

  /** The "top layer was 1d" reshape of the error, to the output's
      shape. */
  method ReshapeError(e: Cube<real>, os: Shape) returns (u: Cube<real>)
    requires e.Valid() && ErrorFits(e.Shape(), os)
    ensures u == Upstream(e, os)
  {
    u := e;
    if e.IsColumn() {
      u := Unvectorise(e, os.0, os.1, os.2);
    }
  }

  /** `ConvolutionalLayer::Backward` and `Backward2nd`: reshape a column
      error to the output, scale it by the slopes at the receptive field,
      and size the local loss and the gradients; the source computes
      neither the loss contents nor the gradient contents. */
  method ConvBackward(f: ActivationFunction, nFilters: nat, w: Tensor4d, b: Tensor4d, r: Buffers, e: Cube<real>, squared: bool)
    returns (grads: (Tensor4d, Tensor4d), passed: Cube<real>, emitted: Cube<real>)
    requires e.Valid() && f.Valid() && r.input.Valid() && r.receptiveField.Valid()
    requires r.output.Valid() && r.output.Shape() == r.receptiveField.Shape()
    requires ErrorFits(e.Shape(), r.output.Shape())
    ensures ScaledError(f, r.receptiveField, Upstream(e, r.output.Shape()), squared, passed)
    ensures emitted.Valid() && emitted.Shape() == r.input.Shape()
    ensures GradientShaped(grads.0, w.nRows, w.nCols, w.nSlices, nFilters)
    ensures GradientShaped(grads.1, 1, 1, b.nSlices, nFilters)
  {
    var u := ReshapeError(e, r.output.Shape());
    passed := ScaleBySlopes(f, r.receptiveField, u, squared);
    emitted := Allocated(r.input.rows, r.input.cols, r.input.slices);
    grads := ConvGradients(nFilters, w, b);
  }

  /** The gradient pair of the convolutional layer: kernel_count tensors
      shaped like the filters and like the bias cubes, each moved out of
      `make_pair`. */
  method ConvGradients(nFilters: nat, w: Tensor4d, b: Tensor4d) returns (grads: (Tensor4d, Tensor4d))
    ensures GradientShaped(grads.0, w.nRows, w.nCols, w.nSlices, nFilters)
    ensures GradientShaped(grads.1, 1, 1, b.nSlices, nFilters)
  {
    var gw := Sized(w.nRows, w.nCols, w.nSlices, nFilters);
    var gb := Sized(1, 1, b.nSlices, nFilters);
    grads := (Copied(gw), Copied(gb));
  }

  /** `MaxPoolingLayer::Backward` and `Backward2nd`: reshape a column error
      to the output and route it to the flagged maxima; a pooling layer has
      no gradients. */
  method PoolBackward(k: nat, stride: nat, r: Buffers, connect: Cube<real>, e: Cube<real>)
    returns (grads: (Tensor4d, Tensor4d), passed: Cube<real>, emitted: Cube<real>)
    requires e.Valid() && connect.Valid()
    requires Pooling.Fits(connect.rows, connect.cols, k, k, stride)
    requires r.output.Shape() == (OutputExtent(connect.rows, k, stride), OutputExtent(connect.cols, k, stride), connect.slices)
    requires ErrorFits(e.Shape(), r.output.Shape())
    ensures passed == Upstream(e, r.output.Shape())
    ensures Routed(connect, k, stride, passed, emitted)
    ensures grads == (Default(), Default())
  {
    passed := ReshapeError(e, r.output.Shape());
    emitted := Pooling.Backward(connect, passed, k, k, stride);
    grads := (Copied(Default()), Copied(Default()));
  }

  /** The backward pass of a layer of the given kind, dispatched as the
      virtual `Backward` and `Backward2nd` are. */
  method Backpropagate(kind: LayerKind, activation: Option<ActivationFunction>, w: Tensor4d, b: Tensor4d,
                       r: Buffers, connect: Cube<real>, e: Cube<real>, squared: bool)
    returns (grads: (Tensor4d, Tensor4d), passed: Cube<real>, emitted: Cube<real>)
    requires e.Valid() && LossReady(kind, activation, w, r, connect, e.Shape())
    ensures Propagated(kind, activation, w, b, r, connect, e, squared, grads, passed, emitted)
  {
    match kind {
      case FullyConnected =>
        grads, passed, emitted := FullyConnectedBackward(activation.value, w, r, e, squared);
      case SoftMax(_) =>
        grads, passed, emitted := SoftmaxBackward(w, r, e, squared);
      case Conv(_, _, nFilters, _) =>
        grads, passed, emitted := ConvBackward(activation.value, nFilters, w, b, r, e, squared);
      case MaxPool(kernel, stride) =>
        grads, passed, emitted := PoolBackward(kernel.height, stride, r, connect, e);
    }
  }

  // ---------------------------------------------------------------------
  // Weights

  /** `cubes[n].load(in, arma_binary)`: the next record replaces cube n
      when it loads; otherwise cube n is emptied and the stream is left at
      the failing record. */
  method LoadCube(cubes: seq<Cube<real>>, n: nat, source: InStream)
    returns (ok: bool, source': InStream, cubes': seq<Cube<real>>)
    requires n < |cubes|
    ensures ok == (source.records != [] && source.records[0].Stored?)
    ensures ok ==> source' == source.(records := source.records[1..]) && cubes' == cubes[n := source.records[0].cube]
    ensures !ok ==> source' == source && cubes' == cubes[n := Emptied()]
  {
    if source.records == [] || !source.records[0].Stored? {
      return false, source, cubes[n := Emptied()];
    }
    return true, source.(records := source.records[1..]), cubes[n := source.records[0].cube];
  }

  /** One load of the read loop: cube n of the tensor of this parity takes
      record k = 2n + parity, and a failed read ends the load there. */
  method LoadStep(ghost prior: seq<Cube<real>>, ghost records: seq<Record>, n: nat, count: nat, parity: nat,
                  cubes: seq<Cube<real>>, source: InStream)
    returns (ok: bool, source': InStream, cubes': seq<Cube<real>>)
    requires n < count <= |prior| && parity < 2 && 2 * n + parity <= |records|
    requires forall i :: 0 <= i < 2 * n + parity ==> records[i].Stored?
    requires source.records == records[2 * n + parity..]
    requires cubes == AfterLoad(prior, records, 2 * n + parity, n, parity)
    ensures ok ==> && 2 * n + parity < |records|
                   && (forall i :: 0 <= i <= 2 * n + parity ==> records[i].Stored?)
                   && source' == source.(records := records[2 * n + parity + 1..])
                   && cubes' == AfterLoad(prior, records, 2 * n + parity + 1, n + 1, parity)
    ensures !ok ==> && source' == source && Readable(records, 2 * count) == 2 * n + parity
                    && cubes' == AfterLoad(prior, records, 2 * n + parity, count, parity)
  {
    var k := 2 * n + parity;
    ok, source', cubes' := LoadCube(cubes, n, source);
    if ok {
      assert records[k] == source.records[0];
      AfterLoadRead(prior, records, k, n, parity);
      assert records[k + 1..] == source'.records;
    } else {
      ReadableStops(records, k, 2 * count);
      AfterLoadFail(prior, records, k, n, count, parity);
    }
  }

  /** One pass of the read loop: weight cube n, then bias cube n. On
      success the stream is past record 2n + 1; on failure the load is
      over, as it stands at its end. */
  method LoadPair(ghost w: seq<Cube<real>>, ghost b: seq<Cube<real>>, ghost records: seq<Record>, n: nat, count: nat,
                  source: InStream, w': seq<Cube<real>>, b': seq<Cube<real>>)
    returns (ok: bool, source': InStream, w'': seq<Cube<real>>, b'': seq<Cube<real>>)
    requires n < count <= |w| && count <= |b| && 2 * n <= |records|
    requires forall i :: 0 <= i < 2 * n ==> records[i].Stored?
    requires source.records == records[2 * n..]
    requires w' == AfterLoad(w, records, 2 * n, n, 0) && b' == AfterLoad(b, records, 2 * n, n, 1)
    ensures ok ==> && 2 * n + 2 <= |records|
                   && (forall i :: 0 <= i < 2 * n + 2 ==> records[i].Stored?)
                   && source' == source.(records := records[2 * n + 2..])
                   && w'' == AfterLoad(w, records, 2 * n + 2, n + 1, 0)
                   && b'' == AfterLoad(b, records, 2 * n + 2, n + 1, 1)
    ensures !ok ==> var k := Readable(records, 2 * count);
                    && k < 2 * count && source' == source.(records := records[k..])
                    && w'' == AfterLoad(w, records, k, count, 0)
                    && b'' == AfterLoad(b, records, k, count, 1)
  {
    b'' := b';
    ok, source', w'' := LoadStep(w, records, n, count, 0, w', source);
    if !ok {
      AfterLoadExtend(b, records, 2 * n, n, count, 1);
    } else {
      AfterLoadPass(b, records, 2 * n, n, 1);
      ok, source', b'' := LoadBias(w, b, records, n, count, source', w'', b');
    }
  }

  /** The second half of a pass of the read loop: bias cube n, after
      weight cube n has loaded. */
  method LoadBias(ghost w: seq<Cube<real>>, ghost b: seq<Cube<real>>, ghost records: seq<Record>, n: nat, count: nat,
                  source: InStream, w': seq<Cube<real>>, b': seq<Cube<real>>)
    returns (ok: bool, source': InStream, b'': seq<Cube<real>>)
    requires n < count <= |w| && count <= |b| && 2 * n + 1 <= |records|
    requires forall i :: 0 <= i < 2 * n + 1 ==> records[i].Stored?
    requires source.records == records[2 * n + 1..]
    requires w' == AfterLoad(w, records, 2 * n + 1, n + 1, 0) && b' == AfterLoad(b, records, 2 * n + 1, n, 1)
    ensures ok ==> && 2 * n + 2 <= |records|
                   && (forall i :: 0 <= i < 2 * n + 2 ==> records[i].Stored?)
                   && source' == source.(records := records[2 * n + 2..])
                   && w' == AfterLoad(w, records, 2 * n + 2, n + 1, 0)
                   && b'' == AfterLoad(b, records, 2 * n + 2, n + 1, 1)
    ensures !ok ==> var k := Readable(records, 2 * count);
                    && k == 2 * n + 1 && source' == source
                    && w' == AfterLoad(w, records, k, count, 0)
                    && b'' == AfterLoad(b, records, k, count, 1)
  {
    ok, source', b'' := LoadStep(b, records, n, count, 1, b', source);
    if !ok {
      AfterLoadExtend(w, records, 2 * n + 1, n + 1, count, 0);
    } else {
      AfterLoadPass(w, records, 2 * n + 1, n + 1, 0);
    }
  }

  /** The read loop of `LoadWeights` over `count` pairs, stopping at the
      first record that does not load. */
  method LoadCubes(w: seq<Cube<real>>, b: seq<Cube<real>>, count: nat, source: InStream)
    returns (ok: bool, source': InStream, w': seq<Cube<real>>, b': seq<Cube<real>>)
    requires count <= |w| && count <= |b|
    ensures var k := Readable(source.records, 2 * count);
      && ok == (k == 2 * count)
      && source' == source.(records := source.records[k..])
      && w' == AfterLoad(w, source.records, k, count, 0)
      && b' == AfterLoad(b, source.records, k, count, 1)
  {
    ghost var records := source.records;
    ok, source', w', b' := true, source, w, b;
    AfterLoadStart(w, records, 0);
    AfterLoadStart(b, records, 1);
    var n := 0;
    while n < count
      invariant n <= count && 2 * n <= |records|
      invariant forall i :: 0 <= i < 2 * n ==> records[i].Stored?
      invariant source' == source.(records := records[2 * n..])
      invariant w' == AfterLoad(w, records, 2 * n, n, 0)
      invariant b' == AfterLoad(b, records, 2 * n, n, 1)
    {
      ok, source', w', b' := LoadPair(w, b, records, n, count, source', w', b');
      if !ok {
        return;
      }
      n := n + 1;
    }
    ReadableAll(records, 2 * count);
  }

  /** The initialisation loop of `InitWeights` for one tensor: cube n
      becomes 0.1 times draw n, for every n below `count`. */
  method DrawCubes(cubes: seq<Cube<real>>, draws: seq<Cube<real>>, count: nat) returns (cubes': seq<Cube<real>>)
    requires count <= |cubes| && count <= |draws| && forall n :: 0 <= n < count ==> draws[n].Valid()
    ensures cubes' == Drawn(cubes, draws, count)
  {
    cubes' := cubes;
    for n := 0 to count
      invariant cubes' == Drawn(cubes, draws, n)
    {
      cubes' := cubes'[n := Scale(0.1, draws[n])];
    }
  }

  /** What the initialisation of a layer with weights w0, bias b0 and flag
      init0 leaves: cube n of both tensors is 0.1 times its draw for every
      n below the weight count, and a layer with weights is initialised. */
  ghost predicate Redrawn(w0: Tensor4d, b0: Tensor4d, init0: bool, weightDraws: seq<Cube<real>>, biasDraws: seq<Cube<real>>,
                          w: Tensor4d, b: Tensor4d, init: bool)
  {
    && w0.nSize <= |weightDraws| && w0.nSize <= |biasDraws|
    && (forall n :: 0 <= n < w0.nSize ==> weightDraws[n].Valid() && biasDraws[n].Valid())
    && w == w0.(data := Drawn(w0.data, weightDraws, w0.nSize))
    && b == b0.(data := Drawn(b0.data, biasDraws, w0.nSize))
    && init == (w0.nSize > 0 || init0)
  }

  /** What a load of a layer with weights w0, bias b0 and flag init0 from
      `source` leaves: no change for a layer without weights or on a
      closed stream; otherwise the cubes of the records that loaded, the
      failing cube emptied, and the flag set only by a complete load. */
  ghost predicate Reloaded(w0: Tensor4d, b0: Tensor4d, init0: bool, source: InStream, ok: bool, source': InStream,
                           w: Tensor4d, b: Tensor4d, init: bool)
  {
    && (w0.nSize == 0 || !source.isOpen ==>
          ok == (w0.nSize == 0) && source' == source && w == w0 && b == b0 && init == init0)
    && (w0.nSize > 0 && source.isOpen ==>
          var count := w0.nSize;
          var k := Readable(source.records, 2 * count);
          && ok == (k == 2 * count)
          && source' == source.(records := source.records[k..])
          && w == w0.(data := AfterLoad(w0.data, source.records, k, count, 0))
          && b == b0.(data := AfterLoad(b0.data, source.records, k, count, 1))
          && init == (ok || init0))
  }

  /** What `Forward` demands of a layer for an input of shape s: an
      initialised layer (pooling layers are never initialised and do not
      check), weights that fit, and an output buffer of the shape the
      dense layers allocate once. */
  ghost predicate Accepted(kind: LayerKind, activation: Option<ActivationFunction>, w: Tensor4d, b: Tensor4d,
                           initialized: bool, existing: bool, prior: Cube<real>, s: Shape)
  {
    && (kind.MaxPool? || initialized)
    && Configured(kind, activation, w, b, s)
    && PriorFits(kind, w, existing, prior)
  }

  /** The buffers (and for pooling the flags) are those the layer computes
      from its weights and the signal x, and the output has the shape
      `OutShape` gives. */
  ghost predicate Responded(kind: LayerKind, activation: Option<ActivationFunction>, w: Tensor4d, b: Tensor4d,
                            x: Cube<real>, r: Buffers, connect: Cube<real>)
  {
    && x.Valid() && Configured(kind, activation, w, b, x.Shape())
    && Forwarded(kind, activation, w, b, x, r, connect)
    && r.output.Valid() && r.output.Shape() == OutShape(kind, w, x.Shape())
  }

  /** A backward pass of the error e (squared for `Backward2nd`) gave the
      gradient pair, left the caller's buffer as `passed` and computed the
      local loss `emitted`, which has the input's shape. */
  ghost predicate Backed(kind: LayerKind, activation: Option<ActivationFunction>, w: Tensor4d, b: Tensor4d,
                         r: Buffers, connect: Cube<real>, e: Cube<real>, squared: bool,
                         grads: (Tensor4d, Tensor4d), passed: Cube<real>, emitted: Cube<real>)
  {
    && e.Valid() && LossReady(kind, activation, w, r, connect, e.Shape())
    && Propagated(kind, activation, w, b, r, connect, e, squared, grads, passed, emitted)
    && emitted.Valid() && emitted.Shape() == LossShape(kind, r, connect)
  }

  class Layer {
    const kind: LayerKind
    const activation: Option<ActivationFunction>
    var weights: Tensor4d
    var biasWeights: Tensor4d
    var buffers: Buffers
    /** Whether `input_`, `receptiveField_` and `output_` exist: false until
        the first `Forward`. */
    var forwarded: bool
    /** `localLoss_`, the error this layer passed down on its last backward
        pass (an empty cube before the first). */
    var localLoss: Cube<real>
    /** `connectIndexes_` of a max-pooling layer; empty for the others. */
    var connect: Cube<real>
    var initialized: bool

    // -------------------------------------------------------------------
    // Construction

    /** `ConvolutionalLayer(kernel_size, kernel_count, depth, stride,
        padding, activFun)`: kernel_count filters of kH x kW x depth; the
        bias tensor `tensor4d(1, 1, depth, kernel_count)` is move-assigned,
        so it keeps kernel_count cubes of 1 x 1 x depth but claims one
        slice and a count of one. */
    constructor ConvolutionalLayer(kernel: KernelSize, count: nat, depth: nat, stride: nat,
                                   padding: KernelSize, activ: Option<ActivationFunction>)
      ensures kind == Conv(kernel, padding, count, stride) && activation == activ
      ensures weights.Shaped(kernel.height, kernel.width, depth, count)
      ensures biasWeights.nRows == 1 && biasWeights.nCols == 1 && biasWeights.nSlices == 1 && biasWeights.nSize == 1
      ensures |biasWeights.data| == count && biasWeights.CubesShaped(1, 1, depth)
      ensures !forwarded && localLoss == Emptied()
      ensures connect == Emptied() && !initialized
    {
      kind := Conv(kernel, padding, count, stride);
      activation := activ;
      var w := Sized(kernel.height, kernel.width, depth, count);
      weights := w;
      var b := Sized(1, 1, depth, count);
      ConvolutionBiasMetadata(b, depth, count);
      biasWeights := MoveAssign(b).0;
      buffers, forwarded, localLoss := Buffers(Emptied(), Emptied(), Emptied()), false, Emptied();
      connect := Emptied();
      initialized := false;
    }

    /** `MaxPoolingLayer(kernel_size, stride)`: no weights, no activation. */
    constructor MaxPoolingLayer(kernel: KernelSize, stride: nat)
      ensures kind == MaxPool(kernel, stride) && activation.None?
      ensures weights.Shaped(0, 0, 0, 0) && biasWeights == Default()
      ensures !forwarded && localLoss == Emptied()
      ensures connect == Emptied() && !initialized
    {
      kind := MaxPool(kernel, stride);
      activation := None;
      var w := Sized(0, 0, 0, 0);
      weights := w;
      biasWeights := Default();
      buffers, forwarded, localLoss := Buffers(Emptied(), Emptied(), Emptied()), false, Emptied();
      connect := Emptied();
      initialized := false;
    }

    /** `FullyConnectedLayer(in, out, activFunc)`: one in x out matrix and
        one out x 1 bias column, which the move leaves intact. */
    constructor FullyConnectedLayer(inSize: nat, outSize: nat, activ: Option<ActivationFunction>)
      ensures kind == FullyConnected && activation == activ
      ensures weights.Shaped(inSize, outSize, 1, 1) && biasWeights.Shaped(outSize, 1, 1, 1)
      ensures !forwarded && localLoss == Emptied()
      ensures connect == Emptied() && !initialized
    {
      kind := FullyConnected;
      activation := activ;
      var w := Sized(inSize, outSize, 1, 1);
      weights := w;
      var b := Sized(outSize, 1, 1, 1);
      ColumnBiasUnaffected(b, outSize);
      biasWeights := MoveAssign(b).0;
      buffers, forwarded, localLoss := Buffers(Emptied(), Emptied(), Emptied()), false, Emptied();
      connect := Emptied();
      initialized := false;
    }

    /** `SoftMaxLayer(in, out)`: the fully connected shapes without an
        activation; `exp` is the exponential the layer normalises with. */
    constructor SoftmaxLayer(inSize: nat, outSize: nat, exp: real -> real)
      ensures kind == SoftMax(exp) && activation.None?
      ensures weights.Shaped(inSize, outSize, 1, 1) && biasWeights.Shaped(outSize, 1, 1, 1)
      ensures !forwarded && localLoss == Emptied()
      ensures connect == Emptied() && !initialized
    {
      kind := SoftMax(exp);
      activation := None;
      var w := Sized(inSize, outSize, 1, 1);
      weights := w;
      var b := Sized(outSize, 1, 1, 1);
      ColumnBiasUnaffected(b, outSize);
      biasWeights := MoveAssign(b).0;
      buffers, forwarded, localLoss := Buffers(Emptied(), Emptied(), Emptied()), false, Emptied();
      connect := Emptied();
      initialized := false;
    }

    // -------------------------------------------------------------------
    // Weights

    /** The loops over the weight count stay inside both tensors. */
    predicate Holds()
      reads this`weights, this`biasWeights
    {
      weights.nSize <= |weights.data| && weights.nSize <= |biasWeights.data|
    }

    /** What a save into `out` writes: nothing for a layer without
        weights, nothing (and false) on a closed stream, otherwise the
        interleaved cubes up to the first write that fails. */
    ghost predicate SavedTo(out: OutStream, ok: bool, out': OutStream)
      reads this`weights, this`biasWeights
    {
      && (weights.nSize == 0 ==> ok && out' == out)
      && (weights.nSize > 0 && !out.isOpen ==> !ok && out' == out)
      && (weights.nSize > 0 && out.isOpen ==>
            && Holds()
            && var cubes := Interleaved(weights.data, biasWeights.data, weights.nSize);
               var m := if |cubes| <= out.room then |cubes| else out.room;
               && ok == (|cubes| <= out.room)
               && out' == OutStream(true, out.written + cubes[..m], out.room - m))
    }

    /** Draws for every cube the initialisation overwrites, each shaped by
        its tensor's metadata. */
    ghost predicate DrawsFit(weightDraws: seq<Cube<real>>, biasDraws: seq<Cube<real>>)
      reads this`weights, this`biasWeights
    {
      && weights.nSize <= |weightDraws| && weights.nSize <= |biasDraws|
      && (forall n :: 0 <= n < weights.nSize ==>
            weightDraws[n].Valid() && weightDraws[n].Shape() == (weights.nRows, weights.nCols, weights.nSlices))
      && (forall n :: 0 <= n < weights.nSize ==>
            biasDraws[n].Valid() && biasDraws[n].Shape() == (biasWeights.nRows, biasWeights.nCols, biasWeights.nSlices))
    }

    /** `SaveWeights(out)`: nothing to do for a layer without weights;
        false on a closed stream; otherwise weight cube n and bias cube n
        for every n, stopping at the first write that fails. */
    method SaveWeights(out: OutStream) returns (ok: bool, out': OutStream)
      requires weights.nSize > 0 && out.isOpen ==> Holds()
      ensures SavedTo(out, ok, out')
    {
      ok, out' := true, out;
      if weights.nSize == 0 {
        return;
      }
      if !out.isOpen {
        ok := false;
        return;
      }
      var count := weights.nSize;
      ghost var cubes := Interleaved(weights.data, biasWeights.data, count);
      var n := 0;
      while n < count
        invariant n <= count && 2 * n <= out.room
        invariant out' == OutStream(true, out.written + cubes[..2 * n], out.room - 2 * n)
      {
        if out'.room == 0 {
          ok := false;
          return;
        }
        out' := out'.(written := out'.written + [weights.data[n]], room := out'.room - 1);
        assert cubes[..2 * n + 1] == cubes[..2 * n] + [weights.data[n]];
        if out'.room == 0 {
          ok := false;
          return;
        }
        out' := out'.(written := out'.written + [biasWeights.data[n]], room := out'.room - 1);
        assert cubes[..2 * n + 2] == cubes[..2 * n + 1] + [biasWeights.data[n]];
        n := n + 1;
      }
      assert cubes[..2 * count] == cubes;
    }

    /** `LoadWeights(in)`: true without reading for a layer without
        weights; false on a closed stream; otherwise weight cube n and bias
        cube n for every n. The first record that does not load empties its
        cube and ends the loop with false, leaving the cubes loaded before
        it overwritten; only a complete load sets `initialized`. */
    method LoadWeights(source: InStream) returns (ok: bool, source': InStream)
      requires weights.nSize > 0 && source.isOpen ==> Holds()
      modifies this`weights, this`biasWeights, this`initialized
      ensures Reloaded(old(weights), old(biasWeights), old(initialized), source, ok, source', weights, biasWeights, initialized)
    {
      ok, source' := true, source;
      var count := weights.nSize;
      if count == 0 {
        return;
      }
      if !source.isOpen {
        ok := false;
        return;
      }
      var wd, bd;
      ok, source', wd, bd := LoadCubes(weights.data, biasWeights.data, count, source);
      weights := weights.(data := wd);
      biasWeights := biasWeights.(data := bd);
      if ok {
        initialized := true;
      }
    }

    /** `InitWeights()`: for a layer with weights, cube n of both tensors
        becomes 0.1 times a draw shaped by that tensor's own metadata, for
        every n below the weight count, and the layer is initialised. The
        normal draws are parameters. */
    method InitWeights(weightDraws: seq<Cube<real>>, biasDraws: seq<Cube<real>>)
      requires Holds() && DrawsFit(weightDraws, biasDraws)
      modifies this`weights, this`biasWeights, this`initialized
      ensures Redrawn(old(weights), old(biasWeights), old(initialized), weightDraws, biasDraws, weights, biasWeights, initialized)
    {
      var count := weights.nSize;
      var wd := DrawCubes(weights.data, weightDraws, count);
      var bd := DrawCubes(biasWeights.data, biasDraws, count);
      weights := weights.(data := wd);
      biasWeights := biasWeights.(data := bd);
      if count > 0 {
        initialized := true;
      }
    }

    // -------------------------------------------------------------------
    // Forward and backward

    /** What `Forward` demands for an input of shape s: an initialised
        layer (pooling layers are never initialised and do not check),
        weights that fit, and an output buffer of the shape the dense
        layers allocate once. */
    ghost predicate Accepts(s: Shape)
      reads this`weights, this`biasWeights, this`initialized, this`buffers, this`forwarded
    {
      Accepted(kind, activation, weights, biasWeights, initialized, forwarded, buffers.output, s)
    }

    /** `Forward(input)`, dispatched on the kind of layer: the buffers (and
        for pooling the flags) become those the layer computes from the
        weights and the input. */
    method Forward(x: Cube<real>)
      requires x.Valid() && Accepts(x.Shape())
      modifies this`buffers, this`forwarded, this`connect
      ensures forwarded && Responded(kind, activation, weights, biasWeights, x, buffers, connect)
      ensures buffers.output.Valid() && buffers.output.Shape() == OutShape(kind, weights, x.Shape())
      ensures !kind.MaxPool? ==> connect == old(connect)
    {
      buffers, connect := Respond(kind, activation, weights, biasWeights, x, forwarded, buffers.output, connect);
      forwarded := true;
    }

    /** What `Backward` demands for an error of shape es: a forward pass
        has filled the buffers, and they and the error fit. */
    ghost predicate AcceptsLoss(es: Shape)
      reads this`weights, this`buffers, this`forwarded, this`connect
    {
      forwarded && LossReady(kind, activation, weights, buffers, connect, es)
    }

    /** The shared body of `Backward` and `Backward2nd`. */
    method Propagate(e: Cube<real>, squared: bool) returns (grads: (Tensor4d, Tensor4d), passed: Cube<real>)
      requires e.Valid() && AcceptsLoss(e.Shape())
      modifies this`localLoss
      ensures Backed(kind, activation, weights, biasWeights, buffers, connect, e, squared, grads, passed, localLoss)
    {
      grads, passed, localLoss := Backpropagate(kind, activation, weights, biasWeights, buffers, connect, e, squared);
      EmittedShape(kind, activation, weights, biasWeights, buffers, connect, e, squared, grads, passed, localLoss);
    }

    /** `Backward(prevLocalLoss)`: the gradient pair, the caller's error
        after the in-place multiplication by f'(rf), and the new local
        loss. */
    method Backward(e: Cube<real>) returns (grads: (Tensor4d, Tensor4d), passed: Cube<real>)
      requires e.Valid() && AcceptsLoss(e.Shape())
      modifies this`localLoss
      ensures Backed(kind, activation, weights, biasWeights, buffers, connect, e, false, grads, passed, localLoss)
    {
      grads, passed := Propagate(e, false);
    }

    /** `Backward2nd(prevLocalLoss)`: as `Backward` with the derivative, the
        weights and the input squared, for the diagonal Hessian. */
    method Backward2nd(e: Cube<real>) returns (grads: (Tensor4d, Tensor4d), passed: Cube<real>)
      requires e.Valid() && AcceptsLoss(e.Shape())
      modifies this`localLoss
      ensures Backed(kind, activation, weights, biasWeights, buffers, connect, e, true, grads, passed, localLoss)
    {
      grads, passed := Propagate(e, true);
    }
  }
}
