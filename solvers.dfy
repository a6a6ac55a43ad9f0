/** The two trainers, `SgdSolver` and `SdlmSolver`: configuration, batch
    accumulation and averaging of the gradients, the stochastic diagonal
    Levenberg-Marquardt smoothing of the curvature, the in-place weight
    update, and the intervals at which the test error is computed and a
    snapshot is written.

    The network enters the loops only through what it hands back for a
    sample: the error and the lists of gradient (and curvature) pairs. That
    is a `Source`, a function of the epoch, the sample's place in the batch
    and the current weights; loading the images, which is random, and the
    forward and backward passes behind it are not part of this module. The
    weights themselves are the layers' fields, updated in place. */
module Solvers {
  import opened Cubes
  import opened Tensors
  import opened Layers
  import opened Network

  // ---------------------------------------------------------------------
  // Configuration

  /** `BaseSolver`'s fields. The source's `uword`s are naturals here. */
  datatype Config = Config(
    batchSize: nat, learningRate: real, maxEpoch: nat,
    testInterval: nat, testSize: nat, snapshotInterval: nat, snapshotPrefix: string)

  /** `SdlmSolver` adds the Levenberg-Marquardt damping `mu` and the
      smoothing factor `gamma` of the curvature. */
  datatype SdlmConfig = SdlmConfig(base: Config, mu: real, gamma: real)

  /** The `BaseSolver` constructor: every argument is stored as given, and
      the snapshot prefix defaults to the empty string. */
  function BaseSolver(
    batchSize: nat, learningRate: real, maxEpoch: nat, testInterval: nat,
    testSize: nat, snapshotInterval: nat, snapshotPrefix: string := ""): (c: Config)
    ensures c.batchSize == batchSize && c.learningRate == learningRate && c.maxEpoch == maxEpoch
    ensures c.testInterval == testInterval && c.testSize == testSize
    ensures c.snapshotInterval == snapshotInterval && c.snapshotPrefix == snapshotPrefix
  {
    Config(batchSize, learningRate, maxEpoch, testInterval, testSize, snapshotInterval, snapshotPrefix)
  }

  /** The `SgdSolver` constructor hands all of its arguments to
      `BaseSolver` in the same order. */
  function SgdSolver(
    batchSize: nat, learningRate: real, maxEpoch: nat, testInterval: nat,
    testSize: nat, snapshotInterval: nat, snapshotPrefix: string := ""): (c: Config)
    ensures c == BaseSolver(batchSize, learningRate, maxEpoch, testInterval, testSize, snapshotInterval, snapshotPrefix)
  {
    Config(batchSize, learningRate, maxEpoch, testInterval, testSize, snapshotInterval, snapshotPrefix)
  }

  /** The `SdlmSolver` constructor: its base is built from the shared
      arguments and `mu`, `gamma` are stored as given. Note the argument
      order: `mu` and `gamma` come between the learning rate and the
      maximum epoch. */
  function SdlmSolver(
    batchSize: nat, learningRate: real, mu: real, gamma: real, maxEpoch: nat,
    testInterval: nat, testSize: nat, snapshotInterval: nat, snapshotPrefix: string := ""): (c: SdlmConfig)
    ensures c.base == BaseSolver(batchSize, learningRate, maxEpoch, testInterval, testSize, snapshotInterval, snapshotPrefix)
    ensures c.mu == mu && c.gamma == gamma
  {
    SdlmConfig(Config(batchSize, learningRate, maxEpoch, testInterval, testSize, snapshotInterval, snapshotPrefix), mu, gamma)
  }

  // ---------------------------------------------------------------------
  // The update of one element

  /** How a weight moves: `w += rate * g`, where SGD's rate is the
      learning rate and SDLM's the local rate `lr / (h + mu)` computed from
      the element's curvature h. */
  datatype Rule = Sgd(lr: real) | Sdlm(lr: real, mu: real)
  {
    /** The local rate exists: SDLM needs `h + mu` to be non-zero. */
    predicate Defined(h: real) {
      Sdlm? ==> h + mu != 0.0
    }

    /** The new value of a weight w whose gradient is g and whose
        curvature is h. */
    function Step(w: real, h: real, g: real): real
      requires Defined(h)
    {
      match this
      case Sgd(lr) => w + lr * g
      case Sdlm(lr, mu) => w + lr / (h + mu) * g
    }
  }

  // ---------------------------------------------------------------------
  // The update of one cube

  /** Element (r, c, s) lies in the corner `rows x cols x slices` that the
      update loops visit. */
  predicate Visited(rows: nat, cols: nat, slices: nat, r: nat, c: nat, s: nat) {
    r < rows && c < cols && s < slices
  }

  /** The weight cube w, its gradient g and its curvature h have one shape,
      the visited corner fits inside it, and the rule is defined on the
      visited part of h. */
  ghost predicate CubeSteppable(rule: Rule, w: Cube<real>, g: Cube<real>, h: Cube<real>, rows: nat, cols: nat, slices: nat) {
    && w.Valid() && g.Valid() && h.Valid() && g.Shape() == w.Shape() && h.Shape() == w.Shape()
    && rows <= w.rows && cols <= w.cols && slices <= w.slices
    && forall r: nat, c: nat, s: nat :: Visited(rows, cols, slices, r, c, s) ==> rule.Defined(h.At(r, c, s))
  }

  /** The cube after the update loops: each visited element has moved by
      its rate times its gradient, every other element is unchanged. */
  function SteppedCube(rule: Rule, w: Cube<real>, g: Cube<real>, h: Cube<real>, rows: nat, cols: nat, slices: nat): (y: Cube<real>)
    requires CubeSteppable(rule, w, g, h, rows, cols, slices)
    ensures y.Valid() && y.Shape() == w.Shape()
    ensures forall r: nat, c: nat, s: nat :: w.InBounds(r, c, s) ==>
      y.At(r, c, s) == if Visited(rows, cols, slices, r, c, s) then rule.Step(w.At(r, c, s), h.At(r, c, s), g.At(r, c, s)) else w.At(r, c, s)
  {
    Tabulate(w.rows, w.cols, w.slices, (r, c, s) requires w.InBounds(r, c, s) =>
      if Visited(rows, cols, slices, r, c, s) then rule.Step(w.At(r, c, s), h.At(r, c, s), g.At(r, c, s)) else w.At(r, c, s))
  }

  /** The elements before (r0, c0, s0) in the loops' order (slice, then
      column, then row) hold their values in t, the others those in w. */
  ghost predicate Progress(y: Cube<real>, w: Cube<real>, t: Cube<real>, r0: nat, c0: nat, s0: nat)
    requires w.Valid() && t.Valid() && t.Shape() == w.Shape()
  {
    && y.Valid() && y.Shape() == w.Shape()
    && forall r: nat, c: nat, s: nat :: w.InBounds(r, c, s) ==>
         y.At(r, c, s) == if s < s0 || (s == s0 && (c < c0 || (c == c0 && r < r0))) then t.At(r, c, s) else w.At(r, c, s)
  }

  /** The three inner loops of the update, over the slices, columns and
      rows of the corner `rows x cols x slices`. */
  method StepCube(rule: Rule, w: Cube<real>, g: Cube<real>, h: Cube<real>, rows: nat, cols: nat, slices: nat)
    returns (y: Cube<real>)
    requires CubeSteppable(rule, w, g, h, rows, cols, slices)
    ensures y == SteppedCube(rule, w, g, h, rows, cols, slices)
  {
    ghost var t := SteppedCube(rule, w, g, h, rows, cols, slices);
    y := w;
    for s := 0 to slices
      invariant Progress(y, w, t, 0, 0, s)
    {
      y := StepSlice(rule, w, g, h, rows, cols, slices, t, y, s);
    }
    ProgressDone(rule, w, g, h, rows, cols, slices, t, y);
  }

  /** Once every visited slice is done, the cube is the target: the
      elements not visited hold the same value in both. */
  lemma ProgressDone(rule: Rule, w: Cube<real>, g: Cube<real>, h: Cube<real>, rows: nat, cols: nat, slices: nat,
                     t: Cube<real>, y: Cube<real>)
    requires CubeSteppable(rule, w, g, h, rows, cols, slices) && t == SteppedCube(rule, w, g, h, rows, cols, slices)
    requires Progress(y, w, t, 0, 0, slices)
    ensures y == t
  {
    forall r: nat, c: nat, s: nat | y.InBounds(r, c, s) ensures y.At(r, c, s) == t.At(r, c, s) {
      if slices <= s {
        assert !Visited(rows, cols, slices, r, c, s);
      }
    }
    Extensionality(y, t);
  }

  /** One turn of the slice loop: the columns of slice s. */
  method StepSlice(rule: Rule, w: Cube<real>, g: Cube<real>, h: Cube<real>, rows: nat, cols: nat, slices: nat,
                   ghost t: Cube<real>, y: Cube<real>, s: nat)
    returns (y': Cube<real>)
    requires CubeSteppable(rule, w, g, h, rows, cols, slices) && t == SteppedCube(rule, w, g, h, rows, cols, slices)
    requires s < slices && Progress(y, w, t, 0, 0, s)
    ensures Progress(y', w, t, 0, 0, s + 1)
  {
    y' := y;
    for c := 0 to cols
      invariant Progress(y', w, t, 0, c, s)
    {
      y' := StepColumn(rule, w, g, h, rows, cols, slices, t, y', c, s);
    }
  }

  /** One turn of the column loop: the rows of column c in slice s. */
  method StepColumn(rule: Rule, w: Cube<real>, g: Cube<real>, h: Cube<real>, rows: nat, cols: nat, slices: nat,
                    ghost t: Cube<real>, y: Cube<real>, c: nat, s: nat)
    returns (y': Cube<real>)
    requires CubeSteppable(rule, w, g, h, rows, cols, slices) && t == SteppedCube(rule, w, g, h, rows, cols, slices)
    requires c < cols && s < slices && Progress(y, w, t, 0, c, s)
    ensures Progress(y', w, t, 0, c + 1, s)
  {
    y' := y;
    for r := 0 to rows
      invariant Progress(y', w, t, r, c, s)
    {
      y' := y'.Set(r, c, s, rule.Step(y'.At(r, c, s), h.At(r, c, s), g.At(r, c, s)));
    }
  }

  // ---------------------------------------------------------------------
  // The update of one tensor

  /** The cubes of w, g and h pair up, and each triple can take the update
      of the corner that w's metadata describes: the loops index every cube
      of w by `n_rows`, `n_cols` and `n_slices`, not by the cube's own
      extents. */
  ghost predicate Steppable(rule: Rule, w: Tensor4d, g: Tensor4d, h: Tensor4d) {
    && |g.data| == |w.data| && |h.data| == |w.data|
    && forall i :: 0 <= i < |w.data| ==> CubeSteppable(rule, w.data[i], g.data[i], h.data[i], w.nRows, w.nCols, w.nSlices)
  }

  /** The tensor after the update: its metadata is kept and each cube is
      stepped in the corner the metadata describes. */
  function SteppedTensor(rule: Rule, w: Tensor4d, g: Tensor4d, h: Tensor4d): (y: Tensor4d)
    requires Steppable(rule, w, g, h)
    ensures y.nSize == w.nSize && y.nRows == w.nRows && y.nCols == w.nCols && y.nSlices == w.nSlices
    ensures |y.data| == |w.data|
    ensures forall i :: 0 <= i < |w.data| ==> y.data[i] == SteppedCube(rule, w.data[i], g.data[i], h.data[i], w.nRows, w.nCols, w.nSlices)
  {
    w.(data := seq(|w.data|, i requires 0 <= i < |w.data| => SteppedCube(rule, w.data[i], g.data[i], h.data[i], w.nRows, w.nCols, w.nSlices)))
  }

  /** The loop over the cubes of one weight tensor. */
  method StepTensor(rule: Rule, w: Tensor4d, g: Tensor4d, h: Tensor4d) returns (y: Tensor4d)
    requires Steppable(rule, w, g, h)
    ensures y == SteppedTensor(rule, w, g, h)
  {
    ghost var t := SteppedTensor(rule, w, g, h);
    var data := w.data;
    for item := 0 to |w.data|
      invariant |data| == |w.data|
      invariant forall i :: 0 <= i < item ==> data[i] == t.data[i]
      invariant forall i :: item <= i < |w.data| ==> data[i] == w.data[i]
    {
      var cube := StepCube(rule, w.data[item], g.data[item], h.data[item], w.nRows, w.nCols, w.nSlices);
      data := data[item := cube];
    }
    assert data == t.data;
    y := w.(data := data);
  }

  // ---------------------------------------------------------------------
  // The update of all layers

  /** One pair of tensors per layer: its weights and bias weights, or their
      gradients, or their curvatures. */
  type PerLayer = seq<(Tensor4d, Tensor4d)>

  /** The gradients g and curvatures h fit the weights ws, layer for layer. */
  ghost predicate Fits(rule: Rule, ws: PerLayer, g: PerLayer, h: PerLayer) {
    && |g| == |ws| && |h| == |ws|
    && forall n :: 0 <= n < |ws| ==> Steppable(rule, ws[n].0, g[n].0, h[n].0) && Steppable(rule, ws[n].1, g[n].1, h[n].1)
  }

  /** The weights after the update of every layer. */
  function SteppedAll(rule: Rule, ws: PerLayer, g: PerLayer, h: PerLayer): (r: PerLayer)
    requires Fits(rule, ws, g, h)
    ensures |r| == |ws|
    ensures forall n :: 0 <= n < |ws| ==> r[n] == (SteppedTensor(rule, ws[n].0, g[n].0, h[n].0), SteppedTensor(rule, ws[n].1, g[n].1, h[n].1))
  {
    seq(|ws|, n requires 0 <= n < |ws| => (SteppedTensor(rule, ws[n].0, g[n].0, h[n].0), SteppedTensor(rule, ws[n].1, g[n].1, h[n].1)))
  }

  /** The weights and bias weights of the layers, `Weights(n)` and
      `BiasWeights(n)` for every n. */
  function WeightsOf(ls: seq<Layer>): (ws: PerLayer)
    reads ls`weights, ls`biasWeights
    ensures |ws| == |ls|
    ensures forall j :: 0 <= j < |ls| ==> ws[j] == (ls[j].weights, ls[j].biasWeights)
    decreases |ls|
  {
    if ls == [] then []
    else WeightsOf(ls[..|ls| - 1]) + [(ls[|ls| - 1].weights, ls[|ls| - 1].biasWeights)]
  }

  /** The update loop over the layers: the weights and then the bias
      weights of each layer are stepped in place. */
  method StepLayers(rule: Rule, ls: seq<Layer>, g: PerLayer, h: PerLayer)
    requires (forall i, j :: 0 <= i < j < |ls| ==> ls[i] != ls[j]) && Fits(rule, WeightsOf(ls), g, h)
    modifies ls`weights, ls`biasWeights
    ensures WeightsOf(ls) == SteppedAll(rule, old(WeightsOf(ls)), g, h)
  {
    ghost var ws := WeightsOf(ls);
    ghost var target := SteppedAll(rule, ws, g, h);
    for n := 0 to |ls|
      invariant forall j :: 0 <= j < n ==> (ls[j].weights, ls[j].biasWeights) == target[j]
      invariant forall j :: n <= j < |ls| ==> (ls[j].weights, ls[j].biasWeights) == ws[j]
    {
      var w := StepTensor(rule, ls[n].weights, g[n].0, h[n].0);
      ls[n].weights := w;
      var b := StepTensor(rule, ls[n].biasWeights, g[n].1, h[n].1);
      ls[n].biasWeights := b;
    }
    assert WeightsOf(ls) == target;
  }

  // ---------------------------------------------------------------------
  // Whole-cube arithmetic on gradient lists

  /** The whole-cube assignments the solvers make on a gradient or
      curvature list x, given a second list y: `x += y` while summing a
      batch, `x /= batch_size` when averaging it (y is not used), and
      `x = (1 - gamma) * y + gamma * x` when the curvature x of this epoch
      is smoothed with the curvature y of the last one. */
  datatype Op = Plus | DivideBy(k: nat) | Blend(gamma: real)
  {
    predicate Defined() { DivideBy? ==> k > 0 }

    /** The new value of an element of x, given the matching element of y. */
    function Value(x: real, y: real): real
      requires Defined()
    {
      match this
      case Plus => x + y
      case DivideBy(k) => x / k as real
      case Blend(gamma) => (1.0 - gamma) * y + gamma * x
    }
  }

  /** `x /= k`. */
  function Quotient(x: Cube<real>, k: nat): (z: Cube<real>)
    requires x.Valid() && k > 0
    ensures z.Valid() && z.Shape() == x.Shape()
    ensures forall r: nat, c: nat, s: nat :: x.InBounds(r, c, s) ==> z.At(r, c, s) == x.At(r, c, s) / k as real
  {
    Tabulate(x.rows, x.cols, x.slices, (r, c, s) requires x.InBounds(r, c, s) => x.At(r, c, s) / k as real)
  }

  /** `(1 - gamma) * y + gamma * x`. */
  function Blended(gamma: real, x: Cube<real>, y: Cube<real>): (z: Cube<real>)
    requires x.Valid() && y.Valid() && x.Shape() == y.Shape()
    ensures z.Valid() && z.Shape() == x.Shape()
    ensures forall r: nat, c: nat, s: nat :: x.InBounds(r, c, s) ==> z.At(r, c, s) == (1.0 - gamma) * y.At(r, c, s) + gamma * x.At(r, c, s)
  {
    Tabulate(x.rows, x.cols, x.slices, (r, c, s) requires x.InBounds(r, c, s) => (1.0 - gamma) * y.At(r, c, s) + gamma * x.At(r, c, s))
  }

  function Apply(op: Op, x: Cube<real>, y: Cube<real>): (z: Cube<real>)
    requires op.Defined() && x.Valid() && y.Valid() && x.Shape() == y.Shape()
    ensures z.Valid() && z.Shape() == x.Shape()
    ensures forall r: nat, c: nat, s: nat :: x.InBounds(r, c, s) ==> z.At(r, c, s) == op.Value(x.At(r, c, s), y.At(r, c, s))
  {
    match op
    case Plus => Add(x, y)
    case DivideBy(k) => Quotient(x, k)
    case Blend(gamma) => Blended(gamma, x, y)
  }

  /** The extents of a tensor's cubes, in order. */
  function Extents(t: Tensor4d): (e: seq<Shape>)
    ensures |e| == |t.data| && forall i :: 0 <= i < |t.data| ==> e[i] == t.data[i].Shape()
  {
    seq(|t.data|, i requires 0 <= i < |t.data| => t.data[i].Shape())
  }

  /** The extents of the cubes of the two tensors of every layer. */
  type Layout = seq<(seq<Shape>, seq<Shape>)>

  /** The layout of a list: the extents of every tensor of every layer. */
  function LayoutOf(a: PerLayer): (l: Layout)
    ensures |l| == |a| && forall n :: 0 <= n < |a| ==> l[n] == (Extents(a[n].0), Extents(a[n].1))
  {
    seq(|a|, n requires 0 <= n < |a| => (Extents(a[n].0), Extents(a[n].1)))
  }

  ghost predicate TensorValid(t: Tensor4d) {
    forall i :: 0 <= i < |t.data| ==> t.data[i].Valid()
  }

  ghost predicate ListValid(a: PerLayer) {
    forall n :: 0 <= n < |a| ==> TensorValid(a[n].0) && TensorValid(a[n].1)
  }

  /** Two tensors hold as many cubes, shape for shape. */
  ghost predicate TensorsAlike(a: Tensor4d, b: Tensor4d) {
    TensorValid(a) && TensorValid(b) && Extents(a) == Extents(b)
  }

  /** Two lists have one layout: as many layers, tensors alike. */
  ghost predicate Alike(a: PerLayer, b: PerLayer) {
    ListValid(a) && ListValid(b) && LayoutOf(a) == LayoutOf(b)
  }

  /** The tensor x after the assignment of every cube: x keeps its
      metadata. */
  function CombinedTensor(op: Op, x: Tensor4d, y: Tensor4d): (z: Tensor4d)
    requires op.Defined() && TensorsAlike(x, y)
    ensures z.nSize == x.nSize && z.nRows == x.nRows && z.nCols == x.nCols && z.nSlices == x.nSlices
    ensures TensorsAlike(z, x)
    ensures forall i :: 0 <= i < |x.data| ==> z.data[i] == Apply(op, x.data[i], y.data[i])
  {
    x.(data := seq(|x.data|, i requires 0 <= i < |x.data| => Apply(op, x.data[i], y.data[i])))
  }

  /** The list x after the assignment of every cube of every layer. */
  function Combined(op: Op, x: PerLayer, y: PerLayer): (z: PerLayer)
    requires op.Defined() && Alike(x, y)
    ensures Alike(z, x)
    ensures forall n :: 0 <= n < |x| ==> z[n] == (CombinedTensor(op, x[n].0, y[n].0), CombinedTensor(op, x[n].1, y[n].1))
  {
    seq(|x|, n requires 0 <= n < |x| => (CombinedTensor(op, x[n].0, y[n].0), CombinedTensor(op, x[n].1, y[n].1)))
  }

  /** The loop over the cubes of one tensor. */
  method CombineTensor(op: Op, x: Tensor4d, y: Tensor4d) returns (z: Tensor4d)
    requires op.Defined() && TensorsAlike(x, y)
    ensures z == CombinedTensor(op, x, y)
  {
    ghost var t := CombinedTensor(op, x, y);
    var data := x.data;
    for item := 0 to |x.data|
      invariant |data| == |x.data|
      invariant forall i :: 0 <= i < item ==> data[i] == t.data[i]
      invariant forall i :: item <= i < |x.data| ==> data[i] == x.data[i]
    {
      data := data[item := Apply(op, data[item], y.data[item])];
    }
    assert data == t.data;
    z := x.(data := data);
  }

  /** The loop over the layers: the weight gradients, then the bias
      gradients of each layer. */
  method Combine(op: Op, x: PerLayer, y: PerLayer) returns (z: PerLayer)
    requires op.Defined() && Alike(x, y)
    ensures z == Combined(op, x, y)
  {
    ghost var t := Combined(op, x, y);
    z := x;
    for n := 0 to |x|
      invariant |z| == |x|
      invariant forall j :: 0 <= j < n ==> z[j] == t[j]
      invariant forall j :: n <= j < |x| ==> z[j] == x[j]
    {
      var first := CombineTensor(op, z[n].0, y[n].0);
      var second := CombineTensor(op, z[n].1, y[n].1);
      z := z[n := (first, second)];
    }
    assert z == t;
  }

  // ---------------------------------------------------------------------
  // Batches

  /** Every list of the batch has the layout of the first. */
  ghost predicate Uniform(gs: seq<PerLayer>) {
    |gs| > 0 && forall i :: 0 <= i < |gs| ==> Alike(gs[i], gs[0])
  }

  /** The running sum of a batch in the order the samples were drawn: the
      first list, then `+=` each of the others. */
  function BatchSum(gs: seq<PerLayer>): (sum: PerLayer)
    requires Uniform(gs)
    ensures Alike(sum, gs[0])
    decreases |gs|
  {
    if |gs| == 1 then gs[0]
    else
      var front := gs[..|gs| - 1];
      assert Uniform(front) && front[0] == gs[0];
      Combined(Plus, BatchSum(front), gs[|gs| - 1])
  }

  /** The batch's average: the sum divided, cube by cube, by the batch
      size. */
  function BatchMean(gs: seq<PerLayer>): (mean: PerLayer)
    requires Uniform(gs)
    ensures Alike(mean, gs[0])
  {
    var sum := BatchSum(gs);
    Combined(DivideBy(|gs|), sum, sum)
  }

  /** The sum of a sequence of errors, accumulated from the front. */
  function Total(xs: seq<real>): real
    decreases |xs|
  {
    if xs == [] then 0.0 else Total(xs[..|xs| - 1]) + xs[|xs| - 1]
  }

  /** The mean of k copies of one error is that error. */
  lemma {:induction false} TotalOfCopies(x: real, k: nat)
    ensures Total(seq(k, _ => x)) == k as real * x
  {
    if k > 0 {
      var xs := seq(k, _ => x);
      assert xs[..k - 1] == seq(k - 1, _ => x);
      TotalOfCopies(x, k - 1);
    }
  }

  // ---------------------------------------------------------------------
  // A batch of equal gradients

  /** Every cube of t multiplied by k. */
  ghost function ScaledTensor(k: real, t: Tensor4d): (u: Tensor4d)
    requires TensorValid(t)
  {
    t.(data := seq(|t.data|, i requires 0 <= i < |t.data| => Scale(k, t.data[i])))
  }

  ghost function ScaledList(k: real, g: PerLayer): (u: PerLayer)
    requires ListValid(g)
  {
    seq(|g|, n requires 0 <= n < |g| => (ScaledTensor(k, g[n].0), ScaledTensor(k, g[n].1)))
  }

  lemma ScaleByOne(x: Cube<real>)
    requires x.Valid()
    ensures Scale(1.0, x) == x
  {
    Extensionality(Scale(1.0, x), x);
  }

  lemma ScaleStep(k: real, x: Cube<real>)
    requires x.Valid()
    ensures Apply(Plus, Scale(k, x), x) == Scale(k + 1.0, x)
  {
    Extensionality(Apply(Plus, Scale(k, x), x), Scale(k + 1.0, x));
  }

  lemma ScaleUndone(k: nat, x: Cube<real>)
    requires x.Valid() && k > 0
    ensures Apply(DivideBy(k), Scale(k as real, x), Scale(k as real, x)) == x
  {
    var y := Scale(k as real, x);
    var z := Apply(DivideBy(k), y, y);
    forall r: nat, c: nat, s: nat | z.InBounds(r, c, s) ensures z.At(r, c, s) == x.At(r, c, s) {
      Cancel(x.At(r, c, s), k as real);
    }
    Extensionality(z, x);
  }

  lemma Cancel(a: real, k: real)
    requires k != 0.0
    ensures (k * a) / k == a
  {
  }

  /** One copy of g is g. */
  lemma ScaledListOne(g: PerLayer)
    requires ListValid(g)
    ensures ScaledList(1.0, g) == g
  {
    forall n | 0 <= n < |g| ensures ScaledList(1.0, g)[n] == g[n] {
      forall i | 0 <= i < |g[n].0.data| ensures ScaledTensor(1.0, g[n].0).data[i] == g[n].0.data[i] {
        ScaleByOne(g[n].0.data[i]);
      }
      assert ScaledTensor(1.0, g[n].0).data == g[n].0.data;
      forall i | 0 <= i < |g[n].1.data| ensures ScaledTensor(1.0, g[n].1).data[i] == g[n].1.data[i] {
        ScaleByOne(g[n].1.data[i]);
      }
      assert ScaledTensor(1.0, g[n].1).data == g[n].1.data;
    }
  }

  lemma ScaledListAlike(k: real, g: PerLayer)
    requires ListValid(g)
    ensures Alike(ScaledList(k, g), g)
  {
    var a := ScaledList(k, g);
    forall n | 0 <= n < |g| ensures Extents(a[n].0) == Extents(g[n].0) && Extents(a[n].1) == Extents(g[n].1) {
    }
    assert LayoutOf(a) == LayoutOf(g);
  }

  /** Adding g to k copies of g gives k + 1 copies. */
  lemma ScaledListStep(k: real, g: PerLayer)
    requires ListValid(g)
    ensures Alike(ScaledList(k, g), g)
    ensures Combined(Plus, ScaledList(k, g), g) == ScaledList(k + 1.0, g)
  {
    var a := ScaledList(k, g);
    ScaledListAlike(k, g);
    var b := Combined(Plus, a, g);
    forall n | 0 <= n < |g| ensures b[n] == ScaledList(k + 1.0, g)[n] {
      TensorStep(k, g[n].0);
      TensorStep(k, g[n].1);
    }
  }

  lemma TensorStep(k: real, t: Tensor4d)
    requires TensorValid(t)
    ensures TensorsAlike(ScaledTensor(k, t), t)
    ensures CombinedTensor(Plus, ScaledTensor(k, t), t) == ScaledTensor(k + 1.0, t)
  {
    var a := ScaledTensor(k, t);
    assert Extents(a) == Extents(t);
    var b := CombinedTensor(Plus, a, t);
    forall i | 0 <= i < |t.data| ensures b.data[i] == ScaledTensor(k + 1.0, t).data[i] {
      ScaleStep(k, t.data[i]);
    }
    assert b.data == ScaledTensor(k + 1.0, t).data;
  }

  /** The sum of a batch of k copies of g is k times g. */
  lemma {:induction false} BatchSumOfCopies(g: PerLayer, k: nat)
    requires ListValid(g) && k > 0
    ensures Uniform(seq(k, _ => g))
    ensures BatchSum(seq(k, _ => g)) == ScaledList(k as real, g)
  {
    var gs := seq(k, _ => g);
    assert Uniform(gs);
    if k == 1 {
      ScaledListOne(g);
    } else {
      assert gs[..k - 1] == seq(k - 1, _ => g);
      BatchSumOfCopies(g, k - 1);
      ScaledListStep((k - 1) as real, g);
    }
  }

  /** The average of a batch of k copies of g is g itself. */
  lemma BatchMeanOfCopies(g: PerLayer, k: nat)
    requires ListValid(g) && k > 0
    ensures Uniform(seq(k, _ => g))
    ensures BatchMean(seq(k, _ => g)) == g
  {
    BatchSumOfCopies(g, k);
    var s := ScaledList(k as real, g);
    var m := BatchMean(seq(k, _ => g));
    forall n | 0 <= n < |g| ensures m[n] == g[n] {
      forall i | 0 <= i < |g[n].0.data| ensures m[n].0.data[i] == g[n].0.data[i] {
        ScaleUndone(k, g[n].0.data[i]);
      }
      assert m[n].0.data == g[n].0.data;
      forall i | 0 <= i < |g[n].1.data| ensures m[n].1.data[i] == g[n].1.data[i] {
        ScaleUndone(k, g[n].1.data[i]);
      }
      assert m[n].1.data == g[n].1.data;
    }
  }

  // ---------------------------------------------------------------------
  // Non-negative curvature

  ghost predicate CubeNonNegative(x: Cube<real>) {
    x.Valid() && forall r: nat, c: nat, s: nat :: x.InBounds(r, c, s) ==> 0.0 <= x.At(r, c, s)
  }

  ghost predicate TensorNonNegative(t: Tensor4d) {
    forall i :: 0 <= i < |t.data| ==> CubeNonNegative(t.data[i])
  }

  /** Every element of every cube of the list is at least zero, as the
      diagonal curvature estimates of the second-order pass are. */
  ghost predicate NonNegative(a: PerLayer) {
    forall n :: 0 <= n < |a| ==> TensorNonNegative(a[n].0) && TensorNonNegative(a[n].1)
  }

  /** Summing, dividing by the batch size and blending with a factor in
      [0, 1] keep non-negative values non-negative. */
  lemma ValueNonNegative(op: Op, x: real, y: real)
    requires op.Defined() && 0.0 <= x && 0.0 <= y && (op.Blend? ==> 0.0 <= op.gamma <= 1.0)
    ensures 0.0 <= op.Value(x, y)
  {
    match op
    case Plus =>
    case DivideBy(k) =>
    case Blend(gamma) =>
      assert 0.0 <= (1.0 - gamma) * y;
      assert 0.0 <= gamma * x;
  }

  lemma ApplyNonNegative(op: Op, x: Cube<real>, y: Cube<real>)
    requires op.Defined() && x.Shape() == y.Shape() && CubeNonNegative(x) && CubeNonNegative(y)
    requires op.Blend? ==> 0.0 <= op.gamma <= 1.0
    ensures CubeNonNegative(Apply(op, x, y))
  {
    var z := Apply(op, x, y);
    forall r: nat, c: nat, s: nat | z.InBounds(r, c, s) ensures 0.0 <= z.At(r, c, s) {
      ValueNonNegative(op, x.At(r, c, s), y.At(r, c, s));
    }
  }

  lemma CombinedTensorNonNegative(op: Op, x: Tensor4d, y: Tensor4d)
    requires op.Defined() && TensorsAlike(x, y) && TensorNonNegative(x) && TensorNonNegative(y)
    requires op.Blend? ==> 0.0 <= op.gamma <= 1.0
    ensures TensorNonNegative(CombinedTensor(op, x, y))
  {
    forall i | 0 <= i < |x.data| ensures CubeNonNegative(CombinedTensor(op, x, y).data[i]) {
      assert Extents(x)[i] == Extents(y)[i];
      ApplyNonNegative(op, x.data[i], y.data[i]);
    }
  }

  lemma CombinedNonNegative(op: Op, x: PerLayer, y: PerLayer)
    requires op.Defined() && Alike(x, y) && NonNegative(x) && NonNegative(y)
    requires op.Blend? ==> 0.0 <= op.gamma <= 1.0
    ensures NonNegative(Combined(op, x, y))
  {
    forall n | 0 <= n < |x| ensures TensorNonNegative(Combined(op, x, y)[n].0) && TensorNonNegative(Combined(op, x, y)[n].1) {
      assert LayoutOf(x)[n] == LayoutOf(y)[n];
      CombinedTensorNonNegative(op, x[n].0, y[n].0);
      CombinedTensorNonNegative(op, x[n].1, y[n].1);
    }
  }

  /** The sum of a batch of non-negative lists is non-negative. */
  lemma {:induction false} BatchSumNonNegative(gs: seq<PerLayer>)
    requires Uniform(gs) && forall i :: 0 <= i < |gs| ==> NonNegative(gs[i])
    ensures NonNegative(BatchSum(gs))
    decreases |gs|
  {
    if |gs| > 1 {
      var front := gs[..|gs| - 1];
      assert Uniform(front) && front[0] == gs[0];
      forall i | 0 <= i < |front| ensures NonNegative(front[i]) {
        assert front[i] == gs[i];
      }
      BatchSumNonNegative(front);
      BatchSumStepNonNegative(gs);
    } else {
      assert BatchSum(gs) == gs[0];
    }
  }

  /** Adding a non-negative list to a non-negative running sum keeps it
      non-negative. */
  lemma BatchSumStepNonNegative(gs: seq<PerLayer>)
    requires Uniform(gs) && |gs| > 1 && NonNegative(gs[|gs| - 1])
    requires Uniform(gs[..|gs| - 1]) && NonNegative(BatchSum(gs[..|gs| - 1]))
    ensures NonNegative(BatchSum(gs))
  {
    var sum, last := BatchSum(gs[..|gs| - 1]), gs[|gs| - 1];
    assert gs[..|gs| - 1][0] == gs[0];
    assert Alike(sum, last);
    CombinedNonNegative(Plus, sum, last);
    assert BatchSum(gs) == Combined(Plus, sum, last);
  }

  /** ... and so is its average. */
  lemma BatchMeanNonNegative(gs: seq<PerLayer>)
    requires Uniform(gs) && forall i :: 0 <= i < |gs| ==> NonNegative(gs[i])
    ensures NonNegative(BatchMean(gs))
  {
    BatchSumNonNegative(gs);
    CombinedNonNegative(DivideBy(|gs|), BatchSum(gs), BatchSum(gs));
  }

  // ---------------------------------------------------------------------
  // Weights the update loops can index

  ghost predicate TensorIndexable(t: Tensor4d) {
    forall i :: 0 <= i < |t.data| ==>
      t.data[i].Valid() && t.nRows <= t.data[i].rows && t.nCols <= t.data[i].cols && t.nSlices <= t.data[i].slices
  }

  /** Every weight tensor's metadata describes a corner of each of its
      cubes, so that the loops over `n_rows`, `n_cols` and `n_slices` stay
      inside every cube. */
  ghost predicate Indexable(ws: PerLayer) {
    forall n :: 0 <= n < |ws| ==> TensorIndexable(ws[n].0) && TensorIndexable(ws[n].1)
  }

  lemma TensorFits(rule: Rule, w: Tensor4d, g: Tensor4d, h: Tensor4d)
    requires TensorIndexable(w) && TensorsAlike(g, w) && TensorsAlike(h, w)
    requires rule.Sdlm? ==> 0.0 < rule.mu && TensorNonNegative(h)
    ensures Steppable(rule, w, g, h)
  {
    forall i | 0 <= i < |w.data| ensures CubeSteppable(rule, w.data[i], g.data[i], h.data[i], w.nRows, w.nCols, w.nSlices) {
      assert Extents(g)[i] == Extents(w)[i] && Extents(h)[i] == Extents(w)[i];
    }
  }

  /** Gradients and curvatures with the layout of indexable weights can
      drive the update; for SDLM, a positive damping over non-negative
      curvature keeps every `h + mu` away from zero. */
  lemma FitsWhen(rule: Rule, ws: PerLayer, g: PerLayer, h: PerLayer)
    requires Indexable(ws) && Alike(g, ws) && Alike(h, ws)
    requires rule.Sdlm? ==> 0.0 < rule.mu && NonNegative(h)
    ensures Fits(rule, ws, g, h)
  {
    forall n | 0 <= n < |ws| ensures Steppable(rule, ws[n].0, g[n].0, h[n].0) && Steppable(rule, ws[n].1, g[n].1, h[n].1) {
      assert LayoutOf(g)[n] == LayoutOf(ws)[n] && LayoutOf(h)[n] == LayoutOf(ws)[n];
      TensorFits(rule, ws[n].0, g[n].0, h[n].0);
      TensorFits(rule, ws[n].1, g[n].1, h[n].1);
    }
  }

  /** The update keeps the layout and the metadata of the weights. */
  lemma SteppedKeepsLayout(rule: Rule, ws: PerLayer, g: PerLayer, h: PerLayer)
    requires Indexable(ws) && Fits(rule, ws, g, h)
    ensures Indexable(SteppedAll(rule, ws, g, h)) && Alike(SteppedAll(rule, ws, g, h), ws)
  {
    var next := SteppedAll(rule, ws, g, h);
    forall n | 0 <= n < |ws|
      ensures TensorIndexable(next[n].0) && TensorIndexable(next[n].1)
      ensures Extents(next[n].0) == Extents(ws[n].0) && Extents(next[n].1) == Extents(ws[n].1)
    {
      SteppedTensorKeepsLayout(rule, ws[n].0, g[n].0, h[n].0);
      SteppedTensorKeepsLayout(rule, ws[n].1, g[n].1, h[n].1);
    }
    assert LayoutOf(next) == LayoutOf(ws);
  }

  lemma SteppedTensorKeepsLayout(rule: Rule, w: Tensor4d, g: Tensor4d, h: Tensor4d)
    requires TensorIndexable(w) && Steppable(rule, w, g, h)
    ensures TensorIndexable(SteppedTensor(rule, w, g, h)) && Extents(SteppedTensor(rule, w, g, h)) == Extents(w)
  {
    var y := SteppedTensor(rule, w, g, h);
    assert forall i :: 0 <= i < |w.data| ==> y.data[i].Shape() == w.data[i].Shape();
    assert Extents(y) == Extents(w);
  }

  // ---------------------------------------------------------------------
  // Test and snapshot intervals

  /** An interval of zero switches the action off; otherwise it happens
      after every epoch whose one-based number is a multiple of it. */
  predicate Every(interval: nat, epoch: nat) {
    interval != 0 && (epoch + 1) % interval == 0
  }

  /** SDLM computes the test error at the start of such an epoch. */
  predicate ShouldTest(c: Config, epoch: nat) {
    Every(c.testInterval, epoch)
  }

  /** Both solvers write a snapshot at the end of such an epoch. */
  predicate ShouldSnapshot(c: Config, epoch: nat) {
    Every(c.snapshotInterval, epoch)
  }

  /** `Every` holds exactly for the epochs whose number is a positive
      multiple of a non-zero interval. */
  lemma EveryIffMultiple(interval: nat, epoch: nat)
    ensures Every(interval, epoch) <==> interval != 0 && exists m: nat :: epoch + 1 == m * interval
  {
    if interval != 0 && (exists m: nat :: epoch + 1 == m * interval) {
      var m: nat :| epoch + 1 == m * interval;
      MultipleMod(m, interval);
    }
    if Every(interval, epoch) {
      assert epoch + 1 == ((epoch + 1) / interval) * interval;
    }
  }

  lemma MultipleMod(m: nat, n: nat)
    requires n > 0
    ensures (m * n) % n == 0
  {
    DivModUnique(m, 0, (m * n) / n, (m * n) % n, n);
  }

  /** How many of the first k epochs the interval selects. */
  function Count(interval: nat, k: nat): nat
    decreases k
  {
    if k == 0 then 0 else Count(interval, k - 1) + if Every(interval, k - 1) then 1 else 0
  }

  /** A non-zero interval selects `k / interval` of the first k epochs;
      zero selects none. */
  lemma {:induction false} CountIs(interval: nat, k: nat)
    ensures Count(interval, k) == if interval == 0 then 0 else k / interval
  {
    if k > 0 {
      CountIs(interval, k - 1);
      if interval != 0 {
        QuotientStep(k - 1, interval);
      }
    }
  }

  /** Moving from j to j + 1 raises the quotient by one exactly when
      j + 1 is a multiple of n. */
  lemma QuotientStep(j: nat, n: nat)
    requires n > 0
    ensures (j + 1) / n == j / n + if (j + 1) % n == 0 then 1 else 0
  {
    var q, m := j / n, j % n;
    assert j == q * n + m;
    if m + 1 == n {
      assert j + 1 == (q + 1) * n + 0;
      DivModUnique((j + 1) / n, (j + 1) % n, q + 1, 0, n);
    } else {
      assert j + 1 == q * n + (m + 1);
      DivModUnique((j + 1) / n, (j + 1) % n, q, m + 1, n);
    }
  }

  // ---------------------------------------------------------------------
  // Snapshot names

  function Digit(d: nat): char
    requires d < 10
  {
    "0123456789"[d]
  }

  predicate IsDigit(ch: char) {
    '0' as int <= ch as int <= '9' as int
  }

  /** The decimal numeral of n, as the `%1%` of `wformat` writes an
      unsigned number: at least one digit and no leading zero. */
  function Decimal(n: nat): (s: string)
    ensures |s| > 0 && forall i :: 0 <= i < |s| ==> IsDigit(s[i])
    ensures s[0] == '0' ==> n == 0
    decreases n
  {
    if n < 10 then [Digit(n)] else Decimal(n / 10) + [Digit(n % 10)]
  }

  /** The number a string of digits denotes. */
  function ValueOf(s: string): nat
    requires forall i :: 0 <= i < |s| ==> IsDigit(s[i])
    decreases |s|
  {
    if s == [] then 0
    else
      assert IsDigit(s[|s| - 1]);
      10 * ValueOf(s[..|s| - 1]) + (s[|s| - 1] as int - '0' as int)
  }

  /** Reading the numeral back gives the number. */
  lemma {:induction false} DecimalRoundTrip(n: nat)
    ensures ValueOf(Decimal(n)) == n
    decreases n
  {
    var s := Decimal(n);
    if n < 10 {
      assert s[..0] == [];
    } else {
      var front := Decimal(n / 10);
      assert s[..|s| - 1] == front;
      DecimalRoundTrip(n / 10);
    }
  }

  /** The file a snapshot after epoch `epoch` (counted from zero) goes to:
      the prefix, an underscore and the one-based epoch number. */
  function SnapshotName(prefix: string, epoch: nat): (name: string)
    ensures |name| > |prefix| + 1 && name[..|prefix|] == prefix && name[|prefix|] == '_'
    ensures forall i :: |prefix| < i < |name| ==> IsDigit(name[i])
    ensures ValueOf(name[|prefix| + 1..]) == epoch + 1
  {
    var digits := Decimal(epoch + 1);
    var name := prefix + "_" + digits;
    assert name[|prefix| + 1..] == digits;
    DecimalRoundTrip(epoch + 1);
    name
  }

  /** Different epochs write to different files. */
  lemma SnapshotNamesDistinct(prefix: string, e: nat, e': nat)
    requires e != e'
    ensures SnapshotName(prefix, e) != SnapshotName(prefix, e')
  {
  }

  // ---------------------------------------------------------------------
  // The network as a source of samples

  /** What the network hands back for one training sample: the `Error()`
      after `Forward()`, and the results of `Backpropagation()` and of
      `Backpropagation_2nd()`. */
  datatype Sample = Sample(error: real, gradient: PerLayer, curvature: PerLayer)

  /** `train(e, i, ws)` is the sample the network gives as the i-th of the
      batch of epoch e when its weights are ws; `test(e, i, ws)` is the
      `Error()` of the i-th test image of epoch e. Which images are loaded
      is the loader's random choice and is folded into the two
      functions. */
  datatype Source = Source(train: (nat, nat, PerLayer) -> Sample, test: (nat, nat, PerLayer) -> real)

  /** For weights of layout l, every gradient list has layout l too. */
  ghost predicate GradientsFit(src: Source, l: Layout) {
    forall e: nat, i: nat, ws: PerLayer :: GradientFits(src, e, i, ws, l)
  }

  ghost predicate GradientFits(src: Source, e: nat, i: nat, ws: PerLayer, l: Layout) {
    ListValid(ws) && LayoutOf(ws) == l ==> Alike(src.train(e, i, ws).gradient, ws)
  }

  /** For weights of layout l, every curvature list has layout l and no
      negative element. */
  ghost predicate CurvaturesFit(src: Source, l: Layout) {
    forall e: nat, i: nat, ws: PerLayer :: CurvatureFits(src, e, i, ws, l)
  }

  ghost predicate CurvatureFits(src: Source, e: nat, i: nat, ws: PerLayer, l: Layout) {
    ListValid(ws) && LayoutOf(ws) == l ==>
      Alike(src.train(e, i, ws).curvature, ws) && NonNegative(src.train(e, i, ws).curvature)
  }

  /** The batch of epoch e. */
  function Batch(src: Source, e: nat, size: nat, ws: PerLayer): (batch: seq<Sample>)
    ensures |batch| == size && forall i :: 0 <= i < size ==> batch[i] == src.train(e, i, ws)
  {
    seq(size, i requires 0 <= i < size => src.train(e, i, ws))
  }

  function Gradients(batch: seq<Sample>): (gs: seq<PerLayer>)
    ensures |gs| == |batch| && forall i :: 0 <= i < |batch| ==> gs[i] == batch[i].gradient
  {
    seq(|batch|, i requires 0 <= i < |batch| => batch[i].gradient)
  }

  function Curvatures(batch: seq<Sample>): (hs: seq<PerLayer>)
    ensures |hs| == |batch| && forall i :: 0 <= i < |batch| ==> hs[i] == batch[i].curvature
  {
    seq(|batch|, i requires 0 <= i < |batch| => batch[i].curvature)
  }

  function Errors(batch: seq<Sample>): (xs: seq<real>)
    ensures |xs| == |batch| && forall i :: 0 <= i < |batch| ==> xs[i] == batch[i].error
  {
    seq(|batch|, i requires 0 <= i < |batch| => batch[i].error)
  }

  /** The training error printed for an epoch: the errors of the batch,
      summed and divided by the batch size. */
  function Mean(xs: seq<real>): real
    requires |xs| > 0
  {
    Total(xs) / |xs| as real
  }

  /** The printed test error: with a test size of zero the source divides
      zero by zero, which is not a number. */
  datatype Average = Value(v: real) | NotANumber

  function TestMean(xs: seq<real>): (a: Average)
    ensures a.NotANumber? <==> xs == []
  {
    if xs == [] then NotANumber else Value(Mean(xs))
  }

  /** The gradients of a well-fitting source's batch share the layout of
      the weights. */
  lemma BatchUniform(src: Source, e: nat, size: nat, ws: PerLayer)
    requires size > 0 && ListValid(ws) && GradientsFit(src, LayoutOf(ws))
    ensures Uniform(Gradients(Batch(src, e, size, ws))) && Alike(Gradients(Batch(src, e, size, ws))[0], ws)
  {
    var gs := Gradients(Batch(src, e, size, ws));
    forall i | 0 <= i < size ensures Alike(gs[i], ws) {
      assert GradientFits(src, e, i, ws, LayoutOf(ws));
    }
  }

  lemma CurvatureUniform(src: Source, e: nat, size: nat, ws: PerLayer)
    requires size > 0 && ListValid(ws) && CurvaturesFit(src, LayoutOf(ws))
    ensures Uniform(Curvatures(Batch(src, e, size, ws))) && Alike(Curvatures(Batch(src, e, size, ws))[0], ws)
    ensures forall i :: 0 <= i < size ==> NonNegative(Curvatures(Batch(src, e, size, ws))[i])
  {
    var hs := Curvatures(Batch(src, e, size, ws));
    forall i | 0 <= i < size ensures Alike(hs[i], ws) && NonNegative(hs[i]) {
      assert CurvatureFits(src, e, i, ws, LayoutOf(ws));
    }
  }

  // ---------------------------------------------------------------------
  // One epoch's batch

  /** The first sample, then the `batch_size - 1` others: the errors are
      summed, the gradient lists summed with `+=`, and with `second` so are
      the curvature lists of `Backpropagation_2nd()`. */
  method Accumulate(src: Source, e: nat, size: nat, ws: PerLayer, second: bool)
    returns (total: real, gradient: PerLayer, curvature: PerLayer)
    requires size > 0 && Uniform(Gradients(Batch(src, e, size, ws)))
    requires second ==> Uniform(Curvatures(Batch(src, e, size, ws)))
    ensures total == Total(Errors(Batch(src, e, size, ws)))
    ensures gradient == BatchSum(Gradients(Batch(src, e, size, ws)))
    ensures second ==> Uniform(Curvatures(Batch(src, e, size, ws))) && curvature == BatchSum(Curvatures(Batch(src, e, size, ws)))
  {
    ghost var batch := Batch(src, e, size, ws);
    ghost var gs, hs, xs := Gradients(batch), Curvatures(batch), Errors(batch);
    var first := src.train(e, 0, ws);
    total, gradient, curvature := first.error, first.gradient, if second then first.curvature else [];
    assert xs[..1] == [first.error] && xs[..1][..0] == [];
    for i := 1 to size
      invariant Uniform(gs[..i]) && gradient == BatchSum(gs[..i])
      invariant second ==> Uniform(hs[..i]) && curvature == BatchSum(hs[..i])
      invariant total == Total(xs[..i])
    {
      total, gradient, curvature := AccumulateNext(src, e, size, ws, second, i, total, gradient, curvature);
    }
    assert gs[..size] == gs && hs[..size] == hs && xs[..size] == xs;
  }

  /** One turn of the batch loop: sample i joins the sums. */
  method AccumulateNext(src: Source, e: nat, size: nat, ws: PerLayer, second: bool, i: nat,
                        total: real, gradient: PerLayer, curvature: PerLayer)
    returns (total': real, gradient': PerLayer, curvature': PerLayer)
    requires 0 < i < size && Uniform(Gradients(Batch(src, e, size, ws)))
    requires second ==> Uniform(Curvatures(Batch(src, e, size, ws)))
    requires var gs := Gradients(Batch(src, e, size, ws)); Uniform(gs[..i]) && gradient == BatchSum(gs[..i])
    requires var hs := Curvatures(Batch(src, e, size, ws)); second ==> Uniform(hs[..i]) && curvature == BatchSum(hs[..i])
    requires total == Total(Errors(Batch(src, e, size, ws))[..i])
    ensures var gs := Gradients(Batch(src, e, size, ws)); Uniform(gs[..i + 1]) && gradient' == BatchSum(gs[..i + 1])
    ensures var hs := Curvatures(Batch(src, e, size, ws)); second ==> Uniform(hs[..i + 1]) && curvature' == BatchSum(hs[..i + 1])
    ensures total' == Total(Errors(Batch(src, e, size, ws))[..i + 1])
  {
    ghost var batch := Batch(src, e, size, ws);
    ghost var gs, hs, xs := Gradients(batch), Curvatures(batch), Errors(batch);
    var sample := src.train(e, i, ws);
    assert gs[..i + 1][..i] == gs[..i] && gs[..i + 1][i] == gs[i] && gs[..i][0] == gs[0];
    assert xs[..i + 1][..i] == xs[..i];
    total' := total + sample.error;
    gradient' := Combine(Plus, gradient, sample.gradient);
    curvature' := curvature;
    if second {
      assert hs[..i + 1][..i] == hs[..i] && hs[..i + 1][i] == hs[i] && hs[..i][0] == hs[0];
      curvature' := Combine(Plus, curvature, sample.curvature);
    }
  }

  /** The average gradient of the batch of epoch e. */
  function EpochGradient(src: Source, e: nat, size: nat, ws: PerLayer): (g: PerLayer)
    requires size > 0 && ListValid(ws) && GradientsFit(src, LayoutOf(ws))
    ensures Alike(g, ws)
  {
    BatchUniform(src, e, size, ws);
    BatchMean(Gradients(Batch(src, e, size, ws)))
  }

  // ---------------------------------------------------------------------
  // SGD

  /** Weights the update loops can take: valid cubes, metadata inside
      them. */
  ghost predicate Updatable(ws: PerLayer) {
    Indexable(ws) && ListValid(ws)
  }

  /** What SGD needs of its configuration and its source, for weights of
      layout l: a batch of at least one sample (the sums are divided by its
      size), and gradients of layout l. */
  ghost predicate SgdFits(c: Config, src: Source, l: Layout) {
    c.batchSize > 0 && GradientsFit(src, l)
  }

  /** The weights after SGD epoch e: every visited weight has moved by the
      learning rate times the batch's average gradient. */
  function SgdEpoch(c: Config, src: Source, e: nat, ws: PerLayer): (next: PerLayer)
    requires SgdFits(c, src, LayoutOf(ws)) && Updatable(ws)
    ensures Updatable(next) && LayoutOf(next) == LayoutOf(ws)
  {
    var g := EpochGradient(src, e, c.batchSize, ws);
    FitsWhen(Sgd(c.learningRate), ws, g, g);
    SteppedKeepsLayout(Sgd(c.learningRate), ws, g, g);
    SteppedAll(Sgd(c.learningRate), ws, g, g)
  }

  /** A run after some epochs: the weights, the curvature carried into the
      next epoch (SDLM only), and what was reported: the training error of
      every epoch, the test error of every test epoch with the epoch's
      one-based number, and the snapshots, each a file name with the
      weights saved to it. */
  datatype Run = Run(
    weights: PerLayer, curvature: PerLayer,
    errors: seq<real>, tests: seq<(nat, Average)>, snapshots: seq<(string, PerLayer)>)

  /** The snapshot after epoch e of the weights ws, if the snapshot
      interval selects the epoch: the file name and the weights saved. */
  function Snapshot(c: Config, e: nat, ws: PerLayer): (t: seq<(string, PerLayer)>)
    ensures |t| == if Every(c.snapshotInterval, e) then 1 else 0
  {
    if ShouldSnapshot(c, e) then [(SnapshotName(c.snapshotPrefix, e), ws)] else []
  }

  /** Epoch e of SGD on a run: the new weights, the epoch's training
      error, and a snapshot of the new weights if the snapshot interval
      selects the epoch. SGD has no test phase. */
  function SgdTurn(c: Config, src: Source, e: nat, run: Run): (next: Run)
    requires SgdFits(c, src, LayoutOf(run.weights)) && Updatable(run.weights)
    ensures Updatable(next.weights) && LayoutOf(next.weights) == LayoutOf(run.weights)
    ensures |next.errors| == |run.errors| + 1 && next.tests == run.tests
    ensures |next.snapshots| == |run.snapshots| + if Every(c.snapshotInterval, e) then 1 else 0
  {
    var weights := SgdEpoch(c, src, e, run.weights);
    var error := Mean(Errors(Batch(src, e, c.batchSize, run.weights)));
    Run(weights, [], run.errors + [error], run.tests, run.snapshots + Snapshot(c, e, weights))
  }

  /** SGD's first k epochs from the weights ws. */
  function SgdRun(c: Config, src: Source, ws: PerLayer, k: nat): (run: Run)
    requires SgdFits(c, src, LayoutOf(ws)) && Updatable(ws)
    ensures Updatable(run.weights) && LayoutOf(run.weights) == LayoutOf(ws)
    ensures |run.errors| == k && run.tests == [] && |run.snapshots| == Count(c.snapshotInterval, k)
    decreases k
  {
    if k == 0 then Run(ws, [], [], [], []) else SgdTurn(c, src, k - 1, SgdRun(c, src, ws, k - 1))
  }

  /** One epoch of `SgdSolver::Solve()` on the layers' weights. */
  method SgdEpochStep(ls: seq<Layer>, c: Config, src: Source, e: nat, ghost l: Layout) returns (error: real)
    requires (forall i, j :: 0 <= i < j < |ls| ==> ls[i] != ls[j])
    requires SgdFits(c, src, l) && LayoutOf(WeightsOf(ls)) == l && Updatable(WeightsOf(ls))
    modifies ls`weights, ls`biasWeights
    ensures WeightsOf(ls) == SgdEpoch(c, src, e, old(WeightsOf(ls)))
    ensures error == Mean(Errors(Batch(src, e, c.batchSize, old(WeightsOf(ls)))))
  {
    var ws := WeightsOf(ls);
    BatchUniform(src, e, c.batchSize, ws);
    var total, gradient, _ := Accumulate(src, e, c.batchSize, ws, false);
    gradient := Combine(DivideBy(c.batchSize), gradient, gradient);
    error := total / c.batchSize as real;
    FitsWhen(Sgd(c.learningRate), ws, gradient, gradient);
    StepLayers(Sgd(c.learningRate), ls, gradient, gradient);
  }

  /** `SgdSolver::Solve()`: `max_epoch` epochs of SGD on an initialised
      network, with a snapshot after every epoch the snapshot interval
      selects. */
  method SgdSolve(net: NeuralNetwork, c: Config, src: Source)
    returns (errors: seq<real>, snapshots: seq<(string, PerLayer)>)
    requires net.initialized && net.Distinct() && SgdFits(c, src, LayoutOf(WeightsOf(net.layers))) && Updatable(WeightsOf(net.layers))
    modifies net.layers`weights, net.layers`biasWeights
    ensures var run := SgdRun(c, src, old(WeightsOf(net.layers)), c.maxEpoch);
      WeightsOf(net.layers) == run.weights && errors == run.errors && snapshots == run.snapshots
  {
    var ls := net.layers;
    ghost var ws := WeightsOf(ls);
    errors, snapshots := [], [];
    for e := 0 to c.maxEpoch
      invariant var run := SgdRun(c, src, ws, e);
        WeightsOf(ls) == run.weights && errors == run.errors && snapshots == run.snapshots
    {
      ghost var run := SgdRun(c, src, ws, e);
      errors, snapshots := SgdSolveNext(ls, c, src, e, run, errors, snapshots);
      assert SgdRun(c, src, ws, e + 1) == SgdTurn(c, src, e, run);
    }
  }

  /** One turn of `SgdSolve`'s loop: epoch e, then its snapshot. */
  method SgdSolveNext(ls: seq<Layer>, c: Config, src: Source, e: nat, ghost run: Run,
                      errors: seq<real>, snapshots: seq<(string, PerLayer)>)
    returns (errors': seq<real>, snapshots': seq<(string, PerLayer)>)
    requires (forall i, j :: 0 <= i < j < |ls| ==> ls[i] != ls[j])
    requires SgdFits(c, src, LayoutOf(run.weights)) && Updatable(run.weights)
    requires WeightsOf(ls) == run.weights && errors == run.errors && snapshots == run.snapshots
    modifies ls`weights, ls`biasWeights
    ensures var next := SgdTurn(c, src, e, run);
      WeightsOf(ls) == next.weights && errors' == next.errors && snapshots' == next.snapshots
  {
    var error := SgdEpochStep(ls, c, src, e, LayoutOf(run.weights));
    errors' := errors + [error];
    snapshots' := snapshots;
    if ShouldSnapshot(c, e) {
      snapshots' := snapshots + [(SnapshotName(c.snapshotPrefix, e), WeightsOf(ls))];
    }
  }

  // ---------------------------------------------------------------------
  // SDLM

  /** What SDLM needs of its configuration and its source, for weights of
      layout l: besides SGD's, a positive damping, a smoothing factor in
      [0, 1], and curvatures of layout l with no negative element. With a
      carried curvature of the same kind, they keep every `h + mu` of the
      update positive. */
  ghost predicate SdlmFits(c: SdlmConfig, src: Source, l: Layout) {
    SgdFits(c.base, src, l) && 0.0 < c.mu && 0.0 <= c.gamma <= 1.0 && CurvaturesFit(src, l)
  }

  /** The carried curvature is absent or has layout l, and no negative
      element. */
  ghost predicate Carries(carried: PerLayer, l: Layout) {
    (carried == [] || (ListValid(carried) && LayoutOf(carried) == l)) && NonNegative(carried)
  }

  /** The curvature an epoch uses: this epoch's average h smoothed with
      the carried one as `(1 - gamma) * carried + gamma * h`, or h itself
      when nothing is carried (the first epoch). */
  function Smoothed(gamma: real, h: PerLayer, carried: PerLayer): (s: PerLayer)
    requires carried != [] ==> Alike(h, carried)
  {
    if carried != [] then Combined(Blend(gamma), h, carried) else h
  }

  lemma SmoothedFits(gamma: real, h: PerLayer, carried: PerLayer, ws: PerLayer)
    requires Alike(h, ws) && (carried == [] || Alike(carried, ws))
    requires 0.0 <= gamma <= 1.0 && NonNegative(h) && NonNegative(carried)
    ensures Alike(Smoothed(gamma, h, carried), ws) && NonNegative(Smoothed(gamma, h, carried))
  {
    if carried != [] {
      CombinedNonNegative(Blend(gamma), h, carried);
    }
  }

  /** The curvature used in epoch e: the batch's average, smoothed with
      the carried curvature. */
  function EpochCurvature(c: SdlmConfig, src: Source, e: nat, ws: PerLayer, carried: PerLayer): (h: PerLayer)
    requires SdlmFits(c, src, LayoutOf(ws)) && Updatable(ws) && Carries(carried, LayoutOf(ws))
    ensures Alike(h, ws) && NonNegative(h)
  {
    var size := c.base.batchSize;
    CurvatureUniform(src, e, size, ws);
    BatchMeanNonNegative(Curvatures(Batch(src, e, size, ws)));
    var current := BatchMean(Curvatures(Batch(src, e, size, ws)));
    SmoothedFits(c.gamma, current, carried, ws);
    Smoothed(c.gamma, current, carried)
  }

  /** The weights after SDLM epoch e, with the curvature carried into the
      next epoch: every visited weight has moved by `lr / (h + mu)` times
      the batch's average gradient, h being the smoothed curvature. */
  function SdlmEpoch(c: SdlmConfig, src: Source, e: nat, ws: PerLayer, carried: PerLayer): (next: (PerLayer, PerLayer))
    requires SdlmFits(c, src, LayoutOf(ws)) && Updatable(ws) && Carries(carried, LayoutOf(ws))
    ensures Updatable(next.0) && LayoutOf(next.0) == LayoutOf(ws) && Carries(next.1, LayoutOf(ws))
  {
    var g := EpochGradient(src, e, c.base.batchSize, ws);
    var h := EpochCurvature(c, src, e, ws, carried);
    var rule := Sdlm(c.base.learningRate, c.mu);
    FitsWhen(rule, ws, g, h);
    SteppedKeepsLayout(rule, ws, g, h);
    (SteppedAll(rule, ws, g, h), h)
  }

  // ---------------------------------------------------------------------
  // What one epoch does to one weight

  /** The weight tensor of a layer's pair, or its bias tensor. */
  function Part(p: (Tensor4d, Tensor4d), bias: bool): (t: Tensor4d)
    ensures t == p.0 || t == p.1
  {
    if bias then p.1 else p.0
  }

  /** One element of a tensor after its update. */
  lemma SteppedTensorElement(rule: Rule, w: Tensor4d, g: Tensor4d, h: Tensor4d, i: nat, r: nat, col: nat, s: nat)
    requires Steppable(rule, w, g, h) && i < |w.data| && w.data[i].InBounds(r, col, s)
    ensures Visited(w.nRows, w.nCols, w.nSlices, r, col, s) ==> rule.Defined(h.data[i].At(r, col, s))
    ensures SteppedTensor(rule, w, g, h).data[i].At(r, col, s) ==
              if Visited(w.nRows, w.nCols, w.nSlices, r, col, s)
              then rule.Step(w.data[i].At(r, col, s), h.data[i].At(r, col, s), g.data[i].At(r, col, s))
              else w.data[i].At(r, col, s)
  {
    assert CubeSteppable(rule, w.data[i], g.data[i], h.data[i], w.nRows, w.nCols, w.nSlices);
  }

  /** The weight or bias tensor of layer n after the update of every
      layer. */
  lemma SteppedPart(rule: Rule, ws: PerLayer, g: PerLayer, h: PerLayer, n: nat, bias: bool)
    requires Fits(rule, ws, g, h) && n < |ws|
    ensures Steppable(rule, Part(ws[n], bias), Part(g[n], bias), Part(h[n], bias))
    ensures Part(SteppedAll(rule, ws, g, h)[n], bias) == SteppedTensor(rule, Part(ws[n], bias), Part(g[n], bias), Part(h[n], bias))
  {
  }

  /** SGD's epoch is the update by its learning rate with the batch's
      average gradient g. */
  lemma SgdEpochIsStep(c: Config, src: Source, e: nat, ws: PerLayer, g: PerLayer)
    requires SgdFits(c, src, LayoutOf(ws)) && Updatable(ws) && g == EpochGradient(src, e, c.batchSize, ws)
    ensures Fits(Sgd(c.learningRate), ws, g, g) && SgdEpoch(c, src, e, ws) == SteppedAll(Sgd(c.learningRate), ws, g, g)
  {
    FitsWhen(Sgd(c.learningRate), ws, g, g);
  }

  /** After an SGD update by the learning rate lr with gradient g, an
      element that the update loops visit has moved by lr times its element
      of g; an element outside the corner that the tensor's metadata
      describes (a bias cube past the first slice, say) keeps its value. */
  lemma SgdSteppedElement(lr: real, ws: PerLayer, g: PerLayer, n: nat, bias: bool, i: nat, r: nat, col: nat, s: nat)
    requires Fits(Sgd(lr), ws, g, g)
    requires n < |ws| && i < |Part(ws[n], bias).data| && Part(ws[n], bias).data[i].InBounds(r, col, s)
    ensures var w := Part(ws[n], bias);
            Part(SteppedAll(Sgd(lr), ws, g, g)[n], bias).data[i].At(r, col, s) ==
              if Visited(w.nRows, w.nCols, w.nSlices, r, col, s)
              then w.data[i].At(r, col, s) + lr * Part(g[n], bias).data[i].At(r, col, s)
              else w.data[i].At(r, col, s)
  {
    var rule, w, gt := Sgd(lr), Part(ws[n], bias), Part(g[n], bias);
    SteppedPart(rule, ws, g, g, n, bias);
    SteppedTensorElement(rule, w, gt, gt, i, r, col, s);
  }

  /** When every sample of epoch e yields the same gradient g, the batch's
      average is g itself, so that each visited weight moves by exactly the
      learning rate times its element of g. */
  lemma SgdEqualGradients(c: Config, src: Source, e: nat, ws: PerLayer, g: PerLayer)
    requires SgdFits(c, src, LayoutOf(ws)) && Updatable(ws)
    requires forall i :: 0 <= i < c.batchSize ==> src.train(e, i, ws).gradient == g
    ensures EpochGradient(src, e, c.batchSize, ws) == g
  {
    var gs := Gradients(Batch(src, e, c.batchSize, ws));
    BatchUniform(src, e, c.batchSize, ws);
    assert gs == seq(c.batchSize, _ => g);
    BatchMeanOfCopies(g, c.batchSize);
  }

  /** Blending a tensor x with y by the factor 1 gives x. */
  lemma BlendOneTensor(x: Tensor4d, y: Tensor4d)
    requires TensorsAlike(x, y)
    ensures CombinedTensor(Blend(1.0), x, y) == x
  {
    var b := CombinedTensor(Blend(1.0), x, y);
    forall i | 0 <= i < |x.data| ensures b.data[i] == x.data[i] {
      var z := Apply(Blend(1.0), x.data[i], y.data[i]);
      forall r: nat, c: nat, s: nat | z.InBounds(r, c, s) ensures z.At(r, c, s) == x.data[i].At(r, c, s) {
      }
      Extensionality(z, x.data[i]);
    }
  }

  /** The curvature an epoch uses is this epoch's own average h in the
      first epoch, when nothing is carried, and whenever the smoothing
      factor is 1. */
  lemma SmoothedIsCurrent(gamma: real, h: PerLayer, carried: PerLayer)
    requires carried != [] ==> Alike(h, carried)
    requires carried == [] || gamma == 1.0
    ensures Smoothed(gamma, h, carried) == h
  {
    if carried != [] {
      var b := Combined(Blend(gamma), h, carried);
      forall n | 0 <= n < |h| ensures b[n] == h[n] {
        BlendOneTensor(h[n].0, carried[n].0);
        BlendOneTensor(h[n].1, carried[n].1);
      }
    }
  }

  /** SDLM's epoch is the update by the local rates that the smoothed
      curvature h gives, with the batch's average gradient g; h is carried
      into the next epoch. */
  lemma SdlmEpochIsStep(c: SdlmConfig, src: Source, e: nat, ws: PerLayer, carried: PerLayer, g: PerLayer, h: PerLayer)
    requires SdlmFits(c, src, LayoutOf(ws)) && Updatable(ws) && Carries(carried, LayoutOf(ws))
    requires g == EpochGradient(src, e, c.base.batchSize, ws) && h == EpochCurvature(c, src, e, ws, carried)
    ensures Fits(Sdlm(c.base.learningRate, c.mu), ws, g, h)
    ensures SdlmEpoch(c, src, e, ws, carried) == (SteppedAll(Sdlm(c.base.learningRate, c.mu), ws, g, h), h)
  {
    FitsWhen(Sdlm(c.base.learningRate, c.mu), ws, g, h);
  }

  /** After an SDLM update by the learning rate lr and the damping mu,
      with gradient g and curvature h, an element that the update loops
      visit has moved by `lr / (x + mu)` times its element of g, x being its
      element of h; an element outside the visited corner keeps its
      value. */
  lemma SdlmSteppedElement(lr: real, mu: real, ws: PerLayer, g: PerLayer, h: PerLayer,
                           n: nat, bias: bool, i: nat, r: nat, col: nat, s: nat)
    requires Fits(Sdlm(lr, mu), ws, g, h)
    requires n < |ws| && i < |Part(ws[n], bias).data| && Part(ws[n], bias).data[i].InBounds(r, col, s)
    ensures var w := Part(ws[n], bias);
            Visited(w.nRows, w.nCols, w.nSlices, r, col, s) ==> Part(h[n], bias).data[i].At(r, col, s) + mu != 0.0
    ensures var w := Part(ws[n], bias);
            var x := Part(h[n], bias).data[i].At(r, col, s);
            Part(SteppedAll(Sdlm(lr, mu), ws, g, h)[n], bias).data[i].At(r, col, s) ==
              if Visited(w.nRows, w.nCols, w.nSlices, r, col, s)
              then w.data[i].At(r, col, s) + lr / (x + mu) * Part(g[n], bias).data[i].At(r, col, s)
              else w.data[i].At(r, col, s)
  {
    var rule, w, gt, ht := Sdlm(lr, mu), Part(ws[n], bias), Part(g[n], bias), Part(h[n], bias);
    SteppedPart(rule, ws, g, h, n, bias);
    SteppedTensorElement(rule, w, gt, ht, i, r, col, s);
  }

  /** The errors of the test images of epoch e. */
  function TestErrors(src: Source, e: nat, size: nat, ws: PerLayer): (xs: seq<real>)
    ensures |xs| == size && forall i :: 0 <= i < size ==> xs[i] == src.test(e, i, ws)
  {
    seq(size, i requires 0 <= i < size => src.test(e, i, ws))
  }

  /** The test result of epoch e on the weights ws, if the test interval
      selects the epoch: its one-based number and the mean test error. */
  function TestResult(c: SdlmConfig, src: Source, e: nat, ws: PerLayer): (t: seq<(nat, Average)>)
    ensures |t| == if Every(c.base.testInterval, e) then 1 else 0
  {
    if ShouldTest(c.base, e) then [(e + 1, TestMean(TestErrors(src, e, c.base.testSize, ws)))] else []
  }

  /** Epoch e of SDLM on a run: the test result of the run's weights if
      the test interval selects the epoch, the new weights and curvature,
      the epoch's training error, and a snapshot of the new weights if the
      snapshot interval selects the epoch. */
  function SdlmTurn(c: SdlmConfig, src: Source, e: nat, run: Run): (next: Run)
    requires SdlmFits(c, src, LayoutOf(run.weights)) && Updatable(run.weights)
    requires Carries(run.curvature, LayoutOf(run.weights))
    ensures Updatable(next.weights) && LayoutOf(next.weights) == LayoutOf(run.weights)
    ensures Carries(next.curvature, LayoutOf(run.weights))
    ensures |next.errors| == |run.errors| + 1
    ensures |next.tests| == |run.tests| + if Every(c.base.testInterval, e) then 1 else 0
    ensures |next.snapshots| == |run.snapshots| + if Every(c.base.snapshotInterval, e) then 1 else 0
  {
    var stepped := SdlmEpoch(c, src, e, run.weights, run.curvature);
    var error := Mean(Errors(Batch(src, e, c.base.batchSize, run.weights)));
    Run(stepped.0, stepped.1, run.errors + [error], run.tests + TestResult(c, src, e, run.weights), run.snapshots + Snapshot(c.base, e, stepped.0))
  }

  /** SDLM's first k epochs from the weights ws. */
  function SdlmRun(c: SdlmConfig, src: Source, ws: PerLayer, k: nat): (run: Run)
    requires SdlmFits(c, src, LayoutOf(ws)) && Updatable(ws)
    ensures Updatable(run.weights) && LayoutOf(run.weights) == LayoutOf(ws) && Carries(run.curvature, LayoutOf(ws))
    ensures |run.errors| == k && |run.tests| == Count(c.base.testInterval, k)
    ensures |run.snapshots| == Count(c.base.snapshotInterval, k)
    decreases k
  {
    if k == 0 then Run(ws, [], [], [], []) else SdlmTurn(c, src, k - 1, SdlmRun(c, src, ws, k - 1))
  }

  /** The test phase of an SDLM epoch: `test_size` test images, their
      errors summed and divided by `test_size`. The source's test pass
      also overwrites the layers' buffers, which the model leaves out. */
  method TestPhase(src: Source, e: nat, size: nat, ws: PerLayer) returns (a: Average)
    ensures a == TestMean(TestErrors(src, e, size, ws))
  {
    ghost var xs := TestErrors(src, e, size, ws);
    var total := 0.0;
    for i := 0 to size
      invariant total == Total(xs[..i])
    {
      assert xs[..i + 1][..i] == xs[..i];
      total := total + src.test(e, i, ws);
    }
    assert xs[..size] == xs;
    if size == 0 {
      a := NotANumber;
    } else {
      a := Value(total / size as real);
    }
  }

  /** One epoch of `SdlmSolver::Solve()` after its test phase: `carried`
      is `old_hessian` and `h` the curvature moved into it at the end. */
  method SdlmEpochStep(ls: seq<Layer>, c: SdlmConfig, src: Source, e: nat, carried: PerLayer, ghost l: Layout)
    returns (error: real, h: PerLayer)
    requires (forall i, j :: 0 <= i < j < |ls| ==> ls[i] != ls[j])
    requires SdlmFits(c, src, l) && LayoutOf(WeightsOf(ls)) == l && Updatable(WeightsOf(ls)) && Carries(carried, l)
    modifies ls`weights, ls`biasWeights
    ensures (WeightsOf(ls), h) == SdlmEpoch(c, src, e, old(WeightsOf(ls)), carried)
    ensures error == Mean(Errors(Batch(src, e, c.base.batchSize, old(WeightsOf(ls)))))
  {
    var ws := WeightsOf(ls);
    ghost var next := SdlmEpoch(c, src, e, ws, carried);
    var size := c.base.batchSize;
    BatchUniform(src, e, size, ws);
    CurvatureUniform(src, e, size, ws);
    var total, gradient, current := Accumulate(src, e, size, ws, true);
    gradient := Combine(DivideBy(size), gradient, gradient);
    current := Combine(DivideBy(size), current, current);
    error := total / size as real;
    h := current;
    if carried != [] {
      h := Combine(Blend(c.gamma), current, carried);
    }
    assert gradient == EpochGradient(src, e, size, ws);
    assert h == EpochCurvature(c, src, e, ws, carried);
    FitsWhen(Sdlm(c.base.learningRate, c.mu), ws, gradient, h);
    assert next == (SteppedAll(Sdlm(c.base.learningRate, c.mu), ws, gradient, h), h);
    assert WeightsOf(ls) == ws;
    StepLayers(Sdlm(c.base.learningRate, c.mu), ls, gradient, h);
  }

  /** `SdlmSolver::Solve()`: `max_epoch` epochs of SDLM on an initialised
      network; an epoch the test interval selects starts with a test
      phase, an epoch the snapshot interval selects ends with a
      snapshot. */
  method SdlmSolve(net: NeuralNetwork, c: SdlmConfig, src: Source)
    returns (errors: seq<real>, tests: seq<(nat, Average)>, snapshots: seq<(string, PerLayer)>)
    requires net.initialized && net.Distinct() && SdlmFits(c, src, LayoutOf(WeightsOf(net.layers))) && Updatable(WeightsOf(net.layers))
    modifies net.layers`weights, net.layers`biasWeights
    ensures var run := SdlmRun(c, src, old(WeightsOf(net.layers)), c.base.maxEpoch);
      WeightsOf(net.layers) == run.weights && errors == run.errors && tests == run.tests && snapshots == run.snapshots
  {
    var ls := net.layers;
    ghost var ws := WeightsOf(ls);
    var carried: PerLayer := [];
    errors, tests, snapshots := [], [], [];
    for e := 0 to c.base.maxEpoch
      invariant var run := SdlmRun(c, src, ws, e);
        && WeightsOf(ls) == run.weights && carried == run.curvature
        && errors == run.errors && tests == run.tests && snapshots == run.snapshots
    {
      ghost var run := SdlmRun(c, src, ws, e);
      carried, errors, tests, snapshots := SdlmSolveNext(ls, c, src, e, run, carried, errors, tests, snapshots);
      assert SdlmRun(c, src, ws, e + 1) == SdlmTurn(c, src, e, run);
    }
  }

  /** The test phase of `SdlmSolve`'s loop: it runs in the epochs the test
      interval selects, on the weights before the epoch's update. */
  method SdlmTestNext(c: SdlmConfig, src: Source, e: nat, ws: PerLayer, tests: seq<(nat, Average)>)
    returns (tests': seq<(nat, Average)>)
    ensures tests' == tests + TestResult(c, src, e, ws)
  {
    tests' := tests;
    if ShouldTest(c.base, e) {
      var a := TestPhase(src, e, c.base.testSize, ws);
      var entry: (nat, Average) := (e + 1, a);
      tests' := tests + [entry];
    }
  }

  /** One turn of `SdlmSolve`'s loop: the test phase, then the epoch and
      its snapshot. */
  method SdlmSolveNext(ls: seq<Layer>, c: SdlmConfig, src: Source, e: nat, ghost run: Run, carried: PerLayer,
                       errors: seq<real>, tests: seq<(nat, Average)>, snapshots: seq<(string, PerLayer)>)
    returns (carried': PerLayer, errors': seq<real>, tests': seq<(nat, Average)>, snapshots': seq<(string, PerLayer)>)
    requires (forall i, j :: 0 <= i < j < |ls| ==> ls[i] != ls[j])
    requires SdlmFits(c, src, LayoutOf(run.weights)) && Updatable(run.weights) && Carries(run.curvature, LayoutOf(run.weights))
    requires WeightsOf(ls) == run.weights && carried == run.curvature
    requires errors == run.errors && tests == run.tests && snapshots == run.snapshots
    modifies ls`weights, ls`biasWeights
    ensures var next := SdlmTurn(c, src, e, run);
      && WeightsOf(ls) == next.weights && carried' == next.curvature
      && errors' == next.errors && tests' == next.tests && snapshots' == next.snapshots
  {
    var weights := WeightsOf(ls);
    tests' := SdlmTestNext(c, src, e, weights, tests);
    assert WeightsOf(ls) == weights;
    carried', errors', snapshots' := SdlmTrainNext(ls, c, src, e, run, carried, errors, snapshots);
  }

  /** The rest of a turn of `SdlmSolve`'s loop after the test phase: the
      epoch, then its snapshot. `carried` is `old_hessian`. */
  method SdlmTrainNext(ls: seq<Layer>, c: SdlmConfig, src: Source, e: nat, ghost run: Run, carried: PerLayer,
                       errors: seq<real>, snapshots: seq<(string, PerLayer)>)
    returns (carried': PerLayer, errors': seq<real>, snapshots': seq<(string, PerLayer)>)
    requires (forall i, j :: 0 <= i < j < |ls| ==> ls[i] != ls[j])
    requires SdlmFits(c, src, LayoutOf(run.weights)) && Updatable(run.weights) && Carries(run.curvature, LayoutOf(run.weights))
    requires WeightsOf(ls) == run.weights && carried == run.curvature
    requires errors == run.errors && snapshots == run.snapshots
    modifies ls`weights, ls`biasWeights
    ensures var next := SdlmTurn(c, src, e, run);
      && WeightsOf(ls) == next.weights && carried' == next.curvature
      && errors' == next.errors && snapshots' == next.snapshots
  {
    var error;
    error, carried' := SdlmEpochStep(ls, c, src, e, carried, LayoutOf(run.weights));
    errors' := errors + [error];
    snapshots' := snapshots;
    if ShouldSnapshot(c.base, e) {
      snapshots' := snapshots + [(SnapshotName(c.base.snapshotPrefix, e), WeightsOf(ls))];
    }
  }
}
