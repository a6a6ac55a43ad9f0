/** The network: an ordered list of layers and a cost function. A forward
    pass pipes the input through the layers; a backward pass seeds the
    last layer with the cost's derivative and hands each layer's local
    loss to the layer below, collecting one gradient pair per layer. The
    input layer (an image and its labels) is a parameter of the passes. */
module Network {
  import opened Cubes
  import opened Tensors
  import opened Dense
  import opened Activations
  import opened WeightFiles
  import opened Costs
  import opened Layers

  /** `loss(i) = Derivative(labels(i), hypothesis(i, 0, 0))` for every
      label (the second derivative for `Backpropagation_2nd`). */
  function Seeded(cost: CostFunction, labels: seq<real>, h: Cube<real>, second: bool): (loss: Cube<real>)
    requires h.Valid() && |labels| <= h.rows && h.cols > 0 && h.slices > 0
    ensures IsVector(loss, |labels|)
  {
    Tabulate(|labels|, 1, 1, (i: nat, c: nat, s: nat) requires i < |labels| =>
      if second then cost.SecondDerivative(labels[i], h.At(i, 0, 0)) else cost.Derivative(labels[i], h.At(i, 0, 0)))
  }

  /** A hypothesis that matches the labels gives the first backward pass
      nothing to correct; one that differs at a label gives a nonzero seed
      there. */
  lemma SeededVanishes(cost: CostFunction, labels: seq<real>, h: Cube<real>)
    requires h.Valid() && |labels| <= h.rows && h.cols > 0 && h.slices > 0
    ensures forall i: nat :: i < |labels| ==>
      (Seeded(cost, labels, h, false).At(i, 0, 0) == 0.0 <==> h.At(i, 0, 0) == labels[i])
  {
    var loss := Seeded(cost, labels, h, false);
    forall i: nat | i < |labels|
      ensures loss.At(i, 0, 0) == 0.0 <==> h.At(i, 0, 0) == labels[i]
    {
      assert loss.At(i, 0, 0) == cost.Derivative(labels[i], h.At(i, 0, 0));
    }
  }

  /** The seed loop of the backward passes. */
  method Seed(cost: CostFunction, labels: seq<real>, h: Cube<real>, second: bool) returns (loss: Cube<real>)
    requires h.Valid() && |labels| <= h.rows && h.cols > 0 && h.slices > 0
    ensures loss == Seeded(cost, labels, h, second)
  {
    ghost var target := Seeded(cost, labels, h, second);
    loss := Allocated(|labels|, 1, 1);
    for i := 0 to |labels|
      invariant loss.Valid() && loss.Shape() == (|labels|, 1, 1)
      invariant forall j: nat :: j < i ==> loss.At(j, 0, 0) == target.At(j, 0, 0)
    {
      var d := if second then cost.SecondDerivative(labels[i], h.At(i, 0, 0)) else cost.Derivative(labels[i], h.At(i, 0, 0));
      loss := loss.Set(i, 0, 0, d);
    }
    Extensionality(loss, target);
  }

  /** The column `slice(0).col(0)` of a cube, as the cost functions take
      it. */
  function FirstColumnOf(x: Cube<real>, n: nat): (v: seq<real>)
    requires x.Valid() && n <= x.rows && x.cols > 0 && x.slices > 0
    ensures |v| == n && forall i :: 0 <= i < n ==> v[i] == x.At(i, 0, 0)
  {
    seq(n, i requires 0 <= i < n => x.At(i, 0, 0))
  }

  /** What a pass reads and writes of one layer: its kind, activation,
      weights, buffers and flag map. */
  datatype Stage = Stage(kind: LayerKind, activation: Option<ActivationFunction>, weights: Tensor4d, biasWeights: Tensor4d,
                         buffers: Buffers, connect: Cube<real>)

  /** The signal stage j of a forward pass of x reads: x for the first
      stage, the output of stage j - 1 for every later one. */
  ghost function Fed(stages: seq<Stage>, x: Cube<real>, j: nat): Cube<real>
    requires j < |stages|
  {
    if j == 0 then x else stages[j - 1].buffers.output
  }

  /** Stage j of the pass responded to the signal fed to it. */
  ghost predicate StageResponded(stages: seq<Stage>, x: Cube<real>, j: nat)
    requires j < |stages|
  {
    var s := stages[j];
    Responded(s.kind, s.activation, s.weights, s.biasWeights, Fed(stages, x, j), s.buffers, s.connect)
  }

  /** A forward pass of x through the stages: each stage responded to the
      output of the one before it, the first to x. */
  ghost predicate Piped(stages: seq<Stage>, x: Cube<real>)
  {
    forall j :: 0 <= j < |stages| ==> StageResponded(stages, x, j)
  }

  /** Appending a stage keeps every earlier stage's response. */
  lemma StageKept(stages: seq<Stage>, x: Cube<real>, s: Stage, j: nat)
    requires j < |stages| && StageResponded(stages, x, j)
    ensures StageResponded(stages + [s], x, j)
  {
    var grown := stages + [s];
    assert grown[j] == stages[j];
    assert Fed(grown, x, j) == Fed(stages, x, j) by {
      if j > 0 {
        assert grown[j - 1] == stages[j - 1];
      }
    }
  }

  /** A stage that responded to the signal the pipe delivers responds as
      the pipe's next stage. */
  lemma StageAppended(stages: seq<Stage>, x: Cube<real>, input: Cube<real>, s: Stage)
    requires input == if stages == [] then x else stages[|stages| - 1].buffers.output
    requires Responded(s.kind, s.activation, s.weights, s.biasWeights, input, s.buffers, s.connect)
    ensures StageResponded(stages + [s], x, |stages|)
  {
    var grown := stages + [s];
    assert grown[|stages|] == s;
    assert Fed(grown, x, |stages|) == input by {
      if stages != [] {
        assert grown[|stages| - 1] == stages[|stages| - 1];
      }
    }
  }

  /** A stage that responded to the signal the pipe delivers extends the
      pipe. */
  lemma PipedGrow(stages: seq<Stage>, x: Cube<real>, input: Cube<real>, s: Stage)
    requires Piped(stages, x) && input == if stages == [] then x else stages[|stages| - 1].buffers.output
    requires Responded(s.kind, s.activation, s.weights, s.biasWeights, input, s.buffers, s.connect)
    ensures Piped(stages + [s], x)
  {
    forall j | 0 <= j < |stages + [s]|
      ensures StageResponded(stages + [s], x, j)
    {
      if j < |stages| {
        StageKept(stages, x, s, j);
      } else {
        assert j == |stages|;
        StageAppended(stages, x, input, s);
      }
    }
  }

  /** Stage k of a backward pass took error `errors[k]`, left the
      caller's buffer as `passed[k]`, computed local loss `emitted[k]` and
      gradient pair `grads[k]`, as its kind does. */
  ghost predicate StageBacked(stages: seq<Stage>, errors: seq<Cube<real>>, squared: bool,
                              grads: seq<(Tensor4d, Tensor4d)>, passed: seq<Cube<real>>, emitted: seq<Cube<real>>, k: nat)
  {
    && k < |stages| && k < |errors| && k < |grads| && k < |passed| && k < |emitted|
    && var s := stages[k];
       Backed(s.kind, s.activation, s.weights, s.biasWeights, s.buffers, s.connect, errors[k], squared, grads[k], passed[k], emitted[k])
  }

  /** The stages from `i` on have run backward. */
  ghost predicate BackedFrom(stages: seq<Stage>, errors: seq<Cube<real>>, squared: bool,
                             grads: seq<(Tensor4d, Tensor4d)>, passed: seq<Cube<real>>, emitted: seq<Cube<real>>, i: nat)
  {
    && |errors| == |stages| && |grads| == |stages| && |passed| == |stages| && |emitted| == |stages| && i <= |stages|
    && (forall k :: i <= k < |stages| ==> StageBacked(stages, errors, squared, grads, passed, emitted, k))
    && forall k :: i <= k < |stages| ==>
         emitted[k].Valid() && emitted[k].Shape() == LossShape(stages[k].kind, stages[k].buffers, stages[k].connect)
  }

  /** Recording the backward pass of stage i - 1 keeps the record of
      every later stage. */
  lemma StageBackedKept(stages: seq<Stage>, errors: seq<Cube<real>>, squared: bool,
                        grads: seq<(Tensor4d, Tensor4d)>, passed: seq<Cube<real>>, emitted: seq<Cube<real>>,
                        k: nat, j: nat, e: Cube<real>, g: (Tensor4d, Tensor4d), p: Cube<real>, m: Cube<real>)
    requires StageBacked(stages, errors, squared, grads, passed, emitted, k) && j < k
    ensures StageBacked(stages, errors[j := e], squared, grads[j := g], passed[j := p], emitted[j := m], k)
  {
    assert errors[j := e][k] == errors[k] && grads[j := g][k] == grads[k];
    assert passed[j := p][k] == passed[k] && emitted[j := m][k] == emitted[k];
  }

  /** A stage that ran backward joins the record of the stages after it. */
  lemma BackedGrow(stages: seq<Stage>, errors: seq<Cube<real>>, squared: bool,
                   grads: seq<(Tensor4d, Tensor4d)>, passed: seq<Cube<real>>, emitted: seq<Cube<real>>,
                   i: nat, e: Cube<real>, g: (Tensor4d, Tensor4d), p: Cube<real>, m: Cube<real>)
    requires BackedFrom(stages, errors, squared, grads, passed, emitted, i) && 0 < i
    requires var s := stages[i - 1];
      Backed(s.kind, s.activation, s.weights, s.biasWeights, s.buffers, s.connect, e, squared, g, p, m)
    ensures BackedFrom(stages, errors[i - 1 := e], squared, grads[i - 1 := g], passed[i - 1 := p], emitted[i - 1 := m], i - 1)
  {
    var errors', grads', passed', emitted' := errors[i - 1 := e], grads[i - 1 := g], passed[i - 1 := p], emitted[i - 1 := m];
    forall k | i - 1 <= k < |stages|
      ensures StageBacked(stages, errors', squared, grads', passed', emitted', k)
      ensures emitted'[k].Valid() && emitted'[k].Shape() == LossShape(stages[k].kind, stages[k].buffers, stages[k].connect)
    {
      if k == i - 1 {
        assert errors'[k] == e && grads'[k] == g && passed'[k] == p && emitted'[k] == m;
      } else {
        StageBackedKept(stages, errors, squared, grads, passed, emitted, k, i - 1, e, g, p, m);
        assert emitted'[k] == emitted[k];
      }
    }
  }

  /** Every stage but the last accepts, as error, the local loss of the
      stage after it, and the last accepts an error of shape `es`. */
  ghost predicate LossChain(stages: seq<Stage>, es: Shape)
  {
    && |stages| > 0
    && (var s := stages[|stages| - 1]; LossReady(s.kind, s.activation, s.weights, s.buffers, s.connect, es))
    && forall i :: 0 < i < |stages| ==>
         var s := stages[i - 1];
         LossReady(s.kind, s.activation, s.weights, s.buffers, s.connect, LossShape(stages[i].kind, stages[i].buffers, stages[i].connect))
  }

  /** The error stage i - 1 takes, the seed for the last stage and the
      local loss of stage i otherwise, has the shape that stage accepts. */
  lemma ErrorReady(stages: seq<Stage>, seed: Cube<real>, squared: bool, grads: seq<(Tensor4d, Tensor4d)>,
                   errors: seq<Cube<real>>, passed: seq<Cube<real>>, emitted: seq<Cube<real>>, i: nat, e: Cube<real>)
    requires seed.Valid() && LossChain(stages, seed.Shape()) && 0 < i
    requires BackedFrom(stages, errors, squared, grads, passed, emitted, i)
    requires e == if i == |stages| then seed else emitted[i]
    ensures e.Valid() && var s := stages[i - 1]; LossReady(s.kind, s.activation, s.weights, s.buffers, s.connect, e.Shape())
  {
    if i < |stages| {
      assert e.Shape() == LossShape(stages[i].kind, stages[i].buffers, stages[i].connect);
    }
  }

  /** The stages record the layers, every one of which has run forward. */
  ghost predicate Mirrors(ls: seq<Layer>, stages: seq<Stage>)
    reads ls`weights, ls`biasWeights, ls`buffers, ls`connect, ls`forwarded
  {
    && |stages| == |ls|
    && forall j :: 0 <= j < |ls| ==>
         stages[j] == Stage(ls[j].kind, ls[j].activation, ls[j].weights, ls[j].biasWeights, ls[j].buffers, ls[j].connect)
         && ls[j].forwarded
  }

  /** The layers as stages. */
  ghost function StagesOf(ls: seq<Layer>): (stages: seq<Stage>)
    reads ls`weights, ls`biasWeights, ls`buffers, ls`connect
    ensures |stages| == |ls|
    ensures forall j :: 0 <= j < |ls| ==>
      stages[j] == Stage(ls[j].kind, ls[j].activation, ls[j].weights, ls[j].biasWeights, ls[j].buffers, ls[j].connect)
    decreases |ls|
  {
    if ls == [] then []
    else
      var l := ls[|ls| - 1];
      StagesOf(ls[..|ls| - 1]) + [Stage(l.kind, l.activation, l.weights, l.biasWeights, l.buffers, l.connect)]
  }

  /** The layers' flag maps. */
  ghost function ConnectsOf(ls: seq<Layer>): (connects: seq<Cube<real>>)
    reads ls`connect
    ensures |connects| == |ls| && forall j :: 0 <= j < |ls| ==> connects[j] == ls[j].connect
    decreases |ls|
  {
    if ls == [] then [] else ConnectsOf(ls[..|ls| - 1]) + [ls[|ls| - 1].connect]
  }

  class NeuralNetwork {
    /** `layers_`: each layer is owned by the network alone. */
    var layers: seq<Layer>
    const cost: CostFunction
    var initialized: bool

    /** `NeuralNetwork(loader, costFunction)`: no layers, not initialised. */
    constructor (costFunction: CostFunction)
      ensures layers == [] && cost == costFunction && !initialized
    {
      layers := [];
      cost := costFunction;
      initialized := false;
    }

    /** No layer appears twice (the `unique_ptr`s own distinct objects). */
    ghost predicate Distinct()
      reads this
    {
      forall i, j :: 0 <= i < j < |layers| ==> layers[i] != layers[j]
    }

    /** `AppendLayer(layer)`: the layer goes last, the others stay. */
    method AppendLayer(layer: Layer)
      requires Distinct() && layer !in layers
      modifies this`layers
      ensures layers == old(layers) + [layer] && |layers| == |old(layers)| + 1
      ensures Distinct()
    {
      layers := layers + [layer];
    }

    /** `Hypothesis()`: the last layer's output. */
    function Hypothesis(): Cube<real>
      requires |layers| > 0
      reads this, (layers[|layers| - 1] as Layer)`buffers
    {
      layers[|layers| - 1].buffers.output
    }

    // -------------------------------------------------------------------
    // Weights

    /** `InitWeights()`: every layer draws its weights in turn, and the
        network is then initialised, whatever the layers did. Nothing but
        the weights, the bias and the layers' flags changes. */
    method InitWeights(draws: seq<(seq<Cube<real>>, seq<Cube<real>>)>)
      requires Distinct() && |draws| == |layers|
      requires forall i :: 0 <= i < |layers| ==> layers[i].Holds() && layers[i].DrawsFit(draws[i].0, draws[i].1)
      modifies this`initialized, layers`weights, layers`biasWeights, layers`initialized
      ensures initialized
      ensures forall j :: 0 <= j < |layers| ==>
        Redrawn(old(layers[j].weights), old(layers[j].biasWeights), old(layers[j].initialized), draws[j].0, draws[j].1,
                layers[j].weights, layers[j].biasWeights, layers[j].initialized)
    {
      for i := 0 to |layers|
        invariant forall j :: 0 <= j < i ==>
          Redrawn(old(layers[j].weights), old(layers[j].biasWeights), old(layers[j].initialized), draws[j].0, draws[j].1,
                  layers[j].weights, layers[j].biasWeights, layers[j].initialized)
        invariant forall j :: i <= j < |layers| ==>
          layers[j].weights == old(layers[j].weights) && layers[j].biasWeights == old(layers[j].biasWeights) && layers[j].initialized == old(layers[j].initialized)
      {
        label before:
        layers[i].InitWeights(draws[i].0, draws[i].1);
        assert forall j :: 0 <= j < |layers| && j != i ==>
          layers[j].weights == old@before(layers[j].weights) && layers[j].biasWeights == old@before(layers[j].biasWeights)
          && layers[j].initialized == old@before(layers[j].initialized);
      }
      initialized := true;
    }

    /** `LoadWeights(in)`: the layers load in turn from the same stream;
        the first that fails ends the loop with false and leaves the
        network's flag alone, the layers after it untouched. `stop` is the
        number of layers that loaded, and `streams[j]` the stream layer j
        read from. Nothing but the weights, the bias and the layers' flags
        changes. */
    method LoadWeights(source: InStream) returns (ok: bool, source': InStream, ghost stop: nat, ghost streams: seq<InStream>)
      requires Distinct() && forall i :: 0 <= i < |layers| ==> layers[i].Holds()
      modifies this`initialized, layers`weights, layers`biasWeights, layers`initialized
      ensures stop <= |layers| && ok == (stop == |layers|)
      ensures |streams| == (if ok then stop + 1 else stop + 2)
      ensures streams[0] == source && source' == streams[|streams| - 1]
      ensures forall j :: 0 <= j < |streams| - 1 ==>
        Reloaded(old(layers[j].weights), old(layers[j].biasWeights), old(layers[j].initialized), streams[j], j < stop, streams[j + 1],
                 layers[j].weights, layers[j].biasWeights, layers[j].initialized)
      ensures forall j :: |streams| - 1 <= j < |layers| ==>
        layers[j].weights == old(layers[j].weights) && layers[j].biasWeights == old(layers[j].biasWeights) && layers[j].initialized == old(layers[j].initialized)
      ensures initialized == (ok || old(initialized))
    {
      ok, source', stop, streams := true, source, 0, [source];
      var i := 0;
      while i < |layers|
        invariant i == stop && stop <= |layers| && |streams| == stop + 1
        invariant streams[0] == source && source' == streams[stop] && source'.isOpen == source.isOpen
        invariant forall j :: 0 <= j < stop ==>
          Reloaded(old(layers[j].weights), old(layers[j].biasWeights), old(layers[j].initialized), streams[j], true, streams[j + 1],
                   layers[j].weights, layers[j].biasWeights, layers[j].initialized)
        invariant forall j :: stop <= j < |layers| ==>
          layers[j].weights == old(layers[j].weights) && layers[j].biasWeights == old(layers[j].biasWeights) && layers[j].initialized == old(layers[j].initialized)
        invariant initialized == old(initialized)
      {
        label before:
        var loaded, next := layers[i].LoadWeights(source');
        assert forall j :: 0 <= j < |layers| && j != i ==>
          layers[j].weights == old@before(layers[j].weights) && layers[j].biasWeights == old@before(layers[j].biasWeights)
          && layers[j].initialized == old@before(layers[j].initialized);
        streams, source' := streams + [next], next;
        if !loaded {
          ok := false;
          return;
        }
        i, stop := i + 1, stop + 1;
      }
      initialized := true;
    }

    /** `SaveWeights(out)`: false without writing for a network that is
        not initialised or has no layers; otherwise the layers write in
        turn and the first that fails ends the loop with false. `streams`
        are the stream before each layer's write. */
    method SaveWeights(out: OutStream) returns (ok: bool, out': OutStream, ghost stop: nat, ghost streams: seq<OutStream>)
      requires forall i :: 0 <= i < |layers| ==> layers[i].Holds()
      ensures ok ==> initialized && |layers| > 0
      ensures !initialized || |layers| == 0 ==> !ok && out' == out && stop == 0 && streams == [out]
      ensures initialized && |layers| > 0 ==>
        && stop <= |layers| && ok == (stop == |layers|)
        && |streams| == (if ok then stop + 1 else stop + 2)
        && streams[0] == out && out' == streams[|streams| - 1]
        && (forall j :: 0 <= j < stop ==> layers[j].SavedTo(streams[j], true, streams[j + 1]))
        && (!ok ==> layers[stop].SavedTo(streams[stop], false, streams[stop + 1]))
    {
      ok, out', stop, streams := false, out, 0, [out];
      if !initialized || |layers| == 0 {
        return;
      }
      ok := true;
      var i := 0;
      while i < |layers|
        invariant i == stop && stop <= |layers| && |streams| == stop + 1
        invariant streams[0] == out && out' == streams[stop]
        invariant forall j :: 0 <= j < stop ==> layers[j].SavedTo(streams[j], true, streams[j + 1])
      {
        var saved, next := layers[i].SaveWeights(out');
        streams, out' := streams + [next], next;
        if !saved {
          ok := false;
          return;
        }
        i, stop := i + 1, stop + 1;
      }
    }

    // -------------------------------------------------------------------
    // Forward

    /** The layers fit an input of shape `shapes[0]`: layer i accepts
        `shapes[i]` and makes an output of shape `shapes[i + 1]`. */
    ghost predicate Chained(shapes: seq<Shape>)
      reads this, layers
    {
      && |shapes| == |layers| + 1
      && forall i :: 0 <= i < |layers| ==>
           layers[i].Accepts(shapes[i]) && shapes[i + 1] == OutShape(layers[i].kind, layers[i].weights, shapes[i])
    }

    /** The layers as stages. */
    ghost function Stages(): (stages: seq<Stage>)
      reads this, layers`weights, layers`biasWeights, layers`buffers, layers`connect
      ensures |stages| == |layers|
      ensures forall j :: 0 <= j < |layers| ==>
        stages[j] == Stage(layers[j].kind, layers[j].activation, layers[j].weights, layers[j].biasWeights, layers[j].buffers, layers[j].connect)
    {
      StagesOf(layers)
    }

    /** `Forward()`: layer 0 responds to the input, and every later layer
        to the output of the one before, so the layers form a forward pass
        of x. Only the buffers, the flags of the last pass and the pooling
        flag maps change, and the flag maps only of pooling layers. */
    method Forward(x: Cube<real>, ghost shapes: seq<Shape>)
      requires x.Valid() && x.NElem() > 0 && |layers| > 0
      requires Distinct() && shapes != [] && shapes[0] == x.Shape() && Chained(shapes)
      modifies layers`buffers, layers`forwarded, layers`connect
      ensures Piped(Stages(), x)
      ensures forall i :: 0 <= i < |layers| ==> layers[i].forwarded && layers[i].buffers.output.Shape() == shapes[i + 1]
      ensures forall i :: 0 <= i < |layers| ==> !layers[i].kind.MaxPool? ==> layers[i].connect == old(layers[i].connect)
      ensures Hypothesis().Valid() && Hypothesis().Shape() == shapes[|layers|]
    {
      ghost var stages := ForwardAll(layers, x, shapes);
      assert stages == Stages();
    }

    /** The loop of `Forward()` over the layers `ls`, in order; `stages`
        records them after the pass. */
    static method ForwardAll(ls: seq<Layer>, x: Cube<real>, ghost shapes: seq<Shape>) returns (ghost stages: seq<Stage>)
      requires x.Valid() && (forall i, j :: 0 <= i < j < |ls| ==> ls[i] != ls[j])
      requires |shapes| == |ls| + 1 && shapes[0] == x.Shape()
      requires forall j :: 0 <= j < |ls| ==>
        ls[j].Accepts(shapes[j]) && shapes[j + 1] == OutShape(ls[j].kind, ls[j].weights, shapes[j])
      modifies ls`buffers, ls`forwarded, ls`connect
      ensures |stages| == |ls| && Piped(stages, x)
      ensures forall j :: 0 <= j < |ls| ==>
        && stages[j] == Stage(ls[j].kind, ls[j].activation, ls[j].weights, ls[j].biasWeights, ls[j].buffers, ls[j].connect)
        && ls[j].forwarded && ls[j].buffers.output.Valid() && ls[j].buffers.output.Shape() == shapes[j + 1]
      ensures forall j :: 0 <= j < |ls| ==> !ls[j].kind.MaxPool? ==> ls[j].connect == old(ls[j].connect)
    {
      var signal := x;
      stages := [];
      ghost var connects := ConnectsOf(ls);
      ForwardedAtStart(ls, x, shapes, connects);
      for i := 0 to |ls|
        invariant ForwardedUpTo(ls, x, shapes, connects, i, signal, stages)
      {
        signal, stages := ForwardNext(ls, i, x, shapes, signal, stages, connects);
      }
      ForwardedAtEnd(ls, x, shapes, connects, signal, stages);
    }

    /** Before the loop no layer has responded. */
    static lemma ForwardedAtStart(ls: seq<Layer>, x: Cube<real>, shapes: seq<Shape>, connects: seq<Cube<real>>)
      requires x.Valid() && |shapes| == |ls| + 1 && shapes[0] == x.Shape()
      requires forall j :: 0 <= j < |ls| ==>
        ls[j].Accepts(shapes[j]) && shapes[j + 1] == OutShape(ls[j].kind, ls[j].weights, shapes[j])
      requires |connects| == |ls| && forall j :: 0 <= j < |ls| ==> connects[j] == ls[j].connect
      ensures ForwardedUpTo(ls, x, shapes, connects, 0, x, [])
    {
    }

    /** After the loop every layer has responded. */
    static lemma ForwardedAtEnd(ls: seq<Layer>, x: Cube<real>, shapes: seq<Shape>, connects: seq<Cube<real>>,
                                signal: Cube<real>, stages: seq<Stage>)
      requires ForwardedUpTo(ls, x, shapes, connects, |ls|, signal, stages)
      ensures |stages| == |ls| && Piped(stages, x)
      ensures forall j :: 0 <= j < |ls| ==>
        && stages[j] == Stage(ls[j].kind, ls[j].activation, ls[j].weights, ls[j].biasWeights, ls[j].buffers, ls[j].connect)
        && ls[j].forwarded && ls[j].buffers.output.Valid() && ls[j].buffers.output.Shape() == shapes[j + 1]
      ensures forall j :: 0 <= j < |ls| ==> !ls[j].kind.MaxPool? ==> ls[j].connect == connects[j]
    {
    }

    /** The state of the forward loop before layer i: the layers before i
        have responded in turn and are recorded as stages, the signal is
        the last one's output (x at first), the layers from i on still
        accept their input shapes, and no flag map but a pooling layer's
        has changed from `connects`. */
    static ghost predicate ForwardedUpTo(ls: seq<Layer>, x: Cube<real>, shapes: seq<Shape>, connects: seq<Cube<real>>,
                                         i: nat, signal: Cube<real>, stages: seq<Stage>)
      reads ls`weights, ls`biasWeights, ls`initialized, ls`buffers, ls`forwarded, ls`connect
    {
      && |shapes| == |ls| + 1 && |connects| == |ls| && i <= |ls|
      && |stages| == i && Piped(stages, x)
      && signal.Valid() && signal.Shape() == shapes[i] && signal == (if i == 0 then x else stages[i - 1].buffers.output)
      && (forall j :: i <= j < |ls| ==>
            ls[j].Accepts(shapes[j]) && shapes[j + 1] == OutShape(ls[j].kind, ls[j].weights, shapes[j]))
      && (forall j :: 0 <= j < i ==>
            && stages[j] == Stage(ls[j].kind, ls[j].activation, ls[j].weights, ls[j].biasWeights, ls[j].buffers, ls[j].connect)
            && ls[j].forwarded && ls[j].buffers.output.Valid() && ls[j].buffers.output.Shape() == shapes[j + 1])
      && (forall j :: 0 <= j < |ls| ==> !ls[j].kind.MaxPool? ==> ls[j].connect == connects[j])
    }

    /** One turn of the loop of `Forward()`: layer i responds to the
        signal and joins the pass; the layers before it keep their state
        and the layers after it still accept their input shapes. */
    static method ForwardNext(ls: seq<Layer>, i: nat, x: Cube<real>, ghost shapes: seq<Shape>, signal: Cube<real>, ghost stages: seq<Stage>,
                              ghost connects: seq<Cube<real>>)
      returns (signal': Cube<real>, ghost stages': seq<Stage>)
      requires (forall i, j :: 0 <= i < j < |ls| ==> ls[i] != ls[j]) && i < |ls|
      requires ForwardedUpTo(ls, x, shapes, connects, i, signal, stages)
      modifies (ls[i] as Layer)`buffers, (ls[i] as Layer)`forwarded, (ls[i] as Layer)`connect
      ensures ForwardedUpTo(ls, x, shapes, connects, i + 1, signal', stages')
    {
      ghost var stage := ForwardLayer(ls[i], signal, x, stages);
      stages' := stages + [stage];
      signal' := ls[i].buffers.output;
    }

    /** One step of the forward loop: the layer responds to the signal,
        which is the input or the output of the stage before it, and joins
        the pass as a new stage. */
    static method ForwardLayer(layer: Layer, signal: Cube<real>, ghost x: Cube<real>, ghost stages: seq<Stage>)
      returns (ghost stage: Stage)
      requires Piped(stages, x) && signal == if stages == [] then x else stages[|stages| - 1].buffers.output
      requires signal.Valid() && layer.Accepts(signal.Shape())
      modifies layer`buffers, layer`forwarded, layer`connect
      ensures stage == Stage(layer.kind, layer.activation, layer.weights, layer.biasWeights, layer.buffers, layer.connect)
      ensures Piped(stages + [stage], x)
      ensures layer.forwarded && layer.buffers.output.Valid()
      ensures layer.buffers.output.Shape() == OutShape(layer.kind, layer.weights, signal.Shape())
      ensures !layer.kind.MaxPool? ==> layer.connect == old(layer.connect)
    {
      layer.Forward(signal);
      stage := Stage(layer.kind, layer.activation, layer.weights, layer.biasWeights, layer.buffers, layer.connect);
      PipedGrow(stages, x, signal, stage);
    }

    // -------------------------------------------------------------------
    // Backward

    /** The hypothesis has a row for every label. */
    ghost predicate Labelled(labels: seq<real>)
      reads this, layers
    {
      var h := if |layers| > 0 then layers[|layers| - 1].buffers.output else Emptied();
      |layers| > 0 && h.Valid() && |labels| <= h.rows && h.cols > 0 && h.slices > 0
    }

    /** `Backpropagation()` (squared = false) and `Backpropagation_2nd()`
        (squared = true): the last layer takes the seed, and each layer
        i - 1 then takes the local loss of layer i, whose buffer it
        overwrites. For every layer i, `errors[i]` is the error it
        received, `passed[i]` that buffer after its backward pass,
        `emitted[i]` the local loss it computed, and `result[i]` its
        gradient pair. Only the local losses change. */
    method Pass(labels: seq<real>, squared: bool)
      returns (result: seq<(Tensor4d, Tensor4d)>, ghost errors: seq<Cube<real>>, ghost passed: seq<Cube<real>>, ghost emitted: seq<Cube<real>>)
      requires Distinct() && Labelled(labels) && Mirrors(layers, Stages()) && LossChain(Stages(), (|labels|, 1, 1))
      modifies layers`localLoss
      ensures BackedFrom(old(Stages()), errors, squared, result, passed, emitted, 0)
      ensures errors[|layers| - 1] == Seeded(cost, labels, old(Hypothesis()), squared)
      ensures forall i :: 0 <= i < |layers| - 1 ==> errors[i] == emitted[i + 1]
      ensures layers[0].localLoss == emitted[0]
      ensures forall i :: 0 < i < |layers| ==> layers[i].localLoss == passed[i - 1]
    {
      result, errors, passed, emitted := SeedAndBackward(layers, cost, labels, squared, Stages(), Hypothesis());
    }

    /** The body of `Pass` over the layers `ls`, whose last output is h:
        the seed, then the backward loop. */
    static method SeedAndBackward(ls: seq<Layer>, cost: CostFunction, labels: seq<real>, squared: bool, ghost stages: seq<Stage>, h: Cube<real>)
      returns (result: seq<(Tensor4d, Tensor4d)>, ghost errors: seq<Cube<real>>, ghost passed: seq<Cube<real>>, ghost emitted: seq<Cube<real>>)
      requires (forall i, j :: 0 <= i < j < |ls| ==> ls[i] != ls[j]) && Mirrors(ls, stages) && LossChain(stages, (|labels|, 1, 1))
      requires h.Valid() && |labels| <= h.rows && h.cols > 0 && h.slices > 0
      modifies ls`localLoss
      ensures BackedFrom(stages, errors, squared, result, passed, emitted, 0)
      ensures errors[|ls| - 1] == Seeded(cost, labels, h, squared)
      ensures forall i :: 0 <= i < |ls| - 1 ==> errors[i] == emitted[i + 1]
      ensures ls[0].localLoss == emitted[0]
      ensures forall i :: 0 < i < |ls| ==> ls[i].localLoss == passed[i - 1]
    {
      var seed := Seed(cost, labels, h, squared);
      result, errors, passed, emitted := BackwardAll(ls, seed, squared, stages);
    }

    /** The loop of the backward passes over the layers `ls`, from the
        last down to the first, with the seed as the last layer's error. */
    static method BackwardAll(ls: seq<Layer>, seed: Cube<real>, squared: bool, ghost stages: seq<Stage>)
      returns (result: seq<(Tensor4d, Tensor4d)>, ghost errors: seq<Cube<real>>, ghost passed: seq<Cube<real>>, ghost emitted: seq<Cube<real>>)
      requires (forall i, j :: 0 <= i < j < |ls| ==> ls[i] != ls[j]) && Mirrors(ls, stages)
      requires seed.Valid() && LossChain(stages, seed.Shape())
      modifies ls`localLoss
      ensures BackedFrom(stages, errors, squared, result, passed, emitted, 0)
      ensures errors[|ls| - 1] == seed && forall j :: 0 <= j < |ls| - 1 ==> errors[j] == emitted[j + 1]
      ensures ls[0].localLoss == emitted[0] && forall j :: 0 < j < |ls| ==> ls[j].localLoss == passed[j - 1]
    {
      var n := |ls|;
      result := seq(n, _ => (Default(), Default()));
      // Placeholders, each overwritten by the turn of its layer.
      errors := seq(n, _ => seed);
      passed, emitted := errors, errors;
      var i := n;
      BackedAtStart(ls, seed, squared, stages, result, errors, passed, emitted);
      while i > 0
        invariant BackedDownTo(ls, seed, squared, stages, i, result, errors, passed, emitted)
      {
        result, errors, passed, emitted := BackwardNext(ls, i, seed, squared, stages, result, errors, passed, emitted);
        i := i - 1;
      }
    }

    /** Before the loop no layer has run backward. */
    static lemma BackedAtStart(ls: seq<Layer>, seed: Cube<real>, squared: bool, stages: seq<Stage>,
                               result: seq<(Tensor4d, Tensor4d)>, errors: seq<Cube<real>>, passed: seq<Cube<real>>, emitted: seq<Cube<real>>)
      requires Mirrors(ls, stages)
      requires |result| == |ls| && |errors| == |ls| && |passed| == |ls| && |emitted| == |ls|
      ensures BackedDownTo(ls, seed, squared, stages, |ls|, result, errors, passed, emitted)
    {
    }

    /** The state of the backward loop before layer i - 1: the layers from
        i on have run backward in turn, each on the local loss of the next
        (the last on the seed), and each one's `localLoss` holds what the
        layer before it left there; the layers before i are as forwarded. */
    static ghost predicate BackedDownTo(ls: seq<Layer>, seed: Cube<real>, squared: bool, stages: seq<Stage>, i: nat,
                                        result: seq<(Tensor4d, Tensor4d)>, errors: seq<Cube<real>>,
                                        passed: seq<Cube<real>>, emitted: seq<Cube<real>>)
      reads ls`weights, ls`biasWeights, ls`buffers, ls`connect, ls`forwarded, ls`localLoss
    {
      && |stages| == |ls| && i <= |ls| && BackedFrom(stages, errors, squared, result, passed, emitted, i)
      && (forall j :: 0 <= j < i ==>
            stages[j] == Stage(ls[j].kind, ls[j].activation, ls[j].weights, ls[j].biasWeights, ls[j].buffers, ls[j].connect) && ls[j].forwarded)
      && (i < |ls| ==> errors[|ls| - 1] == seed && ls[i].localLoss == emitted[i])
      && (forall j :: i <= j < |ls| - 1 ==> errors[j] == emitted[j + 1])
      && (forall j :: i < j < |ls| ==> ls[j].localLoss == passed[j - 1])
    }

    /** One turn of the backward loop: layer i - 1 takes the seed (when it
        is the last layer) or the local loss of layer i, and its backward
        pass overwrites that buffer. */
    static method BackwardNext(ls: seq<Layer>, i: nat, seed: Cube<real>, squared: bool, ghost stages: seq<Stage>,
                               result: seq<(Tensor4d, Tensor4d)>, ghost errors: seq<Cube<real>>, ghost passed: seq<Cube<real>>,
                               ghost emitted: seq<Cube<real>>)
      returns (result': seq<(Tensor4d, Tensor4d)>, ghost errors': seq<Cube<real>>, ghost passed': seq<Cube<real>>, ghost emitted': seq<Cube<real>>)
      requires (forall i, j :: 0 <= i < j < |ls| ==> ls[i] != ls[j]) && |stages| == |ls|
      requires seed.Valid() && LossChain(stages, seed.Shape())
      requires 0 < i && BackedDownTo(ls, seed, squared, stages, i, result, errors, passed, emitted)
      modifies ls`localLoss
      ensures BackedDownTo(ls, seed, squared, stages, i - 1, result', errors', passed', emitted')
    {
      var n := |ls|;
      var e := if i == n then seed else ls[i].localLoss;
      ErrorReady(stages, seed, squared, result, errors, passed, emitted, i, e);
      label before:
      var g, p := BackwardStage(ls[i - 1], e, squared, stages, i, result, errors, passed, emitted);
      assert forall j :: 0 <= j < n && j != i - 1 ==> ls[j].localLoss == old@before(ls[j].localLoss);
      if i < n {
        ls[i].localLoss := p;
      }
      result', errors', passed', emitted' := result[i - 1 := g], errors[i - 1 := e], passed[i - 1 := p], emitted[i - 1 := ls[i - 1].localLoss];
      assert forall j :: i - 1 < j < n ==> ls[j].localLoss == passed'[j - 1];
      assert forall j :: i - 1 <= j < n - 1 ==> errors'[j] == emitted'[j + 1];
    }

    /** `Backward` or `Backward2nd` of layer i - 1, whose stage is
        `stages[i - 1]`, added to the record of the stages after it. */
    static method BackwardStage(layer: Layer, e: Cube<real>, squared: bool, ghost stages: seq<Stage>, i: nat,
                                ghost grads: seq<(Tensor4d, Tensor4d)>, ghost errors: seq<Cube<real>>,
                                ghost passed: seq<Cube<real>>, ghost emitted: seq<Cube<real>>)
      returns (g: (Tensor4d, Tensor4d), p: Cube<real>)
      requires 0 < i && BackedFrom(stages, errors, squared, grads, passed, emitted, i)
      requires stages[i - 1] == Stage(layer.kind, layer.activation, layer.weights, layer.biasWeights, layer.buffers, layer.connect)
      requires layer.forwarded && e.Valid() && LossReady(layer.kind, layer.activation, layer.weights, layer.buffers, layer.connect, e.Shape())
      modifies layer`localLoss
      ensures BackedFrom(stages, errors[i - 1 := e], squared, grads[i - 1 := g], passed[i - 1 := p], emitted[i - 1 := layer.localLoss], i - 1)
    {
      g, p := Backward(layer, e, squared);
      BackedGrow(stages, errors, squared, grads, passed, emitted, i, e, g, p, layer.localLoss);
    }

    /** `Backward` or `Backward2nd` of one layer. */
    static method Backward(layer: Layer, e: Cube<real>, squared: bool) returns (grads: (Tensor4d, Tensor4d), passed: Cube<real>)
      requires e.Valid() && layer.AcceptsLoss(e.Shape())
      modifies layer`localLoss
      ensures Backed(layer.kind, layer.activation, layer.weights, layer.biasWeights, layer.buffers, layer.connect,
                     e, squared, grads, passed, layer.localLoss)
    {
      if squared {
        grads, passed := layer.Backward2nd(e);
      } else {
        grads, passed := layer.Backward(e);
      }
    }

    /** `Error()`: the cost of the labels against the first column of the
        last layer's output, or of its receptive field when that layer is
        a softmax layer. The Euclidean loss is never negative and is zero
        exactly when that column equals the labels. */
    function Error(labels: seq<real>): (err: real)
      requires |labels| > 0 && |layers| > 0
      requires var last := layers[|layers| - 1];
        var h := if last.kind.SoftMax? then last.buffers.receptiveField else last.buffers.output;
        h.Valid() && h.rows == |labels| && h.cols > 0 && h.slices > 0
      reads this, layers[|layers| - 1]
      ensures var last := layers[|layers| - 1];
        var h := if last.kind.SoftMax? then last.buffers.receptiveField else last.buffers.output;
        cost.kind.EuclidianLoss? ==>
          && err >= 0.0
          && (err == 0.0 <==> forall i :: 0 <= i < |labels| ==> h.At(i, 0, 0) == labels[i])
    {
      var last := layers[|layers| - 1];
      var h := if last.kind.SoftMax? then last.buffers.receptiveField else last.buffers.output;
      var column := FirstColumnOf(h, |labels|);
      if cost.kind.EuclidianLoss? then
        EuclidianNonNegative(cost, labels, column);
        EuclidianZeroIff(cost, labels, column);
        cost.Compute(labels, column)
      else
        cost.Compute(labels, column)
    }
  }
}
