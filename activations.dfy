/** The layers' activation functions. `ReLU::Compute` clamps at zero, but
    its `Derivative` is the logistic function 1 / (1 + e^-v); `Tanh` uses
    tanh and 1 - tanh^2. The transcendental functions are carried as
    values of the activation, with only the facts the proofs need. */
module Activations {
  import opened Cubes

  datatype ActivationFunction = ReLU(exp: real -> real) | Tanh(tanh: real -> real)
  {
    /** What the proofs assume of the library functions: e^x > 0 and
        -1 < tanh x < 1. */
    ghost predicate Valid() {
      match this
      case ReLU(exp) => forall x :: exp(x) > 0.0
      case Tanh(tanh) => forall x :: -1.0 < tanh(x) < 1.0
    }

    /** The value `Compute` stores for one element: `std::max(0.0, v)` for
        ReLU, `tanh(v)` for Tanh. */
    function Apply(v: real): (y: real)
      ensures this.ReLU? ==> y >= 0.0 && (v >= 0.0 ==> y == v) && (v < 0.0 ==> y == 0.0)
      ensures this.Tanh? ==> y == tanh(v)
    {
      match this
      case ReLU(_) => if 0.0 < v then v else 0.0
      case Tanh(tanh) => tanh(v)
    }

    /** `Derivative(value)`. */
    function Derivative(v: real): (y: real)
      requires Valid()
    {
      match this
      case ReLU(exp) => 1.0 / (1.0 + exp(-v))
      case Tanh(tanh) => 1.0 - tanh(v) * tanh(v)
    }

    /** The shape demand of `Compute`: ReLU asserts equal slice and row
        counts; both loop over src's extents and write dst at the same
        positions, which Armadillo's bounds checks require to exist. */
    predicate Fits(src: Cube<real>, dst: Cube<real>) {
      && (if this.ReLU? then src.slices == dst.slices && src.rows == dst.rows
          else src.slices <= dst.slices && src.rows <= dst.rows)
      && src.cols <= dst.cols
    }
  }

  /** The ReLU "derivative" is the logistic function, strictly between 0
      and 1. */
  lemma ReluDerivativeRange(f: ActivationFunction, v: real)
    requires f.ReLU? && f.Valid()
    ensures 0.0 < f.Derivative(v) < 1.0
  {
    var e := f.exp(-v);
    assert e > 0.0;
    assert 1.0 / (1.0 + e) < 1.0 by {
      assert (1.0 / (1.0 + e)) * (1.0 + e) == 1.0;
    }
  }

  /** 1 - tanh^2 lies in (0, 1]. */
  lemma TanhDerivativeRange(f: ActivationFunction, v: real)
    requires f.Tanh? && f.Valid()
    ensures 0.0 < f.Derivative(v) <= 1.0
  {
    var t := f.tanh(v);
    assert -1.0 < t < 1.0;
    if t >= 0.0 {
      assert t * t <= t * 1.0;
    } else {
      assert t * t <= (-t) * 1.0;
    }
  }

  /** The whole-cube result of `Compute` into a buffer of src's shape. */
  function Applied(f: ActivationFunction, x: Cube<real>): (y: Cube<real>)
    requires x.Valid()
    ensures y.Valid() && y.Shape() == x.Shape()
    ensures forall r: nat, c: nat, s: nat :: x.InBounds(r, c, s) ==> y.At(r, c, s) == f.Apply(x.At(r, c, s))
  {
    Tabulate(x.rows, x.cols, x.slices, (r: nat, c: nat, s: nat) requires x.InBounds(r, c, s) => f.Apply(x.At(r, c, s)))
  }

  /** Applying ReLU to its own output changes nothing. */
  lemma ReluIdempotent(f: ActivationFunction, x: Cube<real>)
    requires f.ReLU? && x.Valid()
    ensures Applied(f, Applied(f, x)) == Applied(f, x)
  {
    var once := Applied(f, x);
    Extensionality(Applied(f, once), once);
  }

  /** The ReLU output is non-negative everywhere, equals the input where the
      input is non-negative and is zero elsewhere. */
  lemma ReluOutput(f: ActivationFunction, x: Cube<real>, r: nat, c: nat, s: nat)
    requires f.ReLU? && x.Valid() && x.InBounds(r, c, s)
    ensures Applied(f, x).At(r, c, s) >= 0.0
    ensures x.At(r, c, s) >= 0.0 ==> Applied(f, x).At(r, c, s) == x.At(r, c, s)
    ensures x.At(r, c, s) < 0.0 ==> Applied(f, x).At(r, c, s) == 0.0
  {
  }

  /** dst after the loops of `Compute` have visited every src position
      before (r, c, s) in their order (slice, then column, then row). */
  ghost predicate ComputedUpTo(f: ActivationFunction, src: Cube<real>, dst: Cube<real>, out: Cube<real>, r: nat, c: nat, s: nat)
    requires src.Valid() && dst.Valid() && out.Valid() && out.Shape() == dst.Shape() && f.Fits(src, dst)
  {
    forall r': nat, c': nat, s': nat :: dst.InBounds(r', c', s') ==>
      out.At(r', c', s') ==
        if src.InBounds(r', c', s') && (s' < s || (s' == s && (c' < c || (c' == c && r' < r))))
        then f.Apply(src.At(r', c', s')) else dst.At(r', c', s')
  }

  /** `Compute(src, dst)`: dst(r, c, s) = f(src(r, c, s)) for every position
      of src; dst positions outside src's extents keep their values. */
  method Compute(f: ActivationFunction, src: Cube<real>, dst: Cube<real>) returns (out: Cube<real>)
    requires src.Valid() && dst.Valid() && f.Fits(src, dst)
    ensures out.Valid() && out.Shape() == dst.Shape()
    ensures forall r: nat, c: nat, s: nat :: dst.InBounds(r, c, s) ==>
      out.At(r, c, s) == if src.InBounds(r, c, s) then f.Apply(src.At(r, c, s)) else dst.At(r, c, s)
    ensures dst.Shape() == src.Shape() ==> out == Applied(f, src)
  {
    out := dst;
    for s := 0 to src.slices
      invariant out.Valid() && out.Shape() == dst.Shape()
      invariant ComputedUpTo(f, src, dst, out, 0, 0, s)
    {
      for c := 0 to src.cols
        invariant out.Valid() && out.Shape() == dst.Shape()
        invariant ComputedUpTo(f, src, dst, out, 0, c, s)
      {
        for r := 0 to src.rows
          invariant out.Valid() && out.Shape() == dst.Shape()
          invariant ComputedUpTo(f, src, dst, out, r, c, s)
        {
          out := out.Set(r, c, s, f.Apply(src.At(r, c, s)));
        }
      }
    }
    if dst.Shape() == src.Shape() {
      Extensionality(out, Applied(f, src));
    }
  }

  // ---------------------------------------------------------------------
  // The slopes the backward passes multiply the error by

  /** `Derivative(v)` in the first-order passes, `std::pow(Derivative(v), 2)`
      in the second-order ones. */
  function Slope(f: ActivationFunction, v: real, squared: bool): real
    requires f.Valid()
  {
    var d := f.Derivative(v);
    if squared then Square(d) else d
  }

  lemma DerivativeRange(f: ActivationFunction, v: real)
    requires f.Valid()
    ensures 0.0 < f.Derivative(v) <= 1.0
  {
    if f.ReLU? {
      ReluDerivativeRange(f, v);
    } else {
      TanhDerivativeRange(f, v);
    }
  }

  /** `std::pow(d, 2)`. */
  function Square(d: real): real {
    d * d
  }

  /** A product of two numbers in (0, 1] lies in (0, 1]. The product is
      passed as z: the solver reasons about z more reliably than about a
      literal square. */
  lemma UnitProduct(x: real, y: real, z: real)
    requires 0.0 < x <= 1.0 && 0.0 < y <= 1.0 && z == x * y
    ensures 0.0 < z <= 1.0
  {
    assert x * y <= x * 1.0;
    assert x * y > 0.0;
  }

  lemma UnitSquare(d: real)
    requires 0.0 < d <= 1.0
    ensures 0.0 < Square(d) <= 1.0
  {
    UnitProduct(d, d, Square(d));
  }

  /** Both slopes lie in (0, 1]. */
  lemma SlopeRange(f: ActivationFunction, v: real, squared: bool)
    requires f.Valid()
    ensures 0.0 < Slope(f, v, squared) <= 1.0
  {
    var d := f.Derivative(v);
    DerivativeRange(f, v);
    if squared {
      UnitSquare(d);
    }
  }

  /** Multiplying an error by a slope keeps its sign, never grows it and
      leaves it zero exactly when it was zero. */
  lemma SlopeShrinks(f: ActivationFunction, v: real, squared: bool, e: real)
    requires f.Valid()
    ensures e >= 0.0 ==> 0.0 <= e * Slope(f, v, squared) <= e
    ensures e <= 0.0 ==> e <= e * Slope(f, v, squared) <= 0.0
    ensures e * Slope(f, v, squared) == 0.0 <==> e == 0.0
  {
    var d := Slope(f, v, squared);
    SlopeRange(f, v, squared);
    if e >= 0.0 {
      assert e * d <= e * 1.0;
    } else {
      assert e * d >= e * 1.0;
    }
  }

  /** dfdz after the loops have visited every position before (r, c, s)
      (slice, then column, then row). */
  ghost predicate SlopesUpTo(f: ActivationFunction, rf: Cube<real>, squared: bool, dfdz: Cube<real>, r: nat, c: nat, s: nat)
    requires f.Valid() && rf.Valid() && dfdz.Valid() && dfdz.Shape() == rf.Shape()
  {
    forall r': nat, c': nat, s': nat :: rf.InBounds(r', c', s') && (s' < s || (s' == s && (c' < c || (c' == c && r' < r)))) ==>
      dfdz.At(r', c', s') == Slope(f, rf.At(r', c', s'), squared)
  }

  /** The `dfdz` loops of the convolutional layer's backward passes:
      dfdz(r, c, s) is the slope at rf(r, c, s). */
  method Slopes(f: ActivationFunction, rf: Cube<real>, squared: bool) returns (dfdz: Cube<real>)
    requires f.Valid() && rf.Valid()
    ensures dfdz.Valid() && dfdz.Shape() == rf.Shape()
    ensures forall r: nat, c: nat, s: nat :: rf.InBounds(r, c, s) ==>
      0.0 < dfdz.At(r, c, s) <= 1.0 && dfdz.At(r, c, s) == Slope(f, rf.At(r, c, s), squared)
  {
    dfdz := Allocated(rf.rows, rf.cols, rf.slices);
    for s := 0 to rf.slices
      invariant dfdz.Valid() && dfdz.Shape() == rf.Shape()
      invariant SlopesUpTo(f, rf, squared, dfdz, 0, 0, s)
    {
      for c := 0 to rf.cols
        invariant dfdz.Valid() && dfdz.Shape() == rf.Shape()
        invariant SlopesUpTo(f, rf, squared, dfdz, 0, c, s)
      {
        for r := 0 to rf.rows
          invariant dfdz.Valid() && dfdz.Shape() == rf.Shape()
          invariant SlopesUpTo(f, rf, squared, dfdz, r, c, s)
        {
          dfdz := dfdz.Set(r, c, s, Slope(f, rf.At(r, c, s), squared));
        }
      }
    }
    forall r: nat, c: nat, s: nat | rf.InBounds(r, c, s) ensures 0.0 < dfdz.At(r, c, s) <= 1.0 {
      SlopeRange(f, rf.At(r, c, s), squared);
    }
  }

  /** The `dfdz` loop of the fully connected layer's backward passes: one
      slope per row of rf's first column. */
  method ColumnSlopes(f: ActivationFunction, rf: Cube<real>, squared: bool) returns (dfdz: Cube<real>)
    requires f.Valid() && rf.Valid() && rf.cols > 0 && rf.slices > 0
    ensures dfdz.Valid() && dfdz.Shape() == (rf.rows, 1, 1)
    ensures forall i: nat :: i < rf.rows ==>
      0.0 < dfdz.At(i, 0, 0) <= 1.0 && dfdz.At(i, 0, 0) == Slope(f, rf.At(i, 0, 0), squared)
  {
    dfdz := Allocated(rf.rows, 1, 1);
    for i := 0 to rf.rows
      invariant dfdz.Valid() && dfdz.Shape() == (rf.rows, 1, 1)
      invariant forall i': nat :: i' < i ==> dfdz.At(i', 0, 0) == Slope(f, rf.At(i', 0, 0), squared)
    {
      dfdz := dfdz.Set(i, 0, 0, Slope(f, rf.At(i, 0, 0), squared));
    }
    forall i: nat | i < rf.rows ensures 0.0 < dfdz.At(i, 0, 0) <= 1.0 {
      SlopeRange(f, rf.At(i, 0, 0), squared);
    }
  }
}
