/** The cost functions over label and hypothesis columns. Both shipped
    costs share the derivative h - l; the cross entropy uses Armadillo's
    `trunc_log`, carried here as a value. The network also calls a second
    derivative that no cost class declares; it is carried the same way. */
module Costs {

  datatype CostKind = EuclidianLoss | CrossEntropy(truncLog: real -> real)

  datatype CostFunction = CostFunction(kind: CostKind, secondDerivative: (real, real) -> real)
  {
    /** `Derivative(label, hypothesis)`, identical for both costs. */
    function Derivative(l: real, h: real): (d: real)
      ensures d == 0.0 <==> l == h
      ensures h == l + d
    {
      h - l
    }

    /** `SecondDerivative(label, hypothesis)`. */
    function SecondDerivative(l: real, h: real): real {
      secondDerivative(l, h)
    }

    /** `Compute(labels, hypothesis)`: half the squared distance for the
        Euclidean loss, -labels' * trunc_log(hypothesis) for the cross
        entropy. Armadillo refuses columns of different lengths. */
    function Compute(labels: seq<real>, hypothesis: seq<real>): real
      requires |labels| == |hypothesis|
    {
      match kind
      case EuclidianLoss => Dot(Difference(labels, hypothesis), Difference(labels, hypothesis)) / 2.0
      case CrossEntropy(truncLog) => -1.0 * Dot(labels, Map(truncLog, hypothesis))
    }
  }

  /** `labels - hypothesis`, elementwise. */
  function Difference(a: seq<real>, b: seq<real>): (d: seq<real>)
    requires |a| == |b|
    ensures |d| == |a| && forall i :: 0 <= i < |a| ==> d[i] == a[i] - b[i]
  {
    seq(|a|, i requires 0 <= i < |a| => a[i] - b[i])
  }

  function Map(f: real -> real, a: seq<real>): (m: seq<real>)
    ensures |m| == |a| && forall i :: 0 <= i < |a| ==> m[i] == f(a[i])
  {
    seq(|a|, i requires 0 <= i < |a| => f(a[i]))
  }

  /** `as_scalar(a.t() * b)`. */
  function Dot(a: seq<real>, b: seq<real>): real
    requires |a| == |b|
  {
    if a == [] then 0.0 else a[0] * b[0] + Dot(a[1..], b[1..])
  }

  // The self-product facts take the two factors as separate parameters,
  // equal by precondition: the solver handles `x * y` with `x == y` better
  // than the literal square `x * x`.

  lemma ProductSelfNonNegative(x: real, y: real)
    requires x == y
    ensures x * y >= 0.0
  {
    if x > 0.0 { } else { }
  }

  lemma ProductSelfPositive(x: real, y: real)
    requires x == y && x != 0.0
    ensures x * y > 0.0
  {
    if x > 0.0 { } else { }
  }

  lemma AddPositive(p: real, s: real)
    requires p > 0.0 && s >= 0.0
    ensures p + s > 0.0
  {
  }

  /** `d.t() * d` is never negative. */
  lemma {:induction false} DotSelfNonNegative(a: seq<real>, b: seq<real>)
    requires a == b
    ensures Dot(a, b) >= 0.0
  {
    if a != [] {
      DotSelfNonNegative(a[1..], b[1..]);
      ProductSelfNonNegative(a[0], b[0]);
    }
  }

  /** One non-zero entry makes `d.t() * d` strictly positive. */
  lemma {:induction false} DotSelfPositive(a: seq<real>, b: seq<real>, i: nat)
    requires a == b && i < |a| && a[i] != 0.0
    ensures Dot(a, b) > 0.0
  {
    DotSelfNonNegative(a[1..], b[1..]);
    ProductSelfNonNegative(a[0], b[0]);
    if i == 0 {
      ProductSelfPositive(a[0], b[0]);
      AddPositive(a[0] * b[0], Dot(a[1..], b[1..]));
    } else {
      DotSelfPositive(a[1..], b[1..], i - 1);
    }
  }

  lemma {:induction false} DotZero(a: seq<real>, b: seq<real>)
    requires |a| == |b| && forall i :: 0 <= i < |a| ==> a[i] == 0.0
    ensures Dot(a, b) == 0.0
  {
    if a != [] {
      DotZero(a[1..], b[1..]);
    }
  }

  /** `d.t() * d` vanishes exactly when every entry of d is zero. */
  lemma DotSelfZeroIff(d: seq<real>)
    ensures Dot(d, d) == 0.0 <==> forall i :: 0 <= i < |d| ==> d[i] == 0.0
  {
    if forall i :: 0 <= i < |d| ==> d[i] == 0.0 {
      DotZero(d, d);
    } else {
      var i :| 0 <= i < |d| && d[i] != 0.0;
      DotSelfPositive(d, d, i);
    }
  }

  /** Negating every entry leaves `d.t() * d` unchanged. */
  lemma {:induction false} DotSelfNegate(a: seq<real>, b: seq<real>)
    requires |a| == |b| && forall i :: 0 <= i < |a| ==> b[i] == -a[i]
    ensures Dot(a, a) == Dot(b, b)
  {
    if a != [] {
      DotSelfNegate(a[1..], b[1..]);
    }
  }

  /** The Euclidean loss is never negative. */
  lemma EuclidianNonNegative(f: CostFunction, labels: seq<real>, hypothesis: seq<real>)
    requires f.kind.EuclidianLoss? && |labels| == |hypothesis|
    ensures f.Compute(labels, hypothesis) >= 0.0
  {
    var d := Difference(labels, hypothesis);
    DotSelfNonNegative(d, d);
  }

  /** The Euclidean loss is zero exactly when the hypothesis equals the
      labels. */
  lemma EuclidianZeroIff(f: CostFunction, labels: seq<real>, hypothesis: seq<real>)
    requires f.kind.EuclidianLoss? && |labels| == |hypothesis|
    ensures f.Compute(labels, hypothesis) == 0.0 <==> labels == hypothesis
  {
    var d := Difference(labels, hypothesis);
    DotSelfZeroIff(d);
    if labels == hypothesis {
      assert forall i :: 0 <= i < |d| ==> d[i] == 0.0;
    }
    if f.Compute(labels, hypothesis) == 0.0 {
      assert forall i :: 0 <= i < |d| ==> d[i] == 0.0;
      assert forall i :: 0 <= i < |labels| ==> labels[i] == hypothesis[i];
    }
  }

  /** Swapping labels and hypothesis leaves the Euclidean loss unchanged. */
  lemma EuclidianSymmetric(f: CostFunction, labels: seq<real>, hypothesis: seq<real>)
    requires f.kind.EuclidianLoss? && |labels| == |hypothesis|
    ensures f.Compute(labels, hypothesis) == f.Compute(hypothesis, labels)
  {
    DotSelfNegate(Difference(labels, hypothesis), Difference(hypothesis, labels));
  }

  /** The per-element derivatives of a pair of columns. */
  function Derivatives(f: CostFunction, labels: seq<real>, hypothesis: seq<real>): (d: seq<real>)
    requires |labels| == |hypothesis|
    ensures |d| == |labels| && forall i :: 0 <= i < |d| ==> d[i] == f.Derivative(labels[i], hypothesis[i])
  {
    seq(|labels|, i requires 0 <= i < |labels| => f.Derivative(labels[i], hypothesis[i]))
  }

  /** The Euclidean loss is half the sum of the squared derivatives. */
  lemma EuclidianFromDerivative(f: CostFunction, labels: seq<real>, hypothesis: seq<real>)
    requires f.kind.EuclidianLoss? && |labels| == |hypothesis|
    ensures f.Compute(labels, hypothesis) == Dot(Derivatives(f, labels, hypothesis), Derivatives(f, labels, hypothesis)) / 2.0
  {
    DotSelfNegate(Difference(labels, hypothesis), Derivatives(f, labels, hypothesis));
  }
}
