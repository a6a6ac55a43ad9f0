/** The linear algebra of the fully connected and softmax layers: the
    affine map W'x + b of `Forward`, the propagated error W.d and the outer
    product x.d' of `Backward`, their squared variants in `Backward2nd`,
    and the softmax normalisation. A matrix is slice 0 of a cube, a vector
    column 0 of slice 0, as Armadillo's `slice(0)` and `col(0)` select. */
module Dense {
  import opened Cubes

  /** The cube holds a matrix in slice 0. */
  predicate IsMatrix(w: Cube<real>) {
    w.Valid() && w.slices > 0
  }

  /** The cube is a column vector of length n. */
  predicate IsVector(x: Cube<real>, n: nat) {
    x.Valid() && x.IsColumn() && x.rows == n
  }

  /** w(0, j) x(0) + ... + w(n-1, j) x(n-1): entry j of w' x over the
      first n rows. */
  function ColumnDot(w: Cube<real>, j: nat, x: Cube<real>, n: nat): real
    requires IsMatrix(w) && j < w.cols && n <= w.rows && x.Valid() && x.cols > 0 && x.slices > 0 && n <= x.rows
  {
    if n == 0 then 0.0 else ColumnDot(w, j, x, n - 1) + w.At(n - 1, j, 0) * x.At(n - 1, 0, 0)
  }

  /** w(i, 0) d(0) + ... + w(i, n-1) d(n-1): entry i of w d over the
      first n columns. */
  function RowDot(w: Cube<real>, i: nat, d: Cube<real>, n: nat): real
    requires IsMatrix(w) && i < w.rows && n <= w.cols && d.Valid() && d.cols > 0 && d.slices > 0 && n <= d.rows
  {
    if n == 0 then 0.0 else RowDot(w, i, d, n - 1) + w.At(i, n - 1, 0) * d.At(n - 1, 0, 0)
  }

  /** x(0) y(0) + ... + x(n-1) y(n-1). */
  function Inner(x: Cube<real>, y: Cube<real>, n: nat): real
    requires x.Valid() && y.Valid() && x.cols > 0 && x.slices > 0 && y.cols > 0 && y.slices > 0
    requires n <= x.rows && n <= y.rows
  {
    if n == 0 then 0.0 else Inner(x, y, n - 1) + x.At(n - 1, 0, 0) * y.At(n - 1, 0, 0)
  }

  /** `w.slice(0).t() * x`: a column with one entry per column of w. */
  function TransposeTimes(w: Cube<real>, x: Cube<real>): (y: Cube<real>)
    requires IsMatrix(w) && IsVector(x, w.rows)
    ensures IsVector(y, w.cols)
    ensures forall j: nat :: j < w.cols ==> y.At(j, 0, 0) == ColumnDot(w, j, x, w.rows)
  {
    Tabulate(w.cols, 1, 1, (j: nat, c: nat, s: nat) requires j < w.cols => ColumnDot(w, j, x, w.rows))
  }

  /** `w.slice(0) * d`: a column with one entry per row of w. */
  function Times(w: Cube<real>, d: Cube<real>): (y: Cube<real>)
    requires IsMatrix(w) && IsVector(d, w.cols)
    ensures IsVector(y, w.rows)
    ensures forall i: nat :: i < w.rows ==> y.At(i, 0, 0) == RowDot(w, i, d, w.cols)
  {
    Tabulate(w.rows, 1, 1, (i: nat, c: nat, s: nat) requires i < w.rows => RowDot(w, i, d, w.cols))
  }

  /** `x * d.t()`: the |x| x |d| matrix of products, in one slice. */
  function Outer(x: Cube<real>, d: Cube<real>): (g: Cube<real>)
    requires x.Valid() && x.IsColumn() && d.Valid() && d.IsColumn()
    ensures g.Valid() && g.Shape() == (x.rows, d.rows, 1)
    ensures forall i: nat, j: nat :: i < x.rows && j < d.rows ==> g.At(i, j, 0) == x.At(i, 0, 0) * d.At(j, 0, 0)
  {
    Tabulate(x.rows, d.rows, 1, (i: nat, j: nat, s: nat) requires i < x.rows && j < d.rows => x.At(i, 0, 0) * d.At(j, 0, 0))
  }

  /** `arma::square`: every element squared. */
  function Squared(x: Cube<real>): (y: Cube<real>)
    requires x.Valid()
    ensures y.Valid() && y.Shape() == x.Shape()
    ensures forall r: nat, c: nat, s: nat :: x.InBounds(r, c, s) ==> y.At(r, c, s) == x.At(r, c, s) * x.At(r, c, s)
  {
    Schur(x, x)
  }

  /** The fully connected receptive field `w.slice(0).t() * x + b.col(0)`. */
  function Affine(w: Cube<real>, x: Cube<real>, b: Cube<real>): (y: Cube<real>)
    requires IsMatrix(w) && IsVector(x, w.rows) && IsVector(b, w.cols)
    ensures IsVector(y, w.cols)
    ensures forall j: nat :: j < w.cols ==> y.At(j, 0, 0) == ColumnDot(w, j, x, w.rows) + b.At(j, 0, 0)
  {
    Add(TransposeTimes(w, x), b)
  }

  // The transposition identity <w'x, d> = <x, w d>, by a double induction
  // over the two partial sums below.

  /** Sum over j < cols of (w' x restricted to the first rows rows)(j) d(j). */
  function ForwardPairing(w: Cube<real>, x: Cube<real>, d: Cube<real>, cols: nat, rows: nat): real
    requires IsMatrix(w) && IsVector(x, w.rows) && IsVector(d, w.cols) && cols <= w.cols && rows <= w.rows
  {
    if cols == 0 then 0.0
    else ForwardPairing(w, x, d, cols - 1, rows) + ColumnDot(w, cols - 1, x, rows) * d.At(cols - 1, 0, 0)
  }

  /** Sum over i < rows of x(i) (w d restricted to the first cols columns)(i). */
  function BackwardPairing(w: Cube<real>, x: Cube<real>, d: Cube<real>, rows: nat, cols: nat): real
    requires IsMatrix(w) && IsVector(x, w.rows) && IsVector(d, w.cols) && cols <= w.cols && rows <= w.rows
  {
    if rows == 0 then 0.0
    else BackwardPairing(w, x, d, rows - 1, cols) + x.At(rows - 1, 0, 0) * RowDot(w, rows - 1, d, cols)
  }

  lemma {:induction false} ForwardPairingNoRows(w: Cube<real>, x: Cube<real>, d: Cube<real>, cols: nat)
    requires IsMatrix(w) && IsVector(x, w.rows) && IsVector(d, w.cols) && cols <= w.cols
    ensures ForwardPairing(w, x, d, cols, 0) == 0.0
  {
    if cols > 0 {
      ForwardPairingNoRows(w, x, d, cols - 1);
    }
  }

  /** Adding row `rows` of w adds x(rows) times that row's product with d. */
  lemma {:induction false} ForwardPairingNextRow(w: Cube<real>, x: Cube<real>, d: Cube<real>, cols: nat, rows: nat)
    requires IsMatrix(w) && IsVector(x, w.rows) && IsVector(d, w.cols) && cols <= w.cols && rows < w.rows
    ensures ForwardPairing(w, x, d, cols, rows + 1) == ForwardPairing(w, x, d, cols, rows) + x.At(rows, 0, 0) * RowDot(w, rows, d, cols)
  {
    if cols > 0 {
      ForwardPairingNextRow(w, x, d, cols - 1, rows);
      var a := ColumnDot(w, cols - 1, x, rows);
      var e := w.At(rows, cols - 1, 0);
      var xi := x.At(rows, 0, 0);
      var dj := d.At(cols - 1, 0, 0);
      assert (a + e * xi) * dj == a * dj + xi * (e * dj);
    }
  }

  lemma {:induction false} PairingsAgree(w: Cube<real>, x: Cube<real>, d: Cube<real>, rows: nat)
    requires IsMatrix(w) && IsVector(x, w.rows) && IsVector(d, w.cols) && rows <= w.rows
    ensures ForwardPairing(w, x, d, w.cols, rows) == BackwardPairing(w, x, d, rows, w.cols)
  {
    if rows == 0 {
      ForwardPairingNoRows(w, x, d, w.cols);
    } else {
      PairingsAgree(w, x, d, rows - 1);
      ForwardPairingNextRow(w, x, d, w.cols, rows - 1);
    }
  }

  lemma {:induction false} InnerForward(w: Cube<real>, x: Cube<real>, d: Cube<real>, cols: nat)
    requires IsMatrix(w) && IsVector(x, w.rows) && IsVector(d, w.cols) && cols <= w.cols
    ensures Inner(TransposeTimes(w, x), d, cols) == ForwardPairing(w, x, d, cols, w.rows)
  {
    InnerOfColumnDots(TransposeTimes(w, x), w, x, d, cols);
  }

  /** The same for any column whose entries are the column dots of w and x. */
  lemma {:induction false} InnerOfColumnDots(y: Cube<real>, w: Cube<real>, x: Cube<real>, d: Cube<real>, cols: nat)
    requires IsMatrix(w) && IsVector(x, w.rows) && IsVector(d, w.cols) && cols <= w.cols && IsVector(y, w.cols)
    requires forall j: nat :: j < w.cols ==> y.At(j, 0, 0) == ColumnDot(w, j, x, w.rows)
    ensures Inner(y, d, cols) == ForwardPairing(w, x, d, cols, w.rows)
  {
    if cols > 0 {
      InnerOfColumnDots(y, w, x, d, cols - 1);
    }
  }

  lemma {:induction false} InnerBackward(w: Cube<real>, x: Cube<real>, d: Cube<real>, rows: nat)
    requires IsMatrix(w) && IsVector(x, w.rows) && IsVector(d, w.cols) && rows <= w.rows
    ensures Inner(x, Times(w, d), rows) == BackwardPairing(w, x, d, rows, w.cols)
  {
    InnerOfRowDots(Times(w, d), w, x, d, rows);
  }

  /** The same for any column whose entries are the row dots of w and d. */
  lemma {:induction false} InnerOfRowDots(y: Cube<real>, w: Cube<real>, x: Cube<real>, d: Cube<real>, rows: nat)
    requires IsMatrix(w) && IsVector(x, w.rows) && IsVector(d, w.cols) && rows <= w.rows && IsVector(y, w.rows)
    requires forall i: nat :: i < w.rows ==> y.At(i, 0, 0) == RowDot(w, i, d, w.cols)
    ensures Inner(x, y, rows) == BackwardPairing(w, x, d, rows, w.cols)
  {
    if rows > 0 {
      InnerOfRowDots(y, w, x, d, rows - 1);
    }
  }

  /** The error a fully connected or softmax layer passes down, w d, is the
      transpose of its forward map: <w' x, d> = <x, w d> for every x and d. */
  lemma Transposition(w: Cube<real>, x: Cube<real>, d: Cube<real>)
    requires IsMatrix(w) && IsVector(x, w.rows) && IsVector(d, w.cols)
    ensures Inner(TransposeTimes(w, x), d, w.cols) == Inner(x, Times(w, d), w.rows)
  {
    InnerForward(w, x, d, w.cols);
    InnerBackward(w, x, d, w.rows);
    PairingsAgree(w, x, d, w.rows);
  }

  /** Sum over i < rows of g(i, j) v(i, j). */
  function ColumnPairing(g: Cube<real>, v: Cube<real>, j: nat, rows: nat): real
    requires IsMatrix(g) && IsMatrix(v) && j < g.cols && j < v.cols && rows <= g.rows && rows <= v.rows
  {
    if rows == 0 then 0.0 else ColumnPairing(g, v, j, rows - 1) + g.At(rows - 1, j, 0) * v.At(rows - 1, j, 0)
  }

  /** The Frobenius product of slice 0 of g and v over the first cols columns. */
  function Frobenius(g: Cube<real>, v: Cube<real>, cols: nat): real
    requires IsMatrix(g) && IsMatrix(v) && g.rows == v.rows && cols <= g.cols && cols <= v.cols
  {
    if cols == 0 then 0.0 else Frobenius(g, v, cols - 1) + ColumnPairing(g, v, cols - 1, g.rows)
  }

  /** g holds the outer product of x and d in slice 0. */
  predicate OuterOf(g: Cube<real>, x: Cube<real>, d: Cube<real>)
    requires x.Valid() && x.IsColumn() && d.Valid() && d.IsColumn()
  {
    && IsMatrix(g) && g.rows == x.rows && g.cols == d.rows
    && forall i: nat, j: nat :: i < x.rows && j < d.rows ==> g.At(i, j, 0) == x.At(i, 0, 0) * d.At(j, 0, 0)
  }

  lemma {:induction false} ColumnPairingOuter(g: Cube<real>, x: Cube<real>, d: Cube<real>, v: Cube<real>, j: nat, rows: nat)
    requires x.Valid() && x.IsColumn() && IsVector(d, v.cols) && IsMatrix(v) && v.rows == x.rows
    requires OuterOf(g, x, d) && j < d.rows && rows <= x.rows
    ensures ColumnPairing(g, v, j, rows) == ColumnDot(v, j, x, rows) * d.At(j, 0, 0)
  {
    if rows > 0 {
      ColumnPairingOuter(g, x, d, v, j, rows - 1);
      var a := ColumnDot(v, j, x, rows - 1);
      var xi := x.At(rows - 1, 0, 0);
      var dj := d.At(j, 0, 0);
      var e := v.At(rows - 1, j, 0);
      assert g.At(rows - 1, j, 0) == xi * dj;
      assert a * dj + (xi * dj) * e == (a + e * xi) * dj;
    }
  }

  lemma {:induction false} FrobeniusOuter(g: Cube<real>, x: Cube<real>, d: Cube<real>, v: Cube<real>, cols: nat)
    requires x.Valid() && x.IsColumn() && IsVector(d, v.cols) && IsMatrix(v) && v.rows == x.rows
    requires OuterOf(g, x, d) && cols <= v.cols
    ensures Frobenius(g, v, cols) == ForwardPairing(v, x, d, cols, v.rows)
  {
    if cols > 0 {
      FrobeniusOuter(g, x, d, v, cols - 1);
      ColumnPairingOuter(g, x, d, v, cols - 1, x.rows);
    }
  }

  /** The weight gradient x d' of `Backward` is the gradient of the pairing
      <w' x, d> in w: its Frobenius product with any direction v is
      <v' x, d>. */
  lemma OuterIsGradient(x: Cube<real>, d: Cube<real>, v: Cube<real>)
    requires x.Valid() && x.IsColumn() && IsVector(d, v.cols) && IsMatrix(v) && v.rows == x.rows
    ensures Frobenius(Outer(x, d), v, v.cols) == Inner(TransposeTimes(v, x), d, v.cols)
  {
    FrobeniusOuter(Outer(x, d), x, d, v, v.cols);
    InnerForward(v, x, d, v.cols);
  }

  // The second-order variants keep curvature estimates non-negative.

  lemma ProductSelfNonNegative(x: real, y: real)
    requires x == y
    ensures x * y >= 0.0
  {
    if x > 0.0 { } else { }
  }

  lemma ProductNonNegative(p: real, q: real)
    requires p >= 0.0 && q >= 0.0
    ensures p * q >= 0.0
  {
  }

  lemma SumNonNegative(p: real, q: real)
    requires p >= 0.0 && q >= 0.0
    ensures p + q >= 0.0
  {
  }

  lemma {:induction false} SquaredRowDotNonNegative(w: Cube<real>, i: nat, d: Cube<real>, n: nat)
    requires IsMatrix(w) && i < w.rows && IsVector(d, w.cols) && n <= w.cols
    requires forall j: nat :: j < w.cols ==> d.At(j, 0, 0) >= 0.0
    ensures RowDot(Squared(w), i, d, n) >= 0.0
  {
    if n > 0 {
      SquaredRowDotNonNegative(w, i, d, n - 1);
      var e := w.At(i, n - 1, 0);
      ProductSelfNonNegative(e, e);
      ProductNonNegative(e * e, d.At(n - 1, 0, 0));
      SumNonNegative(RowDot(Squared(w), i, d, n - 1), e * e * d.At(n - 1, 0, 0));
    }
  }

  /** `square(w) * d`, the error `Backward2nd` passes down, is non-negative
      wherever the incoming second-order error is. */
  lemma SquaredPropagationNonNegative(w: Cube<real>, d: Cube<real>)
    requires IsMatrix(w) && IsVector(d, w.cols)
    requires forall j: nat :: j < w.cols ==> d.At(j, 0, 0) >= 0.0
    ensures forall i: nat :: i < w.rows ==> Times(Squared(w), d).At(i, 0, 0) >= 0.0
  {
    forall i: nat | i < w.rows ensures Times(Squared(w), d).At(i, 0, 0) >= 0.0 {
      SquaredRowDotNonNegative(w, i, d, w.cols);
    }
  }

  /** `square(x) * d.t()`, the weight term of `Backward2nd`, is
      non-negative wherever d is. */
  lemma SquaredOuterNonNegative(x: Cube<real>, d: Cube<real>)
    requires x.Valid() && x.IsColumn() && d.Valid() && d.IsColumn()
    requires forall j: nat :: j < d.rows ==> d.At(j, 0, 0) >= 0.0
    ensures forall i: nat, j: nat :: i < x.rows && j < d.rows ==> Outer(Squared(x), d).At(i, j, 0) >= 0.0
  {
    forall i: nat, j: nat | i < x.rows && j < d.rows ensures Outer(Squared(x), d).At(i, j, 0) >= 0.0 {
      var e := x.At(i, 0, 0);
      ProductSelfNonNegative(e, e);
      ProductNonNegative(e * e, d.At(j, 0, 0));
    }
  }

  // The softmax normalisation of `SoftMaxLayer::ComputeOutput`.

  /** What the proofs assume of `std::exp`: it is positive ... */
  ghost predicate ExpPositive(exp: real -> real) {
    forall v :: exp(v) > 0.0
  }

  /** ... and monotone. */
  ghost predicate ExpMonotone(exp: real -> real) {
    forall a, b :: a <= b ==> exp(a) <= exp(b)
  }

  /** The largest of the first n entries of column x (`max()`; Armadillo
      refuses an empty column). */
  function MaxOf(x: Cube<real>, n: nat): (m: real)
    requires x.Valid() && x.cols > 0 && x.slices > 0 && 0 < n <= x.rows
    ensures forall i: nat :: i < n ==> x.At(i, 0, 0) <= m
  {
    if n == 1 then x.At(0, 0, 0)
    else
      var m := MaxOf(x, n - 1);
      if m < x.At(n - 1, 0, 0) then x.At(n - 1, 0, 0) else m
  }

  /** The maximum is one of the entries, so the largest softmax exponent
      argument is exactly zero. */
  lemma {:induction false} MaxOfAttained(x: Cube<real>, n: nat) returns (i: nat)
    requires x.Valid() && x.cols > 0 && x.slices > 0 && 0 < n <= x.rows
    ensures i < n && x.At(i, 0, 0) == MaxOf(x, n)
  {
    if n == 1 {
      i := 0;
    } else if MaxOf(x, n - 1) < x.At(n - 1, 0, 0) {
      i := n - 1;
    } else {
      i := MaxOfAttained(x, n - 1);
    }
  }

  /** exp(x(0) - m) + ... + exp(x(n-1) - m): the softmax denominator. */
  function ExpSum(exp: real -> real, x: Cube<real>, m: real, n: nat): real
    requires x.Valid() && x.cols > 0 && x.slices > 0 && n <= x.rows
  {
    if n == 0 then 0.0 else ExpSum(exp, x, m, n - 1) + exp(x.At(n - 1, 0, 0) - m)
  }

  /** x(0) + ... + x(n-1). */
  function Total(x: Cube<real>, n: nat): real
    requires x.Valid() && x.cols > 0 && x.slices > 0 && n <= x.rows
  {
    if n == 0 then 0.0 else Total(x, n - 1) + x.At(n - 1, 0, 0)
  }

  /** The denominator of a non-empty prefix is positive. */
  lemma {:induction false} ExpSumPositive(exp: real -> real, x: Cube<real>, m: real, n: nat)
    requires ExpPositive(exp) && x.Valid() && x.cols > 0 && x.slices > 0 && 0 < n <= x.rows
    ensures ExpSum(exp, x, m, n) > 0.0
  {
    if n > 1 {
      ExpSumPositive(exp, x, m, n - 1);
    }
    assert exp(x.At(n - 1, 0, 0) - m) > 0.0;
  }

  /** Each term of the denominator is bounded by it. */
  lemma {:induction false} ExpSumTerm(exp: real -> real, x: Cube<real>, m: real, n: nat, i: nat)
    requires ExpPositive(exp) && x.Valid() && x.cols > 0 && x.slices > 0 && i < n <= x.rows
    ensures exp(x.At(i, 0, 0) - m) <= ExpSum(exp, x, m, n)
  {
    if i < n - 1 {
      ExpSumTerm(exp, x, m, n - 1, i);
      assert exp(x.At(n - 1, 0, 0) - m) > 0.0;
    } else if n > 1 {
      ExpSumPositive(exp, x, m, n - 1);
    }
  }

  /** The denominator of a non-empty column is positive. */
  lemma DenominatorPositive(exp: real -> real, x: Cube<real>)
    requires ExpPositive(exp) && IsVector(x, x.rows) && x.rows > 0
    ensures ExpSum(exp, x, MaxOf(x, x.rows), x.rows) > 0.0
  {
    ExpSumPositive(exp, x, MaxOf(x, x.rows), x.rows);
  }

  /** y holds the softmax of the non-empty column x: entry r is
      exp(x(r) - m) divided by the denominator, m the maximum of x. */
  ghost predicate SoftmaxOf(exp: real -> real, x: Cube<real>, y: Cube<real>)
    requires ExpPositive(exp) && IsVector(x, x.rows) && x.rows > 0
  {
    DenominatorPositive(exp, x);
    && IsVector(y, x.rows)
    && forall r: nat :: r < x.rows ==>
      y.At(r, 0, 0) == exp(x.At(r, 0, 0) - MaxOf(x, x.rows)) / ExpSum(exp, x, MaxOf(x, x.rows), x.rows)
  }

  lemma DivideAtMostOne(a: real, b: real)
    requires 0.0 < a <= b
    ensures 0.0 < a / b <= 1.0
  {
    assert (a / b) * b == a;
  }

  /** Every softmax output lies in (0, 1]. */
  lemma SoftmaxRange(exp: real -> real, x: Cube<real>, y: Cube<real>, r: nat)
    requires ExpPositive(exp) && IsVector(x, x.rows) && r < x.rows && SoftmaxOf(exp, x, y)
    ensures 0.0 < y.At(r, 0, 0) <= 1.0
  {
    var m := MaxOf(x, x.rows);
    ExpSumTerm(exp, x, m, x.rows, r);
    DivideAtMostOne(exp(x.At(r, 0, 0) - m), ExpSum(exp, x, m, x.rows));
  }

  lemma {:induction false} TotalDivided(exp: real -> real, x: Cube<real>, y: Cube<real>, m: real, den: real, n: nat)
    requires x.Valid() && x.cols > 0 && x.slices > 0 && IsVector(y, x.rows) && n <= x.rows && den != 0.0
    requires forall r: nat :: r < x.rows ==> y.At(r, 0, 0) == exp(x.At(r, 0, 0) - m) / den
    ensures Total(y, n) == ExpSum(exp, x, m, n) / den
  {
    if n > 0 {
      TotalDivided(exp, x, y, m, den, n - 1);
      var a := ExpSum(exp, x, m, n - 1);
      var e := exp(x.At(n - 1, 0, 0) - m);
      assert a / den + e / den == (a + e) / den;
    }
  }

  /** The softmax outputs sum to one. */
  lemma SoftmaxSumsToOne(exp: real -> real, x: Cube<real>, y: Cube<real>)
    requires ExpPositive(exp) && IsVector(x, x.rows) && x.rows > 0 && SoftmaxOf(exp, x, y)
    ensures Total(y, x.rows) == 1.0
  {
    var m := MaxOf(x, x.rows);
    DenominatorPositive(exp, x);
    var den := ExpSum(exp, x, m, x.rows);
    TotalDivided(exp, x, y, m, den, x.rows);
    DivideSelf(den);
  }

  lemma DivideSelf(d: real)
    requires d != 0.0
    ensures d / d == 1.0
  {
  }

  lemma DivideMonotone(a: real, b: real, d: real)
    requires a <= b && d > 0.0
    ensures a / d <= b / d
  {
    assert b / d - a / d == (b - a) / d;
  }

  /** Softmax keeps the order of its inputs: a larger receptive field entry
      never gets a smaller probability, so the arg-max is preserved. */
  lemma SoftmaxMonotone(exp: real -> real, x: Cube<real>, y: Cube<real>, i: nat, j: nat)
    requires ExpPositive(exp) && ExpMonotone(exp) && IsVector(x, x.rows) && i < x.rows && j < x.rows
    requires SoftmaxOf(exp, x, y) && x.At(i, 0, 0) <= x.At(j, 0, 0)
    ensures y.At(i, 0, 0) <= y.At(j, 0, 0)
  {
    var m := MaxOf(x, x.rows);
    DenominatorPositive(exp, x);
    DivideMonotone(exp(x.At(i, 0, 0) - m), exp(x.At(j, 0, 0) - m), ExpSum(exp, x, m, x.rows));
  }

  /** `ComputeOutput`: output(r) = exp(rf(r) - max) / denominator for every
      row of rf; the rest of the output buffer and rf itself are untouched,
      so an output buffer of rf's shape ends up holding the softmax of rf. */
  method ComputeOutput(exp: real -> real, rf: Cube<real>, output: Cube<real>) returns (out: Cube<real>)
    requires ExpPositive(exp) && IsVector(rf, rf.rows) && rf.rows > 0
    requires output.Valid() && rf.rows <= output.rows && output.cols > 0 && output.slices > 0
    ensures out.Valid() && out.Shape() == output.Shape()
    ensures ExpSum(exp, rf, MaxOf(rf, rf.rows), rf.rows) > 0.0
    ensures forall r: nat, c: nat, s: nat :: output.InBounds(r, c, s) ==>
      out.At(r, c, s) ==
        if r < rf.rows && c == 0 && s == 0
        then exp(rf.At(r, 0, 0) - MaxOf(rf, rf.rows)) / ExpSum(exp, rf, MaxOf(rf, rf.rows), rf.rows)
        else output.At(r, c, s)
    ensures output.Shape() == rf.Shape() ==> SoftmaxOf(exp, rf, out)
  {
    var maxVal := MaxOf(rf, rf.rows);
    DenominatorPositive(exp, rf);
    var denominator := ExpSum(exp, rf, maxVal, rf.rows);
    out := output;
    for r := 0 to rf.rows
      invariant out.Valid() && out.Shape() == output.Shape()
      invariant forall r': nat, c: nat, s: nat :: output.InBounds(r', c, s) ==>
        out.At(r', c, s) ==
          if r' < r && c == 0 && s == 0 then exp(rf.At(r', 0, 0) - maxVal) / denominator else output.At(r', c, s)
    {
      var numerator := exp(rf.At(r, 0, 0) - maxVal);
      out := out.Set(r, 0, 0, numerator / denominator);
    }
  }
}
