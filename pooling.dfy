/** Max pooling: every window of the input keeps its maximum and flags
    where it came from; backward, each window's error goes back to the
    flagged position and every other position receives zero. The window
    arg-max is Armadillo's `max(row, col)`: the first maximum in
    column-major order. */
module Pooling {
  import opened Cubes
  import opened Convolution

  // ---------------------------------------------------------------------
  // The first maximum of a window

  /** The row, among rows r0 .. r0 + m - 1 of column c of slice d, of the
      first maximum. */
  function ColumnArgMax(x: Cube<real>, r0: nat, m: nat, c: nat, d: nat): (r: nat)
    requires x.Valid() && 0 < m && r0 + m <= x.rows && c < x.cols && d < x.slices
    ensures r0 <= r < r0 + m
    ensures forall i: nat :: r0 <= i < r0 + m ==> x.At(i, c, d) <= x.At(r, c, d)
    ensures forall i: nat :: r0 <= i < r ==> x.At(i, c, d) < x.At(r, c, d)
    decreases m
  {
    if m == 1 then r0
    else
      var prev := ColumnArgMax(x, r0, m - 1, c, d);
      if x.At(r0 + m - 1, c, d) > x.At(prev, c, d) then r0 + m - 1 else prev
  }

  /** (i, j) comes strictly before p in column-major order. */
  predicate Earlier(i: nat, j: nat, p: (nat, nat)) {
    j < p.1 || (j == p.1 && i < p.0)
  }

  /** p is the first maximum of the kR x kC window at (r0, c0) of slice d:
      inside it, no element exceeds it, and every element before it in
      column-major order is strictly smaller. */
  ghost predicate FirstMax(x: Cube<real>, r0: nat, kR: nat, c0: nat, kC: nat, d: nat, p: (nat, nat))
    requires x.Valid() && r0 + kR <= x.rows && c0 + kC <= x.cols && d < x.slices
  {
    && r0 <= p.0 < r0 + kR && c0 <= p.1 < c0 + kC
    && (forall i: nat, j: nat :: r0 <= i < r0 + kR && c0 <= j < c0 + kC ==> x.At(i, j, d) <= x.At(p.0, p.1, d))
    && (forall i: nat, j: nat :: r0 <= i < r0 + kR && c0 <= j < c0 + kC && Earlier(i, j, p) ==> x.At(i, j, d) < x.At(p.0, p.1, d))
  }

  /** The position of the first maximum of the window rows r0 .. r0 + kR - 1,
      columns c0 .. c0 + n - 1 of slice d. */
  function WindowArgMax(x: Cube<real>, r0: nat, kR: nat, c0: nat, n: nat, d: nat): (p: (nat, nat))
    requires x.Valid() && 0 < kR && 0 < n && r0 + kR <= x.rows && c0 + n <= x.cols && d < x.slices
    ensures FirstMax(x, r0, kR, c0, n, d, p)
    decreases n
  {
    if n == 1 then (ColumnArgMax(x, r0, kR, c0, d), c0)
    else
      var prev := WindowArgMax(x, r0, kR, c0, n - 1, d);
      var r := ColumnArgMax(x, r0, kR, c0 + n - 1, d);
      if x.At(r, c0 + n - 1, d) > x.At(prev.0, prev.1, d) then (r, c0 + n - 1) else prev
  }

  /** A window has one first maximum: the arg-max is determined. */
  lemma FirstMaxUnique(x: Cube<real>, r0: nat, kR: nat, c0: nat, kC: nat, d: nat, p: (nat, nat), q: (nat, nat))
    requires x.Valid() && r0 + kR <= x.rows && c0 + kC <= x.cols && d < x.slices
    requires FirstMax(x, r0, kR, c0, kC, d, p) && FirstMax(x, r0, kR, c0, kC, d, q)
    ensures p == q
  {
    assert x.At(p.0, p.1, d) <= x.At(q.0, q.1, d) && x.At(q.0, q.1, d) <= x.At(p.0, p.1, d);
  }

  // ---------------------------------------------------------------------
  // Pooling geometry

  /** What the layer needs of its input extents: a non-empty kernel no
      larger than the stride (so the stride loops visit exactly the output
      positions and windows do not overlap), no larger than the input, and
      the asserted divisibility of the uncovered extents. */
  predicate Fits(rows: nat, cols: nat, kR: nat, kC: nat, stride: nat) {
    && 0 < kR <= stride && 0 < kC <= stride && kR <= rows && kC <= cols
    && (rows - kR) % stride == 0 && (cols - kC) % stride == 0
  }

  /** The stride loop `for (t = 0; t < n; t += stride)` runs exactly
      OutputExtent times, and every window it opens lies inside. */
  lemma StrideSteps(n: nat, k: nat, stride: nat, t: nat)
    requires 0 < k <= stride && k <= n && (n - k) % stride == 0
    ensures t * stride < n <==> t < OutputExtent(n, k, stride)
    ensures t < OutputExtent(n, k, stride) ==> t * stride + k <= n
  {
    var e := OutputExtent(n, k, stride);
    OutputExtentLaw(n, k, stride);
    if t < e {
      MulMonotone(t, e - 1, stride);
    } else {
      MulMonotone(e, t, stride);
      assert e * stride == (e - 1) * stride + stride;
    }
  }

  /** One turn of a stride loop: the window it opens is an output
      position inside the input, and the next turn starts a stride on. */
  lemma StrideNext(n: nat, k: nat, stride: nat, t: nat)
    requires 0 < k <= stride && k <= n && (n - k) % stride == 0 && t * stride < n
    ensures t < OutputExtent(n, k, stride) && t * stride + k <= n
    ensures (t + 1) * stride == t * stride + stride
  {
    StrideSteps(n, k, stride, t);
  }

  /** Windows of extent k <= stride do not overlap: a coordinate lies in
      at most one of them. */
  lemma Owner(t: nat, i: nat, i': nat, stride: nat, k: nat)
    requires k <= stride
    requires i * stride <= t < i * stride + k && i' * stride <= t < i' * stride + k
    ensures i == i'
  {
    FloorOf(t, i, stride);
    FloorOf(t, i', stride);
  }

  /** The stride step that holds t is t / stride. */
  lemma FloorOf(t: nat, i: nat, stride: nat)
    requires i * stride <= t < i * stride + stride
    ensures i == t / stride
  {
    DivModUnique(i, t - i * stride, t / stride, t % stride, stride);
  }

  /** The absolute position the maximum of output window (i, j) of slice d
      comes from. */
  function Source(x: Cube<real>, kR: nat, kC: nat, stride: nat, i: nat, j: nat, d: nat): (p: (nat, nat))
    requires x.Valid() && Fits(x.rows, x.cols, kR, kC, stride)
    requires i < OutputExtent(x.rows, kR, stride) && j < OutputExtent(x.cols, kC, stride) && d < x.slices
    ensures i * stride + kR <= x.rows && j * stride + kC <= x.cols
    ensures FirstMax(x, i * stride, kR, j * stride, kC, d, p)
    ensures i * stride <= p.0 < i * stride + kR && j * stride <= p.1 < j * stride + kC
    ensures x.InBounds(p.0, p.1, d)
  {
    StrideSteps(x.rows, kR, stride, i);
    StrideSteps(x.cols, kC, stride, j);
    WindowArgMax(x, i * stride, kR, j * stride, kC, d)
  }

  /** The pooled value of output window (i, j) of slice d: no element of
      the window exceeds it. */
  function PoolMax(x: Cube<real>, kR: nat, kC: nat, stride: nat, i: nat, j: nat, d: nat): (v: real)
    requires x.Valid() && Fits(x.rows, x.cols, kR, kC, stride)
    requires i < OutputExtent(x.rows, kR, stride) && j < OutputExtent(x.cols, kC, stride) && d < x.slices
    ensures i * stride + kR <= x.rows && j * stride + kC <= x.cols
    ensures forall a: nat, b: nat :: i * stride <= a < i * stride + kR && j * stride <= b < j * stride + kC ==>
      x.At(a, b, d) <= v
  {
    var p := Source(x, kR, kC, stride, i, j, d);
    x.At(p.0, p.1, d)
  }

  /** Two output windows of one slice never share a source. */
  lemma SourceDistinct(x: Cube<real>, kR: nat, kC: nat, stride: nat, i: nat, j: nat, i': nat, j': nat, d: nat)
    requires x.Valid() && Fits(x.rows, x.cols, kR, kC, stride) && d < x.slices
    requires i < OutputExtent(x.rows, kR, stride) && j < OutputExtent(x.cols, kC, stride)
    requires i' < OutputExtent(x.rows, kR, stride) && j' < OutputExtent(x.cols, kC, stride)
    requires Source(x, kR, kC, stride, i, j, d) == Source(x, kR, kC, stride, i', j', d)
    ensures i == i' && j == j'
  {
    var p := Source(x, kR, kC, stride, i, j, d);
    Owner(p.0, i, i', stride, kR);
    Owner(p.1, j, j', stride, kC);
  }

  // ---------------------------------------------------------------------
  // Loop order

  /** Output window (i, j) of slice d' is visited before the loops reach
      (row, col) of slice d: slices outermost, then columns, then rows. */
  predicate Before(i: nat, j: nat, d': nat, row: nat, col: nat, d: nat) {
    d' < d || (d' == d && (j < col || (j == col && i < row)))
  }

  /** (r, c) of slice d' is the source of some window visited before
      (row, col, d). */
  ghost predicate IsSourceBefore(x: Cube<real>, kR: nat, kC: nat, stride: nat, r: nat, c: nat, d': nat, row: nat, col: nat, d: nat)
    requires x.Valid() && Fits(x.rows, x.cols, kR, kC, stride) && d' < x.slices
  {
    exists i: nat, j: nat :: i < OutputExtent(x.rows, kR, stride) && j < OutputExtent(x.cols, kC, stride) &&
      Before(i, j, d', row, col, d) && Source(x, kR, kC, stride, i, j, d') == (r, c)
  }

  /** (r, c) of slice d is where the maximum of some window comes from. */
  ghost predicate IsSource(x: Cube<real>, kR: nat, kC: nat, stride: nat, r: nat, c: nat, d: nat)
    requires x.Valid() && Fits(x.rows, x.cols, kR, kC, stride) && d < x.slices
  {
    IsSourceBefore(x, kR, kC, stride, r, c, d, 0, 0, x.slices)
  }

  /** Visiting one more window adds exactly its source. */
  lemma SourceStep(x: Cube<real>, kR: nat, kC: nat, stride: nat, r: nat, c: nat, d': nat, row: nat, col: nat, d: nat)
    requires x.Valid() && Fits(x.rows, x.cols, kR, kC, stride) && d' < x.slices && d < x.slices
    requires row < OutputExtent(x.rows, kR, stride) && col < OutputExtent(x.cols, kC, stride)
    ensures IsSourceBefore(x, kR, kC, stride, r, c, d', row + 1, col, d) <==>
      IsSourceBefore(x, kR, kC, stride, r, c, d', row, col, d) ||
      ((r, c) == Source(x, kR, kC, stride, row, col, d) && d' == d)
  {
    if IsSourceBefore(x, kR, kC, stride, r, c, d', row + 1, col, d) {
      SourceStepEarlier(x, kR, kC, stride, r, c, d', row, col, d);
    }
    if (r, c) == Source(x, kR, kC, stride, row, col, d) && d' == d {
      assert Before(row, col, d', row + 1, col, d);
    }
    if IsSourceBefore(x, kR, kC, stride, r, c, d', row, col, d) {
      SourceStepLater(x, kR, kC, stride, r, c, d', row, col, d);
    }
  }

  /** A source found up to one more window was found before it or is
      that window's. */
  lemma SourceStepEarlier(x: Cube<real>, kR: nat, kC: nat, stride: nat, r: nat, c: nat, d': nat, row: nat, col: nat, d: nat)
    requires x.Valid() && Fits(x.rows, x.cols, kR, kC, stride) && d' < x.slices
    requires IsSourceBefore(x, kR, kC, stride, r, c, d', row + 1, col, d)
    ensures IsSourceBefore(x, kR, kC, stride, r, c, d', row, col, d) || ((r, c) == Source(x, kR, kC, stride, row, col, d) && d' == d)
  {
    var i: nat, j: nat :| i < OutputExtent(x.rows, kR, stride) && j < OutputExtent(x.cols, kC, stride) &&
      Before(i, j, d', row + 1, col, d) && Source(x, kR, kC, stride, i, j, d') == (r, c);
    if !(i == row && j == col && d' == d) {
      assert Before(i, j, d', row, col, d);
    }
  }

  /** A source found before a window stays found after it. */
  lemma SourceStepLater(x: Cube<real>, kR: nat, kC: nat, stride: nat, r: nat, c: nat, d': nat, row: nat, col: nat, d: nat)
    requires x.Valid() && Fits(x.rows, x.cols, kR, kC, stride) && d' < x.slices
    requires IsSourceBefore(x, kR, kC, stride, r, c, d', row, col, d)
    ensures IsSourceBefore(x, kR, kC, stride, r, c, d', row + 1, col, d)
  {
    var i: nat, j: nat :| i < OutputExtent(x.rows, kR, stride) && j < OutputExtent(x.cols, kC, stride) &&
      Before(i, j, d', row, col, d) && Source(x, kR, kC, stride, i, j, d') == (r, c);
    assert Before(i, j, d', row + 1, col, d);
  }

  /** Two loop positions that have visited the same windows have the same
      sources. */
  lemma SourceSame(x: Cube<real>, kR: nat, kC: nat, stride: nat, r: nat, c: nat, d': nat, row: nat, col: nat, d: nat, row': nat, col': nat, e: nat)
    requires x.Valid() && Fits(x.rows, x.cols, kR, kC, stride) && d' < x.slices
    requires forall i: nat, j: nat :: i < OutputExtent(x.rows, kR, stride) && j < OutputExtent(x.cols, kC, stride) ==>
      (Before(i, j, d', row, col, d) <==> Before(i, j, d', row', col', e))
    ensures IsSourceBefore(x, kR, kC, stride, r, c, d', row, col, d) <==> IsSourceBefore(x, kR, kC, stride, r, c, d', row', col', e)
  {
    var h, w := OutputExtent(x.rows, kR, stride), OutputExtent(x.cols, kC, stride);
    if IsSourceBefore(x, kR, kC, stride, r, c, d', row, col, d) {
      var i: nat, j: nat :| i < h && j < w && Before(i, j, d', row, col, d) && Source(x, kR, kC, stride, i, j, d') == (r, c);
      assert Before(i, j, d', row', col', e);
    }
    if IsSourceBefore(x, kR, kC, stride, r, c, d', row', col', e) {
      var i: nat, j: nat :| i < h && j < w && Before(i, j, d', row', col', e) && Source(x, kR, kC, stride, i, j, d') == (r, c);
      assert Before(i, j, d', row, col, d);
    }
  }

  // ---------------------------------------------------------------------
  // Forward

  /** The connection map of x: 1 where some window's maximum comes from,
      0 everywhere else. */
  ghost predicate Flags(x: Cube<real>, kR: nat, kC: nat, stride: nat, connect: Cube<real>)
    requires x.Valid() && Fits(x.rows, x.cols, kR, kC, stride)
  {
    && connect.Valid() && connect.Shape() == x.Shape()
    && forall r: nat, c: nat, d: nat :: x.InBounds(r, c, d) ==>
         connect.At(r, c, d) == if IsSource(x, kR, kC, stride, r, c, d) then 1.0 else 0.0
  }

  /** The state of Forward's loops when they reach window (row, col) of
      slice d. */
  ghost predicate ForwardUpTo(x: Cube<real>, kR: nat, kC: nat, stride: nat, rf: Cube<real>, connect: Cube<real>, row: nat, col: nat, d: nat)
    requires x.Valid() && Fits(x.rows, x.cols, kR, kC, stride)
  {
    var h, w := OutputExtent(x.rows, kR, stride), OutputExtent(x.cols, kC, stride);
    && rf.Valid() && rf.Shape() == (h, w, x.slices)
    && connect.Valid() && connect.Shape() == x.Shape()
    && (forall i: nat, j: nat, d': nat :: i < h && j < w && d' < x.slices && Before(i, j, d', row, col, d) ==>
          rf.At(i, j, d') == PoolMax(x, kR, kC, stride, i, j, d'))
    && (forall r: nat, c: nat, d': nat :: x.InBounds(r, c, d') ==>
          connect.At(r, c, d') == if IsSourceBefore(x, kR, kC, stride, r, c, d', row, col, d) then 1.0 else 0.0)
  }

  /** One pass of the innermost loop body keeps ForwardUpTo. */
  lemma ForwardStep(x: Cube<real>, kR: nat, kC: nat, stride: nat, rf: Cube<real>, connect: Cube<real>, row: nat, col: nat, d: nat,
                    rf': Cube<real>, connect': Cube<real>)
    requires x.Valid() && Fits(x.rows, x.cols, kR, kC, stride) && d < x.slices
    requires row < OutputExtent(x.rows, kR, stride) && col < OutputExtent(x.cols, kC, stride)
    requires ForwardUpTo(x, kR, kC, stride, rf, connect, row, col, d)
    requires rf' == rf.Set(row, col, d, PoolMax(x, kR, kC, stride, row, col, d))
    requires connect' == connect.Set(Source(x, kR, kC, stride, row, col, d).0, Source(x, kR, kC, stride, row, col, d).1, d, 1.0)
    ensures ForwardUpTo(x, kR, kC, stride, rf', connect', row + 1, col, d)
  {
    var p := Source(x, kR, kC, stride, row, col, d);
    var h, w := OutputExtent(x.rows, kR, stride), OutputExtent(x.cols, kC, stride);
    forall i: nat, j: nat, d': nat | i < h && j < w && d' < x.slices && Before(i, j, d', row + 1, col, d)
      ensures rf'.At(i, j, d') == PoolMax(x, kR, kC, stride, i, j, d')
    {
      if (i, j, d') != (row, col, d) {
        assert Before(i, j, d', row, col, d);
      }
    }
    RoutedStep(x, kR, kC, stride, connect, row, col, d, connect');
  }

  /** Setting the flag of one more window's source keeps the flag map
      that of the windows visited. */
  lemma RoutedStep(x: Cube<real>, kR: nat, kC: nat, stride: nat, connect: Cube<real>, row: nat, col: nat, d: nat, connect': Cube<real>)
    requires x.Valid() && Fits(x.rows, x.cols, kR, kC, stride) && d < x.slices
    requires row < OutputExtent(x.rows, kR, stride) && col < OutputExtent(x.cols, kC, stride)
    requires connect.Valid() && connect.Shape() == x.Shape()
    requires forall r: nat, c: nat, d': nat :: x.InBounds(r, c, d') ==>
      connect.At(r, c, d') == if IsSourceBefore(x, kR, kC, stride, r, c, d', row, col, d) then 1.0 else 0.0
    requires connect' == connect.Set(Source(x, kR, kC, stride, row, col, d).0, Source(x, kR, kC, stride, row, col, d).1, d, 1.0)
    ensures forall r: nat, c: nat, d': nat :: x.InBounds(r, c, d') ==>
      connect'.At(r, c, d') == if IsSourceBefore(x, kR, kC, stride, r, c, d', row + 1, col, d) then 1.0 else 0.0
  {
    forall r: nat, c: nat, d': nat | x.InBounds(r, c, d')
      ensures connect'.At(r, c, d') == if IsSourceBefore(x, kR, kC, stride, r, c, d', row + 1, col, d) then 1.0 else 0.0
    {
      SourceStep(x, kR, kC, stride, r, c, d', row, col, d);
    }
  }

  /** A finished column of windows moves the loops to the next column. */
  lemma ForwardNextColumn(x: Cube<real>, kR: nat, kC: nat, stride: nat, rf: Cube<real>, connect: Cube<real>, col: nat, d: nat)
    requires x.Valid() && Fits(x.rows, x.cols, kR, kC, stride)
    requires ForwardUpTo(x, kR, kC, stride, rf, connect, OutputExtent(x.rows, kR, stride), col, d)
    ensures ForwardUpTo(x, kR, kC, stride, rf, connect, 0, col + 1, d)
  {
    forall r: nat, c: nat, d': nat | x.InBounds(r, c, d')
      ensures IsSourceBefore(x, kR, kC, stride, r, c, d', OutputExtent(x.rows, kR, stride), col, d) <==>
              IsSourceBefore(x, kR, kC, stride, r, c, d', 0, col + 1, d)
    {
      SourceSame(x, kR, kC, stride, r, c, d', OutputExtent(x.rows, kR, stride), col, d, 0, col + 1, d);
    }
  }

  /** A finished slice moves the loops to the next slice. */
  lemma ForwardNextSlice(x: Cube<real>, kR: nat, kC: nat, stride: nat, rf: Cube<real>, connect: Cube<real>, d: nat)
    requires x.Valid() && Fits(x.rows, x.cols, kR, kC, stride)
    requires ForwardUpTo(x, kR, kC, stride, rf, connect, 0, OutputExtent(x.cols, kC, stride), d)
    ensures ForwardUpTo(x, kR, kC, stride, rf, connect, 0, 0, d + 1)
  {
    forall r: nat, c: nat, d': nat | x.InBounds(r, c, d')
      ensures IsSourceBefore(x, kR, kC, stride, r, c, d', 0, OutputExtent(x.cols, kC, stride), d) <==>
              IsSourceBefore(x, kR, kC, stride, r, c, d', 0, 0, d + 1)
    {
      SourceSame(x, kR, kC, stride, r, c, d', 0, OutputExtent(x.cols, kC, stride), d, 0, 0, d + 1);
    }
  }

  /** The body of the innermost loop of `MaxPoolingLayer::Forward`: the
      window at (r, c) keeps its maximum and flags where it lies. */
  method ForwardWindow(x: Cube<real>, kR: nat, kC: nat, stride: nat, rf: Cube<real>, connect: Cube<real>, outRow: nat, outCol: nat, r: nat, c: nat, d: nat)
    returns (rf': Cube<real>, connect': Cube<real>)
    requires x.Valid() && Fits(x.rows, x.cols, kR, kC, stride) && d < x.slices
    requires outRow < OutputExtent(x.rows, kR, stride) && outCol < OutputExtent(x.cols, kC, stride)
    requires r == outRow * stride && c == outCol * stride
    requires ForwardUpTo(x, kR, kC, stride, rf, connect, outRow, outCol, d)
    ensures ForwardUpTo(x, kR, kC, stride, rf', connect', outRow + 1, outCol, d)
  {
    StrideSteps(x.rows, kR, stride, outRow);
    StrideSteps(x.cols, kC, stride, outCol);
    var p := WindowArgMax(x, r, kR, c, kC, d);
    assert p == Source(x, kR, kC, stride, outRow, outCol, d);
    rf', connect' := rf.Set(outRow, outCol, d, x.At(p.0, p.1, d)), connect.Set(p.0, p.1, d, 1.0);
    ForwardStep(x, kR, kC, stride, rf, connect, outRow, outCol, d, rf', connect');
  }

  /** Before the loops, nothing is pooled and nothing is flagged. */
  lemma ForwardStart(x: Cube<real>, kR: nat, kC: nat, stride: nat)
    requires x.Valid() && Fits(x.rows, x.cols, kR, kC, stride)
    ensures ForwardUpTo(x, kR, kC, stride, Zeros(OutputExtent(x.rows, kR, stride), OutputExtent(x.cols, kC, stride), x.slices),
                        Zeros(x.rows, x.cols, x.slices), 0, 0, 0)
  {
  }

  /** After the last slice, every window is pooled and flagged. */
  lemma ForwardDone(x: Cube<real>, kR: nat, kC: nat, stride: nat, rf: Cube<real>, connect: Cube<real>)
    requires x.Valid() && Fits(x.rows, x.cols, kR, kC, stride)
    requires ForwardUpTo(x, kR, kC, stride, rf, connect, 0, 0, x.slices)
    ensures rf.Valid() && rf.Shape() == (OutputExtent(x.rows, kR, stride), OutputExtent(x.cols, kC, stride), x.slices)
    ensures forall i: nat, j: nat, d: nat :: rf.InBounds(i, j, d) ==> rf.At(i, j, d) == PoolMax(x, kR, kC, stride, i, j, d)
    ensures Flags(x, kR, kC, stride, connect)
  {
    forall i: nat, j: nat, d: nat | rf.InBounds(i, j, d) ensures rf.At(i, j, d) == PoolMax(x, kR, kC, stride, i, j, d) {
      assert Before(i, j, d, 0, 0, x.slices);
    }
  }

  /** One column of output windows, the two inner loops of
      `MaxPoolingLayer::Forward`: r steps down the input by the stride. */
  method ForwardColumn(x: Cube<real>, kR: nat, kC: nat, stride: nat, rf: Cube<real>, connect: Cube<real>, outCol: nat, c: nat, d: nat)
    returns (rf': Cube<real>, connect': Cube<real>)
    requires x.Valid() && Fits(x.rows, x.cols, kR, kC, stride) && d < x.slices
    requires outCol < OutputExtent(x.cols, kC, stride) && c == outCol * stride
    requires ForwardUpTo(x, kR, kC, stride, rf, connect, 0, outCol, d)
    ensures ForwardUpTo(x, kR, kC, stride, rf', connect', 0, outCol + 1, d)
  {
    var h := OutputExtent(x.rows, kR, stride);
    StrideSteps(x.cols, kC, stride, outCol);
    rf', connect' := rf, connect;
    var outRow, r := 0, 0;
    while r < x.rows
      invariant r == outRow * stride && outRow <= h
      invariant ForwardUpTo(x, kR, kC, stride, rf', connect', outRow, outCol, d)
      decreases x.rows - r
    {
      StrideNext(x.rows, kR, stride, outRow);
      rf', connect' := ForwardWindow(x, kR, kC, stride, rf', connect', outRow, outCol, r, c, d);
      outRow, r := outRow + 1, r + stride;
    }
    StrideSteps(x.rows, kR, stride, outRow);
    ForwardNextColumn(x, kR, kC, stride, rf', connect', outCol, d);
  }

  /** One slice, the two outer loops' body of `MaxPoolingLayer::Forward`:
      c steps across the input by the stride. */
  method ForwardSlice(x: Cube<real>, kR: nat, kC: nat, stride: nat, rf: Cube<real>, connect: Cube<real>, d: nat)
    returns (rf': Cube<real>, connect': Cube<real>)
    requires x.Valid() && Fits(x.rows, x.cols, kR, kC, stride) && d < x.slices
    requires ForwardUpTo(x, kR, kC, stride, rf, connect, 0, 0, d)
    ensures ForwardUpTo(x, kR, kC, stride, rf', connect', 0, 0, d + 1)
  {
    var w := OutputExtent(x.cols, kC, stride);
    rf', connect' := rf, connect;
    var outCol, c := 0, 0;
    while c < x.cols
      invariant c == outCol * stride && outCol <= w
      invariant ForwardUpTo(x, kR, kC, stride, rf', connect', 0, outCol, d)
      decreases x.cols - c
    {
      StrideNext(x.cols, kC, stride, outCol);
      rf', connect' := ForwardColumn(x, kR, kC, stride, rf', connect', outCol, c, d);
      outCol, c := outCol + 1, c + stride;
    }
    StrideSteps(x.cols, kC, stride, outCol);
    ForwardNextSlice(x, kR, kC, stride, rf', connect', d);
  }

  /** `MaxPoolingLayer::Forward` without the output aliasing: the
      receptive field holds every window's maximum and the connection map
      flags where each maximum comes from. The loops step through the
      input by the stride, as the layer does. */
  method Forward(x: Cube<real>, kR: nat, kC: nat, stride: nat) returns (rf: Cube<real>, connect: Cube<real>)
    requires x.Valid() && Fits(x.rows, x.cols, kR, kC, stride)
    ensures rf.Valid() && rf.Shape() == (OutputExtent(x.rows, kR, stride), OutputExtent(x.cols, kC, stride), x.slices)
    ensures forall i: nat, j: nat, d: nat :: rf.InBounds(i, j, d) ==> rf.At(i, j, d) == PoolMax(x, kR, kC, stride, i, j, d)
    ensures Flags(x, kR, kC, stride, connect)
  {
    rf := Zeros(OutputExtent(x.rows, kR, stride), OutputExtent(x.cols, kC, stride), x.slices);
    connect := Zeros(x.rows, x.cols, x.slices);
    ForwardStart(x, kR, kC, stride);
    for d := 0 to x.slices
      invariant ForwardUpTo(x, kR, kC, stride, rf, connect, 0, 0, d)
    {
      rf, connect := ForwardSlice(x, kR, kC, stride, rf, connect, d);
    }
    ForwardDone(x, kR, kC, stride, rf, connect);
  }

  /** Windows do not overlap, so a source inside window (i, j) is that
      window's own. */
  lemma SourceInWindow(x: Cube<real>, kR: nat, kC: nat, stride: nat, i: nat, j: nat, d: nat, r: nat, c: nat)
    requires x.Valid() && Fits(x.rows, x.cols, kR, kC, stride) && d < x.slices
    requires i < OutputExtent(x.rows, kR, stride) && j < OutputExtent(x.cols, kC, stride)
    requires i * stride <= r < i * stride + kR && j * stride <= c < j * stride + kC
    requires IsSource(x, kR, kC, stride, r, c, d)
    ensures (r, c) == Source(x, kR, kC, stride, i, j, d)
  {
    var h, w := OutputExtent(x.rows, kR, stride), OutputExtent(x.cols, kC, stride);
    var i': nat, j': nat :| i' < h && j' < w && Before(i', j', d, 0, 0, x.slices) && Source(x, kR, kC, stride, i', j', d) == (r, c);
    StrideSteps(x.rows, kR, stride, i');
    StrideSteps(x.cols, kC, stride, j');
    Owner(r, i, i', stride, kR);
    Owner(c, j, j', stride, kC);
  }

  /** Every window carries exactly one flag, at its maximum. */
  lemma OneFlagPerWindow(x: Cube<real>, kR: nat, kC: nat, stride: nat, connect: Cube<real>, i: nat, j: nat, d: nat, r: nat, c: nat)
    requires x.Valid() && Fits(x.rows, x.cols, kR, kC, stride) && Flags(x, kR, kC, stride, connect)
    requires i < OutputExtent(x.rows, kR, stride) && j < OutputExtent(x.cols, kC, stride) && d < x.slices
    requires i * stride <= r < i * stride + kR && j * stride <= c < j * stride + kC
    ensures x.InBounds(r, c, d)
    ensures connect.At(r, c, d) == 1.0 <==> (r, c) == Source(x, kR, kC, stride, i, j, d)
  {
    StrideSteps(x.rows, kR, stride, i);
    StrideSteps(x.cols, kC, stride, j);
    if (r, c) == Source(x, kR, kC, stride, i, j, d) {
      assert Before(i, j, d, 0, 0, x.slices);
    }
    if IsSource(x, kR, kC, stride, r, c, d) {
      SourceInWindow(x, kR, kC, stride, i, j, d, r, c);
    }
  }

  // ---------------------------------------------------------------------
  // Backward

  /** Read from the connection map, the arg-max of each window is the
      forward pass's source: the backward pass finds the flag it set. */
  lemma FlagsLocateMax(x: Cube<real>, kR: nat, kC: nat, stride: nat, connect: Cube<real>, i: nat, j: nat, d: nat)
    requires x.Valid() && Fits(x.rows, x.cols, kR, kC, stride) && Flags(x, kR, kC, stride, connect)
    requires i < OutputExtent(x.rows, kR, stride) && j < OutputExtent(x.cols, kC, stride) && d < x.slices
    ensures Source(connect, kR, kC, stride, i, j, d) == Source(x, kR, kC, stride, i, j, d)
  {
    var p := Source(x, kR, kC, stride, i, j, d);
    var q := Source(connect, kR, kC, stride, i, j, d);
    OneFlagPerWindow(x, kR, kC, stride, connect, i, j, d, p.0, p.1);
    OneFlagPerWindow(x, kR, kC, stride, connect, i, j, d, q.0, q.1);
    assert connect.At(q.0, q.1, d) >= connect.At(p.0, p.1, d);
  }

  /** The state of Backward's loops when they reach window (row, col) of
      slice d: visited windows have sent their error to their source,
      everything that is no visited window's source is zero. */
  ghost predicate BackwardUpTo(connect: Cube<real>, e: Cube<real>, kR: nat, kC: nat, stride: nat, loss: Cube<real>, row: nat, col: nat, d: nat)
    requires connect.Valid() && Fits(connect.rows, connect.cols, kR, kC, stride)
    requires e.Valid() && e.Shape() == (OutputExtent(connect.rows, kR, stride), OutputExtent(connect.cols, kC, stride), connect.slices)
  {
    && loss.Valid() && loss.Shape() == connect.Shape()
    && (forall i: nat, j: nat, d': nat :: e.InBounds(i, j, d') && Before(i, j, d', row, col, d) ==>
          var p := Source(connect, kR, kC, stride, i, j, d');
          loss.At(p.0, p.1, d') == e.At(i, j, d'))
    && (forall r: nat, c: nat, d': nat :: connect.InBounds(r, c, d') && !IsSourceBefore(connect, kR, kC, stride, r, c, d', row, col, d) ==>
          loss.At(r, c, d') == 0.0)
  }

  /** One pass of the innermost loop body keeps BackwardUpTo. */
  lemma BackwardStep(connect: Cube<real>, e: Cube<real>, kR: nat, kC: nat, stride: nat, loss: Cube<real>, row: nat, col: nat, d: nat, loss': Cube<real>)
    requires connect.Valid() && Fits(connect.rows, connect.cols, kR, kC, stride) && d < connect.slices
    requires e.Valid() && e.Shape() == (OutputExtent(connect.rows, kR, stride), OutputExtent(connect.cols, kC, stride), connect.slices)
    requires row < e.rows && col < e.cols
    requires BackwardUpTo(connect, e, kR, kC, stride, loss, row, col, d)
    requires loss' == loss.Set(Source(connect, kR, kC, stride, row, col, d).0, Source(connect, kR, kC, stride, row, col, d).1, d, e.At(row, col, d))
    ensures BackwardUpTo(connect, e, kR, kC, stride, loss', row + 1, col, d)
  {
    var p := Source(connect, kR, kC, stride, row, col, d);
    forall i: nat, j: nat, d': nat | e.InBounds(i, j, d') && Before(i, j, d', row + 1, col, d)
      ensures loss'.At(Source(connect, kR, kC, stride, i, j, d').0, Source(connect, kR, kC, stride, i, j, d').1, d') == e.At(i, j, d')
    {
      var q := Source(connect, kR, kC, stride, i, j, d');
      if (i, j, d') != (row, col, d) && d' == d && q == p {
        SourceDistinct(connect, kR, kC, stride, i, j, row, col, d);
      }
    }
    forall r: nat, c: nat, d': nat | connect.InBounds(r, c, d') && !IsSourceBefore(connect, kR, kC, stride, r, c, d', row + 1, col, d)
      ensures loss'.At(r, c, d') == 0.0
    {
      SourceStep(connect, kR, kC, stride, r, c, d', row, col, d);
    }
  }

  /** The row loop stops once r = row * stride passes the last row: every
      window of the column has been visited. */
  lemma BackwardNextColumn(connect: Cube<real>, e: Cube<real>, kR: nat, kC: nat, stride: nat, loss: Cube<real>, row: nat, col: nat, d: nat)
    requires connect.Valid() && Fits(connect.rows, connect.cols, kR, kC, stride)
    requires e.Valid() && e.Shape() == (OutputExtent(connect.rows, kR, stride), OutputExtent(connect.cols, kC, stride), connect.slices)
    requires row <= e.rows && connect.rows <= row * stride
    requires BackwardUpTo(connect, e, kR, kC, stride, loss, row, col, d)
    ensures BackwardUpTo(connect, e, kR, kC, stride, loss, 0, col + 1, d)
  {
    StrideSteps(connect.rows, kR, stride, row);
    assert row == e.rows;
    forall r: nat, c: nat, d': nat | connect.InBounds(r, c, d')
      ensures IsSourceBefore(connect, kR, kC, stride, r, c, d', e.rows, col, d) <==>
              IsSourceBefore(connect, kR, kC, stride, r, c, d', 0, col + 1, d)
    {
      SourceSame(connect, kR, kC, stride, r, c, d', e.rows, col, d, 0, col + 1, d);
    }
  }

  lemma BackwardNextSlice(connect: Cube<real>, e: Cube<real>, kR: nat, kC: nat, stride: nat, loss: Cube<real>, d: nat)
    requires connect.Valid() && Fits(connect.rows, connect.cols, kR, kC, stride)
    requires e.Valid() && e.Shape() == (OutputExtent(connect.rows, kR, stride), OutputExtent(connect.cols, kC, stride), connect.slices)
    requires BackwardUpTo(connect, e, kR, kC, stride, loss, 0, e.cols, d)
    ensures BackwardUpTo(connect, e, kR, kC, stride, loss, 0, 0, d + 1)
  {
    forall r: nat, c: nat, d': nat | connect.InBounds(r, c, d')
      ensures IsSourceBefore(connect, kR, kC, stride, r, c, d', 0, e.cols, d) <==>
              IsSourceBefore(connect, kR, kC, stride, r, c, d', 0, 0, d + 1)
    {
      SourceSame(connect, kR, kC, stride, r, c, d', 0, e.cols, d, 0, 0, d + 1);
    }
  }

  /** The body of the innermost loop of `MaxPoolingLayer::Backward`: the
      window's error goes to the flagged element of the window at (r, c). */
  method BackwardWindow(connect: Cube<real>, e: Cube<real>, kR: nat, kC: nat, stride: nat, loss: Cube<real>,
                        lossRow: nat, lossCol: nat, r: nat, c: nat, d: nat)
    returns (loss': Cube<real>)
    requires connect.Valid() && Fits(connect.rows, connect.cols, kR, kC, stride) && d < connect.slices
    requires e.Valid() && e.Shape() == (OutputExtent(connect.rows, kR, stride), OutputExtent(connect.cols, kC, stride), connect.slices)
    requires lossRow < e.rows && lossCol < e.cols && r == lossRow * stride && c == lossCol * stride
    requires BackwardUpTo(connect, e, kR, kC, stride, loss, lossRow, lossCol, d)
    ensures BackwardUpTo(connect, e, kR, kC, stride, loss', lossRow + 1, lossCol, d)
  {
    StrideSteps(connect.rows, kR, stride, lossRow);
    StrideSteps(connect.cols, kC, stride, lossCol);
    var p := WindowArgMax(connect, r, kR, c, kC, d);
    assert p == Source(connect, kR, kC, stride, lossRow, lossCol, d);
    loss' := loss.Set(p.0, p.1, d, e.At(lossRow, lossCol, d));
    BackwardStep(connect, e, kR, kC, stride, loss, lossRow, lossCol, d, loss');
  }

  /** One column of output windows, the two inner loops of
      `MaxPoolingLayer::Backward`. */
  method BackwardColumn(connect: Cube<real>, e: Cube<real>, kR: nat, kC: nat, stride: nat, loss: Cube<real>, lossCol: nat, c: nat, d: nat)
    returns (loss': Cube<real>)
    requires connect.Valid() && Fits(connect.rows, connect.cols, kR, kC, stride) && d < connect.slices
    requires e.Valid() && e.Shape() == (OutputExtent(connect.rows, kR, stride), OutputExtent(connect.cols, kC, stride), connect.slices)
    requires lossCol < e.cols && c == lossCol * stride
    requires BackwardUpTo(connect, e, kR, kC, stride, loss, 0, lossCol, d)
    ensures BackwardUpTo(connect, e, kR, kC, stride, loss', 0, lossCol + 1, d)
  {
    var h := e.rows;
    StrideSteps(connect.cols, kC, stride, lossCol);
    loss' := loss;
    var lossRow, r := 0, 0;
    while r < connect.rows
      invariant r == lossRow * stride && lossRow <= h
      invariant BackwardUpTo(connect, e, kR, kC, stride, loss', lossRow, lossCol, d)
      decreases connect.rows - r
    {
      StrideNext(connect.rows, kR, stride, lossRow);
      loss' := BackwardWindow(connect, e, kR, kC, stride, loss', lossRow, lossCol, r, c, d);
      lossRow, r := lossRow + 1, r + stride;
    }
    BackwardNextColumn(connect, e, kR, kC, stride, loss', lossRow, lossCol, d);
  }

  /** One slice of output windows, the middle loop of
      `MaxPoolingLayer::Backward`. */
  method BackwardSlice(connect: Cube<real>, e: Cube<real>, kR: nat, kC: nat, stride: nat, loss: Cube<real>, d: nat)
    returns (loss': Cube<real>)
    requires connect.Valid() && Fits(connect.rows, connect.cols, kR, kC, stride) && d < connect.slices
    requires e.Valid() && e.Shape() == (OutputExtent(connect.rows, kR, stride), OutputExtent(connect.cols, kC, stride), connect.slices)
    requires BackwardUpTo(connect, e, kR, kC, stride, loss, 0, 0, d)
    ensures BackwardUpTo(connect, e, kR, kC, stride, loss', 0, 0, d + 1)
  {
    loss' := loss;
    var lossCol, c := 0, 0;
    while c < connect.cols
      invariant c == lossCol * stride && lossCol <= e.cols
      invariant BackwardUpTo(connect, e, kR, kC, stride, loss', 0, lossCol, d)
      decreases connect.cols - c
    {
      StrideNext(connect.cols, kC, stride, lossCol);
      loss' := BackwardColumn(connect, e, kR, kC, stride, loss', lossCol, c, d);
      lossCol, c := lossCol + 1, c + stride;
    }
    StrideSteps(connect.cols, kC, stride, lossCol);
    BackwardNextSlice(connect, e, kR, kC, stride, loss', d);
  }

  /** Before the loop nothing is routed and the loss is all zero. */
  lemma BackwardStart(connect: Cube<real>, e: Cube<real>, kR: nat, kC: nat, stride: nat)
    requires connect.Valid() && Fits(connect.rows, connect.cols, kR, kC, stride)
    requires e.Valid() && e.Shape() == (OutputExtent(connect.rows, kR, stride), OutputExtent(connect.cols, kC, stride), connect.slices)
    ensures BackwardUpTo(connect, e, kR, kC, stride, Zeros(connect.rows, connect.cols, connect.slices), 0, 0, 0)
  {
  }

  /** After the last slice every window has been routed. */
  lemma BackwardDone(connect: Cube<real>, e: Cube<real>, kR: nat, kC: nat, stride: nat, loss: Cube<real>)
    requires connect.Valid() && Fits(connect.rows, connect.cols, kR, kC, stride)
    requires e.Valid() && e.Shape() == (OutputExtent(connect.rows, kR, stride), OutputExtent(connect.cols, kC, stride), connect.slices)
    requires BackwardUpTo(connect, e, kR, kC, stride, loss, 0, 0, connect.slices)
    ensures loss.Valid() && loss.Shape() == connect.Shape()
    ensures forall i: nat, j: nat, d: nat :: e.InBounds(i, j, d) ==>
      var p := Source(connect, kR, kC, stride, i, j, d);
      loss.At(p.0, p.1, d) == e.At(i, j, d)
    ensures forall r: nat, c: nat, d: nat :: connect.InBounds(r, c, d) && !IsSource(connect, kR, kC, stride, r, c, d) ==>
      loss.At(r, c, d) == 0.0
  {
  }

  /** The loop of `MaxPoolingLayer::Backward` (and `Backward2nd`, which
      repeats it): the local loss is zero except at the arg-max of each
      window of the connection map, which receives that window's error. */
  method Backward(connect: Cube<real>, e: Cube<real>, kR: nat, kC: nat, stride: nat) returns (loss: Cube<real>)
    requires connect.Valid() && Fits(connect.rows, connect.cols, kR, kC, stride)
    requires e.Valid() && e.Shape() == (OutputExtent(connect.rows, kR, stride), OutputExtent(connect.cols, kC, stride), connect.slices)
    ensures loss.Valid() && loss.Shape() == connect.Shape()
    ensures forall i: nat, j: nat, d: nat :: e.InBounds(i, j, d) ==>
      var p := Source(connect, kR, kC, stride, i, j, d);
      loss.At(p.0, p.1, d) == e.At(i, j, d)
    ensures forall r: nat, c: nat, d: nat :: connect.InBounds(r, c, d) && !IsSource(connect, kR, kC, stride, r, c, d) ==>
      loss.At(r, c, d) == 0.0
  {
    loss := Zeros(connect.rows, connect.cols, connect.slices);
    BackwardStart(connect, e, kR, kC, stride);
    for d := 0 to connect.slices
      invariant BackwardUpTo(connect, e, kR, kC, stride, loss, 0, 0, d)
    {
      loss := BackwardSlice(connect, e, kR, kC, stride, loss, d);
    }
    BackwardDone(connect, e, kR, kC, stride, loss);
  }

  /** A source of the connection map is a source of the input. */
  lemma FlagSourceIsSource(x: Cube<real>, kR: nat, kC: nat, stride: nat, connect: Cube<real>, r: nat, c: nat, d: nat)
    requires x.Valid() && Fits(x.rows, x.cols, kR, kC, stride) && Flags(x, kR, kC, stride, connect) && d < x.slices
    requires IsSource(connect, kR, kC, stride, r, c, d)
    ensures IsSource(x, kR, kC, stride, r, c, d)
  {
    var h, w := OutputExtent(x.rows, kR, stride), OutputExtent(x.cols, kC, stride);
    var i: nat, j: nat :| i < h && j < w && Before(i, j, d, 0, 0, x.slices) && Source(connect, kR, kC, stride, i, j, d) == (r, c);
    FlagsLocateMax(x, kR, kC, stride, connect, i, j, d);
  }

  /** Forward then Backward routes each window's error to the position of
      that window's maximum in the input, and nothing anywhere else: the
      gradient of max pooling. */
  lemma RoutesToMax(x: Cube<real>, kR: nat, kC: nat, stride: nat, connect: Cube<real>, e: Cube<real>, loss: Cube<real>)
    requires x.Valid() && Fits(x.rows, x.cols, kR, kC, stride) && Flags(x, kR, kC, stride, connect)
    requires e.Valid() && e.Shape() == (OutputExtent(x.rows, kR, stride), OutputExtent(x.cols, kC, stride), x.slices)
    requires loss.Valid() && loss.Shape() == connect.Shape()
    requires forall i: nat, j: nat, d: nat :: e.InBounds(i, j, d) ==>
      var p := Source(connect, kR, kC, stride, i, j, d);
      loss.At(p.0, p.1, d) == e.At(i, j, d)
    requires forall r: nat, c: nat, d: nat :: connect.InBounds(r, c, d) && !IsSource(connect, kR, kC, stride, r, c, d) ==>
      loss.At(r, c, d) == 0.0
    ensures forall i: nat, j: nat, d: nat :: e.InBounds(i, j, d) ==>
      var p := Source(x, kR, kC, stride, i, j, d);
      loss.At(p.0, p.1, d) == e.At(i, j, d)
    ensures forall r: nat, c: nat, d: nat :: x.InBounds(r, c, d) && !IsSource(x, kR, kC, stride, r, c, d) ==>
      loss.At(r, c, d) == 0.0
  {
    forall i: nat, j: nat, d: nat | e.InBounds(i, j, d)
      ensures Source(x, kR, kC, stride, i, j, d) == Source(connect, kR, kC, stride, i, j, d)
    {
      FlagsLocateMax(x, kR, kC, stride, connect, i, j, d);
    }
    forall r: nat, c: nat, d: nat | x.InBounds(r, c, d) && !IsSource(x, kR, kC, stride, r, c, d)
      ensures !IsSource(connect, kR, kC, stride, r, c, d)
    {
      if IsSource(connect, kR, kC, stride, r, c, d) {
        FlagSourceIsSource(x, kR, kC, stride, connect, r, c, d);
      }
    }
  }

  // ---------------------------------------------------------------------
  // The window as the source spans it

  /** The pooled value as the layer's loops compute it: both spans of the
      window take the kernel height, so the columns span kH, whatever the
      kernel width. */
  function WrittenPoolMax(x: Cube<real>, kH: nat, stride: nat, i: nat, j: nat, d: nat): (v: real)
    requires x.Valid() && 0 < kH && i * stride + kH <= x.rows && j * stride + kH <= x.cols && d < x.slices
    ensures forall a: nat, b: nat :: i * stride <= a < i * stride + kH && j * stride <= b < j * stride + kH ==>
      x.At(a, b, d) <= v
  {
    var p := WindowArgMax(x, i * stride, kH, j * stride, kH, d);
    x.At(p.0, p.1, d)
  }

  /** On a 1 x 2 input [0 1], a 1 x 2 kernel at stride 2 has one output
      window, which covers both elements; the written span covers only
      the first column and pools 0 where the maximum is 1. */
  lemma NarrowSpanMissesMax(x: Cube<real>)
    requires x.Valid() && x.rows == 1 && x.cols == 2 && x.slices == 1
    requires x.At(0, 0, 0) == 0.0 && x.At(0, 1, 0) == 1.0
    requires Fits(x.rows, x.cols, 1, 2, 2)
    ensures WrittenPoolMax(x, 1, 2, 0, 0, 0) == 0.0
    ensures PoolMax(x, 1, 2, 2, 0, 0, 0) == 1.0
  {
    var p := WindowArgMax(x, 0, 1, 0, 1, 0);
    assert p == (0, 0);
    var q := WindowArgMax(x, 0, 1, 0, 2, 0);
    assert q.0 == 0 && q.1 < 2;
    assert x.At(q.0, q.1, 0) >= x.At(0, 1, 0);
    assert q == (0, 1);
    assert Source(x, 1, 2, 2, 0, 0, 0) == q;
  }

  /** Such an input exists, and the kernel fits it with one window. */
  lemma NarrowSpanInput() returns (x: Cube<real>)
    ensures x.Valid() && x.rows == 1 && x.cols == 2 && x.slices == 1
    ensures x.At(0, 0, 0) == 0.0 && x.At(0, 1, 0) == 1.0
    ensures Fits(x.rows, x.cols, 1, 2, 2) && OutputExtent(x.rows, 1, 2) == 1 && OutputExtent(x.cols, 2, 2) == 1
  {
    x := Zeros(1, 2, 1).Set(0, 1, 0, 1.0);
  }
}
