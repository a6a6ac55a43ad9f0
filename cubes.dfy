/** Dense three-dimensional arrays as the trainer uses Armadillo's `Cube`:
    `rows x cols x slices` elements addressed by (row, column, slice).
    The elements are kept as `data[s][c][r]`; `Flatten` gives the order in
    which Armadillo lays them out in memory (column-major, slice after
    slice), which is what `vectorise`, `reshape` and the span copies of the
    source rely on. A matrix is a cube with one slice. */
module Cubes {

  datatype Cube<T> = Cube(rows: nat, cols: nat, slices: nat, data: seq<seq<seq<T>>>)
  {
    /** The nested sequences have exactly the declared extents. */
    predicate Valid() {
      && |data| == slices
      && (forall s :: 0 <= s < slices ==> |data[s]| == cols)
      && (forall s, c :: 0 <= s < slices && 0 <= c < cols ==> |data[s][c]| == rows)
    }

    function Shape(): (nat, nat, nat) { (rows, cols, slices) }

    /** Armadillo's `n_elem`. */
    function NElem(): nat { rows * cols * slices }

    /** The test the layers use to recognise a one-dimensional signal:
        `n_slices == 1 && n_cols == 1`. */
    predicate IsColumn() { cols == 1 && slices == 1 }

    predicate InBounds(r: nat, c: nat, s: nat) { r < rows && c < cols && s < slices }

    /** Element (r, c, s), Armadillo's `x(r, c, s)`. */
    function At(r: nat, c: nat, s: nat): T
      requires Valid() && InBounds(r, c, s)
    {
      data[s][c][r]
    }

    /** The cube after the assignment `x(r, c, s) = v`. */
    function Set(r: nat, c: nat, s: nat, v: T): (y: Cube<T>)
      requires Valid() && InBounds(r, c, s)
      ensures y.Valid() && y.Shape() == Shape()
      ensures y.At(r, c, s) == v
      ensures forall r': nat, c': nat, s': nat :: InBounds(r', c', s') && (r', c', s') != (r, c, s) ==> y.At(r', c', s') == At(r', c', s')
    {
      Cube(rows, cols, slices, data[s := data[s][c := data[s][c][r := v]]])
    }
  }

  /** The cube whose element (r, c, s) is f(r, c, s). */
  function Tabulate<T>(rows: nat, cols: nat, slices: nat, f: (nat, nat, nat) --> T): (x: Cube<T>)
    requires forall r: nat, c: nat, s: nat :: r < rows && c < cols && s < slices ==> f.requires(r, c, s)
    ensures x.Valid() && x.Shape() == (rows, cols, slices)
    ensures forall r: nat, c: nat, s: nat :: r < rows && c < cols && s < slices ==> x.At(r, c, s) == f(r, c, s)
  {
    Cube(rows, cols, slices,
      seq(slices, s requires 0 <= s < slices =>
        seq(cols, c requires 0 <= c < cols =>
          seq(rows, r requires 0 <= r < rows => f(r, c, s)))))
  }

  /** A cube of the given shape with every element v (Armadillo's `fill(v)`). */
  function Filled<T>(rows: nat, cols: nat, slices: nat, v: T): (x: Cube<T>)
    ensures x.Valid() && x.Shape() == (rows, cols, slices)
    ensures forall r: nat, c: nat, s: nat :: x.InBounds(r, c, s) ==> x.At(r, c, s) == v
  {
    Tabulate(rows, cols, slices, (r, c, s) => v)
  }

  function Zeros(rows: nat, cols: nat, slices: nat): (x: Cube<real>)
    ensures x.Valid() && x.Shape() == (rows, cols, slices)
    ensures forall r: nat, c: nat, s: nat :: x.InBounds(r, c, s) ==> x.At(r, c, s) == 0.0
  {
    Filled(rows, cols, slices, 0.0)
  }

  /** A freshly allocated `Cube<float>(rows, cols, slices)`. Armadillo does
      not initialise the elements; the model picks zeros, one of the values
      that memory may hold, so the callers' contents are those of `Zeros`. */
  function Allocated(rows: nat, cols: nat, slices: nat): (x: Cube<real>)
    ensures x.Valid() && x.Shape() == (rows, cols, slices)
  {
    Zeros(rows, cols, slices)
  }

  /** Two valid cubes are equal when their shapes and elements agree. */
  lemma {:induction false} Extensionality<T>(x: Cube<T>, y: Cube<T>)
    requires x.Valid() && y.Valid() && x.Shape() == y.Shape()
    requires forall r: nat, c: nat, s: nat :: x.InBounds(r, c, s) ==> x.At(r, c, s) == y.At(r, c, s)
    ensures x == y
  {
    forall s | 0 <= s < x.slices ensures x.data[s] == y.data[s] {
      forall c | 0 <= c < x.cols ensures x.data[s][c] == y.data[s][c] {
        forall r | 0 <= r < x.rows ensures x.data[s][c][r] == y.data[s][c][r] {
          assert x.At(r, c, s) == y.At(r, c, s);
        }
      }
    }
  }

  // ---------------------------------------------------------------------
  // Elementwise arithmetic (Armadillo's whole-cube operators)

  /** `x % y`, the elementwise (Schur) product. */
  function Schur(x: Cube<real>, y: Cube<real>): (z: Cube<real>)
    requires x.Valid() && y.Valid() && x.Shape() == y.Shape()
    ensures z.Valid() && z.Shape() == x.Shape()
    ensures forall r: nat, c: nat, s: nat :: x.InBounds(r, c, s) ==> z.At(r, c, s) == x.At(r, c, s) * y.At(r, c, s)
  {
    Tabulate(x.rows, x.cols, x.slices, (r, c, s) requires x.InBounds(r, c, s) => x.At(r, c, s) * y.At(r, c, s))
  }

  /** `x + y`. */
  function Add(x: Cube<real>, y: Cube<real>): (z: Cube<real>)
    requires x.Valid() && y.Valid() && x.Shape() == y.Shape()
    ensures z.Valid() && z.Shape() == x.Shape()
    ensures forall r: nat, c: nat, s: nat :: x.InBounds(r, c, s) ==> z.At(r, c, s) == x.At(r, c, s) + y.At(r, c, s)
  {
    Tabulate(x.rows, x.cols, x.slices, (r, c, s) requires x.InBounds(r, c, s) => x.At(r, c, s) + y.At(r, c, s))
  }

  /** `k * x`. */
  function Scale(k: real, x: Cube<real>): (z: Cube<real>)
    requires x.Valid()
    ensures z.Valid() && z.Shape() == x.Shape()
    ensures forall r: nat, c: nat, s: nat :: x.InBounds(r, c, s) ==> z.At(r, c, s) == k * x.At(r, c, s)
  {
    Tabulate(x.rows, x.cols, x.slices, (r, c, s) requires x.InBounds(r, c, s) => k * x.At(r, c, s))
  }

  // ---------------------------------------------------------------------
  // Memory order

  /** Position of element (r, c, s) in Armadillo's column-major memory of a
      cube with `rows` rows and `cols` columns. */
  function Index(rows: nat, cols: nat, r: nat, c: nat, s: nat): nat {
    s * (rows * cols) + c * rows + r
  }

  function Concat<T>(xs: seq<seq<T>>): seq<T> {
    if xs == [] then [] else xs[0] + Concat(xs[1..])
  }

  /** The elements of a valid cube in memory order. */
  function Flatten<T>(x: Cube<T>): seq<T>
    requires x.Valid()
  {
    Concat(seq(x.slices, s requires 0 <= s < x.slices => Concat(x.data[s])))
  }

  lemma MulMonotone(a: nat, b: nat, k: nat)
    requires a <= b
    ensures a * k <= b * k
  {
  }

  /** Every in-range coordinate has an in-range memory position. */
  lemma IndexBound(rows: nat, cols: nat, slices: nat, r: nat, c: nat, s: nat)
    requires r < rows && c < cols && s < slices
    ensures Index(rows, cols, r, c, s) < rows * cols * slices
  {
    calc {
      c * rows + r;
    <
      c * rows + rows;
    ==
      (c + 1) * rows;
    <= { MulMonotone(c + 1, cols, rows); }
      cols * rows;
    }
    calc {
      Index(rows, cols, r, c, s);
    <
      s * (rows * cols) + rows * cols;
    ==
      (s + 1) * (rows * cols);
    <= { MulMonotone(s + 1, slices, rows * cols); }
      slices * (rows * cols);
    ==
      rows * cols * slices;
    }
  }

  /** Every memory position of a cube is the position of exactly the
      coordinates computed here. */
  lemma IndexDecompose(rows: nat, cols: nat, slices: nat, i: nat) returns (r: nat, c: nat, s: nat)
    requires i < rows * cols * slices
    ensures r < rows && c < cols && s < slices
    ensures Index(rows, cols, r, c, s) == i
  {
    var rc := rows * cols;
    assert rc > 0;
    s := i / rc;
    var rem := i % rc;
    assert i == s * rc + rem;
    assert rows > 0;
    c := rem / rows;
    r := rem % rows;
    assert rem == c * rows + r;
    if c >= cols {
      MulMonotone(cols, c, rows);
      assert false;
    }
    if s >= slices {
      MulMonotone(slices, s, rc);
      assert false;
    }
  }

  /** Distinct coordinates have distinct memory positions. */
  lemma IndexInjective(rows: nat, cols: nat, r: nat, c: nat, s: nat, r': nat, c': nat, s': nat)
    requires r < rows && c < cols && r' < rows && c' < cols
    requires Index(rows, cols, r, c, s) == Index(rows, cols, r', c', s')
    ensures r == r' && c == c' && s == s'
  {
    var rc := rows * cols;
    IndexBound(rows, cols, 1, r, c, 0);
    IndexBound(rows, cols, 1, r', c', 0);
    DivModUnique(s, c * rows + r, s', c' * rows + r', rc);
    DivModUnique(c, r, c', r', rows);
  }

  /** Quotient and remainder are unique. */
  lemma DivModUnique(q: nat, m: nat, q': nat, m': nat, n: nat)
    requires m < n && m' < n && q * n + m == q' * n + m'
    ensures q == q' && m == m'
  {
    if q < q' {
      MulMonotone(q + 1, q', n);
      assert false;
    } else if q' < q {
      MulMonotone(q' + 1, q, n);
      assert false;
    }
  }

  lemma {:induction false} ConcatLength<T>(xs: seq<seq<T>>, len: nat)
    requires forall k :: 0 <= k < |xs| ==> |xs[k]| == len
    ensures |Concat(xs)| == |xs| * len
  {
    if xs != [] {
      ConcatLength(xs[1..], len);
      ShiftRow(|xs|, 0, len);
    }
  }

  lemma {:induction false} ConcatAt<T>(xs: seq<seq<T>>, len: nat, i: nat, j: nat)
    requires forall k :: 0 <= k < |xs| ==> |xs[k]| == len
    requires i < |xs| && j < len
    ensures i * len + j < |Concat(xs)|
    ensures Concat(xs)[i * len + j] == xs[i][j]
  {
    ConcatLength(xs, len);
    if i == 0 {
      assert Concat(xs) == xs[0] + Concat(xs[1..]);
    } else {
      ConcatAt(xs[1..], len, i - 1, j);
      ShiftRow(i, j, len);
      assert Concat(xs) == xs[0] + Concat(xs[1..]);
    }
  }

  lemma ShiftRow(i: nat, j: nat, len: nat)
    requires i > 0
    ensures i * len + j == len + ((i - 1) * len + j)
  {
  }

  /** The memory image of each slice, in slice order. */
  function SliceImages<T>(x: Cube<T>): (images: seq<seq<T>>)
    requires x.Valid()
    ensures |images| == x.slices
    ensures forall k :: 0 <= k < x.slices ==> |images[k]| == x.rows * x.cols
  {
    var images := seq(x.slices, s requires 0 <= s < x.slices => Concat(x.data[s]));
    forall k | 0 <= k < x.slices ensures |images[k]| == x.rows * x.cols {
      ConcatLength(x.data[k], x.rows);
    }
    images
  }

  lemma FlattenLength<T>(x: Cube<T>)
    requires x.Valid()
    ensures |Flatten(x)| == x.NElem()
  {
    var images := SliceImages(x);
    assert Flatten(x) == Concat(images);
    ConcatLength(images, x.rows * x.cols);
  }

  /** Element (r, c, s) sits at memory position `Index(rows, cols, r, c, s)`. */
  lemma FlattenAt<T>(x: Cube<T>, r: nat, c: nat, s: nat)
    requires x.Valid() && x.InBounds(r, c, s)
    ensures |Flatten(x)| == x.NElem()
    ensures Index(x.rows, x.cols, r, c, s) < x.NElem()
    ensures Flatten(x)[Index(x.rows, x.cols, r, c, s)] == x.At(r, c, s)
  {
    FlattenLength(x);
    IndexBound(x.rows, x.cols, x.slices, r, c, s);
    IndexBound(x.rows, x.cols, 1, r, c, 0);
    var images := SliceImages(x);
    assert Flatten(x) == Concat(images);
    var area := x.rows * x.cols;
    var offset := c * x.rows + r;
    ConcatAt(x.data[s], x.rows, c, r);
    assert images[s][offset] == x.At(r, c, s);
    ConcatAt(images, area, s, offset);
  }

  /** Two valid cubes of one shape with the same memory image are equal. */
  lemma FlattenInjective<T>(x: Cube<T>, y: Cube<T>)
    requires x.Valid() && y.Valid() && x.Shape() == y.Shape() && Flatten(x) == Flatten(y)
    ensures x == y
  {
    forall r: nat, c: nat, s: nat | x.InBounds(r, c, s) ensures x.At(r, c, s) == y.At(r, c, s) {
      FlattenAt(x, r, c, s);
      FlattenAt(y, r, c, s);
    }
    Extensionality(x, y);
  }

  /** The cube of shape (h, w, d) whose memory image is v (Armadillo's
      `reshape` of a column, and the layout `unvectorise` produces). */
  function Unflatten<T>(v: seq<T>, h: nat, w: nat, d: nat): (x: Cube<T>)
    requires |v| == h * w * d
    ensures x.Valid() && x.Shape() == (h, w, d)
  {
    Tabulate(h, w, d, (r: nat, c: nat, s: nat) requires r < h && c < w && s < d => ElementOf(v, h, w, d, r, c, s))
  }

  /** Memory position `Index(h, w, r, c, s)` of v. */
  function ElementOf<T>(v: seq<T>, h: nat, w: nat, d: nat, r: nat, c: nat, s: nat): T
    requires |v| == h * w * d && r < h && c < w && s < d
  {
    IndexBound(h, w, d, r, c, s);
    v[Index(h, w, r, c, s)]
  }

  lemma UnflattenAt<T>(v: seq<T>, h: nat, w: nat, d: nat, r: nat, c: nat, s: nat)
    requires |v| == h * w * d && r < h && c < w && s < d
    ensures Index(h, w, r, c, s) < |v|
    ensures Unflatten(v, h, w, d).At(r, c, s) == v[Index(h, w, r, c, s)]
  {
    IndexBound(h, w, d, r, c, s);
  }

  /** Reading a memory image back gives the same image. */
  lemma FlattenUnflatten<T>(v: seq<T>, h: nat, w: nat, d: nat)
    requires |v| == h * w * d
    ensures Flatten(Unflatten(v, h, w, d)) == v
  {
    var x := Unflatten(v, h, w, d);
    FlattenLength(x);
    forall i | 0 <= i < |v| ensures Flatten(x)[i] == v[i] {
      var r, c, s := IndexDecompose(h, w, d, i);
      FlattenAt(x, r, c, s);
      UnflattenAt(v, h, w, d, r, c, s);
    }
  }

  /** Laying a cube out in memory and reading it back gives the cube. */
  lemma UnflattenFlatten<T>(x: Cube<T>)
    requires x.Valid()
    ensures |Flatten(x)| == x.rows * x.cols * x.slices
    ensures Unflatten(Flatten(x), x.rows, x.cols, x.slices) == x
  {
    FlattenLength(x);
    var y := Unflatten(Flatten(x), x.rows, x.cols, x.slices);
    forall r: nat, c: nat, s: nat | x.InBounds(r, c, s) ensures y.At(r, c, s) == x.At(r, c, s) {
      FlattenAt(x, r, c, s);
      UnflattenAt(Flatten(x), x.rows, x.cols, x.slices, r, c, s);
    }
    Extensionality(x, y);
  }

  /** Armadillo's span assignment `x.slice(s)(span(start, start + |v| - 1), col) = v`:
      rows `start .. start + |v| - 1` of one column of one slice take the
      values of v, everything else is kept. */
  function WriteColumnSpan<T>(x: Cube<T>, start: nat, col: nat, slice: nat, v: seq<T>): (y: Cube<T>)
    requires x.Valid() && start + |v| <= x.rows && col < x.cols && slice < x.slices
    ensures y.Valid() && y.Shape() == x.Shape()
    ensures forall r: nat, c: nat, s: nat :: x.InBounds(r, c, s) ==>
      y.At(r, c, s) == if c == col && s == slice && start <= r < start + |v| then v[r - start] else x.At(r, c, s)
  {
    Tabulate(x.rows, x.cols, x.slices, (r: nat, c: nat, s: nat) requires x.InBounds(r, c, s) =>
      if c == col && s == slice && start <= r < start + |v| then v[r - start] else x.At(r, c, s))
  }

  /** Rows `start .. start + len - 1` of column 0 of slice 0. */
  function ColumnSpan<T>(x: Cube<T>, start: nat, len: nat): (v: seq<T>)
    requires x.Valid() && start + len <= x.rows && x.cols > 0 && x.slices > 0
    ensures |v| == len && forall i :: 0 <= i < len ==> v[i] == x.At(start + i, 0, 0)
  {
    seq(len, i requires 0 <= i < len => x.At(start + i, 0, 0))
  }

  /** The memory image of one slice: `vectorise(x.slice(s))`. */
  function SliceImage<T>(x: Cube<T>, s: nat): (v: seq<T>)
    requires x.Valid() && s < x.slices
    ensures |v| == x.rows * x.cols
  {
    ConcatLength(x.data[s], x.rows);
    Concat(x.data[s])
  }

  /** Position k of slice s's image sits at position s * rows * cols + k of
      the cube's image. */
  lemma FlattenSlice<T>(x: Cube<T>, s: nat, k: nat)
    requires x.Valid() && s < x.slices && k < x.rows * x.cols
    ensures |Flatten(x)| == x.NElem()
    ensures s * (x.rows * x.cols) + k < x.NElem()
    ensures Flatten(x)[s * (x.rows * x.cols) + k] == SliceImage(x, s)[k]
  {
    FlattenLength(x);
    var images := SliceImages(x);
    assert Flatten(x) == Concat(images);
    ConcatAt(images, x.rows * x.cols, s, k);
    ConcatLength(images, x.rows * x.cols);
    assert x.slices * (x.rows * x.cols) == x.NElem();
  }

  /** `FlattenSlice` with the slice's offset passed in. */
  lemma FlattenSliceAt<T>(x: Cube<T>, s: nat, base: nat, k: nat)
    requires x.Valid() && s < x.slices && base == s * (x.rows * x.cols) && k < x.rows * x.cols
    ensures base + k < |Flatten(x)|
    ensures Flatten(x)[base + k] == SliceImage(x, s)[k]
  {
    FlattenSlice(x, s, k);
  }
}
