/** `vectorise` and `unvectorise`: the two reshapes between a cube and a
    column that the layers use when a convolution or pooling output feeds a
    fully connected layer and when the error flows back. */
module Reshape {
  import opened Cubes

  lemma IndexBoundAll(h: nat, w: nat, d: nat)
    ensures forall r: nat, c: nat, s: nat :: r < h && c < w && s < d ==> Index(h, w, r, c, s) < h * w * d
  {
    forall r: nat, c: nat, s: nat | r < h && c < w && s < d ensures Index(h, w, r, c, s) < h * w * d {
      IndexBound(h, w, d, r, c, s);
    }
  }

  /** The column holding x's elements in memory order: element (r, c, s)
      lands in row s*rows*cols + c*rows + r. */
  function Vectorised<T>(x: Cube<T>): (v: Cube<T>)
    requires x.Valid()
    ensures v.Valid() && v.Shape() == (x.NElem(), 1, 1)
    ensures forall r: nat, c: nat, s: nat :: x.InBounds(r, c, s) ==>
      Index(x.rows, x.cols, r, c, s) < x.NElem() && v.At(Index(x.rows, x.cols, r, c, s), 0, 0) == x.At(r, c, s)
  {
    FlattenLength(x);
    VectorisedLayout(x);
    Unflatten(Flatten(x), x.NElem(), 1, 1)
  }

  lemma VectorisedLayout<T>(x: Cube<T>)
    requires x.Valid()
    ensures |Flatten(x)| == x.NElem()
    ensures forall i :: 0 <= i < x.NElem() ==> Unflatten(Flatten(x), x.NElem(), 1, 1).At(i, 0, 0) == Flatten(x)[i]
    ensures forall r: nat, c: nat, s: nat :: x.InBounds(r, c, s) ==>
      Index(x.rows, x.cols, r, c, s) < x.NElem() &&
      Unflatten(Flatten(x), x.NElem(), 1, 1).At(Index(x.rows, x.cols, r, c, s), 0, 0) == x.At(r, c, s)
  {
    FlattenLength(x);
    var n := x.NElem();
    var flat := Flatten(x);
    forall i | 0 <= i < n ensures Unflatten(flat, n, 1, 1).At(i, 0, 0) == flat[i] {
      UnflattenAt(flat, n, 1, 1, i, 0, 0);
    }
    forall r: nat, c: nat, s: nat | x.InBounds(r, c, s)
      ensures Index(x.rows, x.cols, r, c, s) < n && Unflatten(flat, n, 1, 1).At(Index(x.rows, x.cols, r, c, s), 0, 0) == x.At(r, c, s)
    {
      FlattenAt(x, r, c, s);
      UnflattenAt(flat, n, 1, 1, Index(x.rows, x.cols, r, c, s), 0, 0);
    }
  }

  /** The h x w x d cube read from column v in memory order: element
      (r, c, s) comes from row s*h*w + c*h + r. */
  function Unvectorised<T>(v: Cube<T>, h: nat, w: nat, d: nat): (x: Cube<T>)
    requires v.Valid() && v.IsColumn() && v.rows == h * w * d
    ensures x.Valid() && x.Shape() == (h, w, d)
    ensures forall r: nat, c: nat, s: nat :: x.InBounds(r, c, s) ==>
      Index(h, w, r, c, s) < v.rows && x.At(r, c, s) == v.At(Index(h, w, r, c, s), 0, 0)
  {
    IndexBoundAll(h, w, d);
    Tabulate(h, w, d, (r: nat, c: nat, s: nat) requires r < h && c < w && s < d => v.At(Index(h, w, r, c, s), 0, 0))
  }

  /** Reading back what `vectorise` wrote restores the cube. */
  lemma UnvectoriseVectorise<T>(x: Cube<T>)
    requires x.Valid()
    ensures Unvectorised(Vectorised(x), x.rows, x.cols, x.slices) == x
  {
    var y := Unvectorised(Vectorised(x), x.rows, x.cols, x.slices);
    forall r: nat, c: nat, s: nat | x.InBounds(r, c, s) ensures y.At(r, c, s) == x.At(r, c, s) {
    }
    Extensionality(y, x);
  }

  /** Vectorising what `unvectorise` built gives back the column. */
  lemma VectoriseUnvectorise<T>(v: Cube<T>, h: nat, w: nat, d: nat)
    requires v.Valid() && v.IsColumn() && v.rows == h * w * d
    ensures Vectorised(Unvectorised(v, h, w, d)) == v
  {
    var y := Vectorised(Unvectorised(v, h, w, d));
    forall i: nat, c: nat, s: nat | v.InBounds(i, c, s) ensures y.At(i, c, s) == v.At(i, c, s) {
      VectoriseUnvectoriseAt(v, h, w, d, i, c, s);
    }
    Extensionality(y, v);
  }

  /** Row i of the round trip: i is the memory index of some (r, c, s),
      which unvectorise read from row i and vectorise writes back there. */
  lemma VectoriseUnvectoriseAt<T>(v: Cube<T>, h: nat, w: nat, d: nat, i: nat, c: nat, s: nat)
    requires v.Valid() && v.IsColumn() && v.rows == h * w * d && v.InBounds(i, c, s)
    ensures Vectorised(Unvectorised(v, h, w, d)).At(i, c, s) == v.At(i, c, s)
  {
    var x := Unvectorised(v, h, w, d);
    var r, col, sl := IndexDecompose(h, w, d, i);
    assert x.At(r, col, sl) == v.At(i, 0, 0);
    assert Vectorised(x).At(Index(h, w, r, col, sl), 0, 0) == x.At(r, col, sl);
  }

  /** The first `size` rows of column 0 of slice 0 of dst hold flat's prefix. */
  ghost predicate PrefixWritten<T>(dst: Cube<T>, flat: seq<T>, size: nat)
    requires dst.Valid() && dst.cols > 0 && dst.slices > 0 && size <= dst.rows && size <= |flat|
  {
    forall i :: 0 <= i < size ==> dst.At(i, 0, 0) == flat[i]
  }

  /** Offsets of consecutive slices: slice c ends where slice c + 1 starts,
      inside the cube's n_elem. */
  lemma SliceOffsets(area: nat, c: nat, slices: nat, n: nat)
    requires c < slices && n == area * slices
    ensures c * area + area == (c + 1) * area <= n
  {
    MulMonotone(c + 1, slices, area);
  }

  /** One iteration of `vectorise`: slice c's image written at offset
      size = c * n_elem_slice extends the written prefix by one slice. */
  lemma VectoriseStep<T>(src: Cube<T>, dst: Cube<T>, c: nat, size: nat, n: nat)
    requires src.Valid() && c < src.slices && size == c * (src.rows * src.cols)
    requires n == |Flatten(src)| && size + src.rows * src.cols <= n
    requires dst.Valid() && dst.Shape() == (n, 1, 1)
    requires PrefixWritten(dst, Flatten(src), size)
    ensures PrefixWritten(WriteColumnSpan(dst, size, 0, 0, SliceImage(src, c)), Flatten(src), size + src.rows * src.cols)
  {
    var area := src.rows * src.cols;
    var image := SliceImage(src, c);
    var flat := Flatten(src);
    var next := WriteColumnSpan(dst, size, 0, 0, image);
    forall i | 0 <= i < size + area ensures next.At(i, 0, 0) == flat[i] {
      if i < size {
        assert next.At(i, 0, 0) == dst.At(i, 0, 0);
      } else {
        FlattenSliceAt(src, c, size, i - size);
        assert next.At(i, 0, 0) == image[i - size];
      }
    }
  }

  /** `vectorise(src)`: a fresh n_elem x 1 x 1 cube filled slice by slice
      with each slice's column-major image, advancing a running offset.
      The span `size .. size + n_elem_slice - 1` is out of bounds when a
      slice is empty, so the source demands non-empty slices whenever
      there is a slice at all. */
  method Vectorise(src: Cube<real>) returns (dst: Cube<real>)
    requires src.Valid()
    requires src.slices == 0 || src.rows * src.cols > 0
    ensures dst == Vectorised(src)
  {
    var area := src.rows * src.cols;
    var n := src.NElem();
    FlattenLength(src);
    dst := Allocated(n, 1, 1);
    var size: nat := 0;
    assert n == area * src.slices;
    for c := 0 to src.slices
      invariant dst.Valid() && dst.Shape() == (n, 1, 1)
      invariant size == c * area && size <= n
      invariant n > 0 ==> PrefixWritten(dst, Flatten(src), size)
    {
      SliceOffsets(area, c, src.slices, n);
      dst := VectoriseSlice(src, dst, c, size, n);
      size := size + area;
    }
    VectorisedFromPrefix(src, dst);
  }

  /** One iteration of `vectorise`: `dst(span(size, size + n_elem_slice -
      1), 0, 0) = vectorise(src.slice(c))`. */
  method VectoriseSlice(src: Cube<real>, dst: Cube<real>, c: nat, size: nat, n: nat) returns (dst': Cube<real>)
    requires src.Valid() && c < src.slices && size == c * (src.rows * src.cols)
    requires n == |Flatten(src)| && size + src.rows * src.cols <= n
    requires dst.Valid() && dst.Shape() == (n, 1, 1)
    requires PrefixWritten(dst, Flatten(src), size)
    ensures dst'.Valid() && dst'.Shape() == (n, 1, 1)
    ensures PrefixWritten(dst', Flatten(src), size + src.rows * src.cols)
  {
    VectoriseStep(src, dst, c, size, n);
    dst' := WriteColumnSpan(dst, size, 0, 0, SliceImage(src, c));
  }

  /** A column holding all of src's memory image is its vectorisation. */
  lemma VectorisedFromPrefix<T>(src: Cube<T>, dst: Cube<T>)
    requires src.Valid() && dst.Valid() && dst.Shape() == (src.NElem(), 1, 1) && |Flatten(src)| == src.NElem()
    requires src.NElem() > 0 ==> PrefixWritten(dst, Flatten(src), src.NElem())
    ensures dst == Vectorised(src)
  {
    VectorisedLayout(src);
    Extensionality(dst, Vectorised(src));
  }

  /** Every column before (c, column) in memory order already holds its
      span of src. */
  ghost predicate ColumnsWritten<T>(dst: Cube<T>, src: Cube<T>, c: nat, column: nat)
    requires dst.Valid() && src.Valid() && src.IsColumn() && src.rows == dst.NElem()
  {
    forall r: nat, col: nat, s: nat :: dst.InBounds(r, col, s) && (s < c || (s == c && col < column)) ==>
      Index(dst.rows, dst.cols, r, col, s) < src.rows && dst.At(r, col, s) == src.At(Index(dst.rows, dst.cols, r, col, s), 0, 0)
  }

  /** One iteration of `unvectorise`'s inner loop. */
  lemma UnvectoriseStep<T>(src: Cube<T>, dst: Cube<T>, c: nat, column: nat, base: nat, size: nat)
    requires dst.Valid() && src.Valid() && src.IsColumn() && src.rows == dst.NElem()
    requires dst.rows > 0 && c < dst.slices && column < dst.cols
    requires base == c * (dst.rows * dst.cols) && size == base + column * dst.rows
    requires ColumnsWritten(dst, src, c, column)
    ensures size + dst.rows <= src.rows
    ensures ColumnsWritten(WriteColumnSpan(dst, 0, column, c, ColumnSpan(src, size, dst.rows)), src, c, column + 1)
  {
    var h, w := dst.rows, dst.cols;
    IndexBound(h, w, dst.slices, h - 1, column, c);
    var span := ColumnSpan(src, size, h);
    var next := WriteColumnSpan(dst, 0, column, c, span);
    forall r: nat, col: nat, s: nat | next.InBounds(r, col, s) && (s < c || (s == c && col < column + 1))
      ensures Index(h, w, r, col, s) < src.rows && next.At(r, col, s) == src.At(Index(h, w, r, col, s), 0, 0)
    {
      if col == column && s == c {
        assert Index(h, w, r, col, s) == size + r;
        assert next.At(r, col, s) == span[r];
      } else {
        assert next.At(r, col, s) == dst.At(r, col, s);
      }
    }
  }

  lemma NextColumn(base: nat, column: nat, h: nat)
    ensures base + column * h + h == base + (column + 1) * h
  {
  }

  lemma NextSlice(area: nat, h: nat, w: nat, c: nat)
    requires area == h * w
    ensures c * area + w * h == (c + 1) * area
  {
  }

  /** Finishing the last column of slice c finishes slice c. */
  lemma SliceWritten<T>(dst: Cube<T>, src: Cube<T>, c: nat)
    requires dst.Valid() && src.Valid() && src.IsColumn() && src.rows == dst.NElem()
    requires ColumnsWritten(dst, src, c, dst.cols)
    ensures ColumnsWritten(dst, src, c + 1, 0)
  {
  }

  /** Once every slice is written, dst is the unvectorised column. */
  lemma AllWritten<T>(dst: Cube<T>, src: Cube<T>)
    requires dst.Valid() && src.Valid() && src.IsColumn() && src.rows == dst.NElem()
    requires ColumnsWritten(dst, src, dst.slices, 0)
    ensures dst == Unvectorised(src, dst.rows, dst.cols, dst.slices)
  {
    Extensionality(dst, Unvectorised(src, dst.rows, dst.cols, dst.slices));
  }

  /** `unvectorise(src, height, width, depth)`: a fresh cube filled column
      by column, slice after slice, from consecutive spans of column 0 of
      slice 0 of src. Besides the asserted non-zero extents and matching
      element count, reading rows up to h*w*d - 1 of that column makes src
      a column. */
  method Unvectorise(src: Cube<real>, height: nat, width: nat, depth: nat) returns (dst: Cube<real>)
    requires src.Valid() && src.IsColumn()
    requires height != 0 && width != 0 && depth != 0
    requires src.rows == height * width * depth
    ensures dst == Unvectorised(src, height, width, depth)
  {
    var area := height * width;
    dst := Allocated(height, width, depth);
    var size: nat := 0;
    for c := 0 to depth
      invariant dst.Valid() && dst.Shape() == (height, width, depth)
      invariant size == c * area
      invariant ColumnsWritten(dst, src, c, 0)
    {
      dst, size := UnvectoriseSlice(src, dst, c, size);
      NextSlice(area, height, width, c);
    }
    AllWritten(dst, src);
  }

  /** The inner loop of `unvectorise`: the columns of slice c, from the
      span of src that starts at `base`. */
  method UnvectoriseSlice(src: Cube<real>, dst: Cube<real>, c: nat, base: nat) returns (dst': Cube<real>, size: nat)
    requires dst.Valid() && src.Valid() && src.IsColumn() && src.rows == dst.NElem()
    requires dst.rows > 0 && c < dst.slices && base == c * (dst.rows * dst.cols)
    requires ColumnsWritten(dst, src, c, 0)
    ensures dst'.Valid() && dst'.Shape() == dst.Shape()
    ensures size == base + dst.cols * dst.rows
    ensures ColumnsWritten(dst', src, c + 1, 0)
  {
    dst', size := dst, base;
    for column := 0 to dst.cols
      invariant dst'.Valid() && dst'.Shape() == dst.Shape()
      invariant size == base + column * dst.rows
      invariant ColumnsWritten(dst', src, c, column)
    {
      UnvectoriseStep(src, dst', c, column, base, size);
      dst' := WriteColumnSpan(dst', 0, column, c, ColumnSpan(src, size, dst.rows));
      NextColumn(base, column, dst.rows);
      size := size + dst.rows;
    }
    SliceWritten(dst', src, c);
  }
}
