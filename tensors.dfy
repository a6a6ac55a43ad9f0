/** The trainer's `tensor4d`: a vector of equally shaped cubes plus four
    metadata fields, and the kernel/padding size pair. The copy and move
    operations reproduce the source's metadata behaviour exactly: the new
    tensor's `n_slices` and `n_size` are taken from the source's `n_cols`. */
module Tensors {
  import opened Cubes

  datatype Tensor4d = Tensor4d(data: seq<Cube<real>>, nSize: nat, nRows: nat, nCols: nat, nSlices: nat)
  {
    /** Every stored cube is valid and has the given extents. */
    predicate CubesShaped(h: nat, w: nat, d: nat) {
      forall i :: 0 <= i < |data| ==> data[i].Valid() && data[i].Shape() == (h, w, d)
    }

    /** The metadata describes the data: `n_size` cubes of
        `n_rows x n_cols x n_slices`. */
    predicate WellFormed() {
      |data| == nSize && CubesShaped(nRows, nCols, nSlices)
    }

    /** The tensor holds `count` cubes of `h x w x d` and says so. */
    predicate Shaped(h: nat, w: nat, d: nat, count: nat) {
      WellFormed() && nRows == h && nCols == w && nSlices == d && nSize == count
    }
  }

  /** `tensor4d()`: no cubes, every extent zero. */
  function Default(): (t: Tensor4d)
    ensures t.data == [] && t.nSize == 0 && t.nRows == 0 && t.nCols == 0 && t.nSlices == 0
    ensures t.WellFormed()
  {
    Tensor4d([], 0, 0, 0, 0)
  }

  /** `tensor4d(height, width, depth, count)`: pushes `count` freshly
      allocated cubes. Armadillo leaves their elements uninitialised, so the
      contract says nothing about them. */
  method Sized(height: nat, width: nat, depth: nat, count: nat) returns (t: Tensor4d)
    ensures t.Shaped(height, width, depth, count)
  {
    var data: seq<Cube<real>> := [];
    var i := 0;
    while i < count
      invariant i <= count && |data| == i
      invariant forall k :: 0 <= k < i ==> data[k].Valid() && data[k].Shape() == (height, width, depth)
    {
      data := data + [Allocated(height, width, depth)];
      i := i + 1;
    }
    t := Tensor4d(data, count, height, width, depth);
  }

  /** The tensor built by the copy constructor or copy assignment from `src`
      (and the new tensor of a move): the data and `n_rows`, `n_cols` are
      copied, `n_slices` and `n_size` both become `src.n_cols`. */
  function Copied(src: Tensor4d): (t: Tensor4d)
    ensures t.data == src.data && t.nRows == src.nRows && t.nCols == src.nCols
    ensures t.nSlices == src.nCols && t.nSize == src.nCols
  {
    Tensor4d(src.data, src.nCols, src.nRows, src.nCols, src.nCols)
  }

  /** The moved-from tensor after `dst = std::move(src)`: its cubes went to
      the destination and only `n_rows` and `n_cols` are reset; `n_slices`
      and `n_size` keep their values. */
  function MovedFrom(src: Tensor4d): (t: Tensor4d)
    ensures t.data == [] && t.nRows == 0 && t.nCols == 0
    ensures t.nSlices == src.nSlices && t.nSize == src.nSize
  {
    Tensor4d([], src.nSize, 0, 0, src.nSlices)
  }

  /** The moved-from tensor after `tensor4d(std::move(src))`: the cubes are
      gone, the metadata is untouched. */
  function MoveConstructedFrom(src: Tensor4d): (t: Tensor4d)
    ensures t.data == [] && t.nRows == src.nRows && t.nCols == src.nCols
    ensures t.nSlices == src.nSlices && t.nSize == src.nSize
  {
    src.(data := [])
  }

  /** `dst = std::move(src)`: the new values of both sides. */
  function MoveAssign(src: Tensor4d): (r: (Tensor4d, Tensor4d))
    ensures r.0 == Copied(src) && r.1 == MovedFrom(src)
  {
    (Copied(src), MovedFrom(src))
  }

  /** Copying is a fixed point after one step: a second copy changes nothing. */
  lemma CopiedIdempotent(t: Tensor4d)
    ensures Copied(Copied(t)) == Copied(t)
  {
  }

  /** A copy equals its source exactly when the source already had
      `n_slices == n_size == n_cols`. */
  lemma CopiedFaithfulIff(t: Tensor4d)
    ensures Copied(t) == t <==> (t.nSlices == t.nCols && t.nSize == t.nCols)
  {
  }

  /** A well-formed tensor stays well-formed under copy exactly when its
      depth and its count both equal its width. */
  lemma CopiedWellFormedIff(t: Tensor4d)
    requires t.WellFormed() && t.nSize > 0
    ensures Copied(t).WellFormed() <==> (t.nSlices == t.nCols && t.nSize == t.nCols)
  {
    if Copied(t).WellFormed() {
      assert t.data[0].Shape() == (t.nRows, t.nCols, t.nSlices);
    }
  }

  /** The convolutional bias: `tensor4d(1, 1, depth, count)` moved into the
      layer keeps its `count` cubes of 1x1xdepth but claims one slice and a
      count of one. */
  lemma ConvolutionBiasMetadata(t: Tensor4d, depth: nat, count: nat)
    requires t.Shaped(1, 1, depth, count)
    ensures MoveAssign(t).0.nSlices == 1 && MoveAssign(t).0.nSize == 1
    ensures MoveAssign(t).0.CubesShaped(1, 1, depth) && |MoveAssign(t).0.data| == count
    ensures MoveAssign(t).0.WellFormed() <==> depth == 1 && count == 1
  {
    var b := MoveAssign(t).0;
    if b.WellFormed() {
      assert |b.data| == 1;
      assert b.data[0].Shape() == (1, 1, depth);
    }
  }

  /** A column-shaped bias `tensor4d(n, 1, 1, 1)` survives the move intact. */
  lemma ColumnBiasUnaffected(t: Tensor4d, n: nat)
    requires t.Shaped(n, 1, 1, 1)
    ensures MoveAssign(t).0 == t
  {
  }

  /** `kernel_size_t` and `pad_size_t`. */
  datatype KernelSize = KernelSize(height: nat, width: nat)

  /** `kernel_size_t(size)`: a square kernel. */
  function Square(size: nat): (k: KernelSize)
    ensures k.height == size && k.width == size
  {
    KernelSize(size, size)
  }
}
