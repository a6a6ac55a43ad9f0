/** The arithmetic of `ConvolutionalLayer`: zero padding, the output-shape
    law, the im2col layout, the matrix product that turns it into a
    cross-correlation, the bias loop and the activation slopes of the
    backward passes. The layer object itself is in `Layers`. */
module Convolution {
  import opened Cubes
  import opened Tensors
  import opened Activations

  // ---------------------------------------------------------------------
  // Sub-cubes and padding

  /** `x(span(r0, r0 + h - 1), span(c0, c0 + w - 1), span::all)`. */
  function Window(x: Cube<real>, r0: nat, c0: nat, h: nat, w: nat): (p: Cube<real>)
    requires x.Valid() && r0 + h <= x.rows && c0 + w <= x.cols
    ensures p.Valid() && p.Shape() == (h, w, x.slices)
    ensures forall i: nat, j: nat, s: nat :: i < h && j < w && s < x.slices ==> p.At(i, j, s) == x.At(r0 + i, c0 + j, s)
  {
    Tabulate(h, w, x.slices, (i: nat, j: nat, s: nat) requires i < h && j < w && s < x.slices => x.At(r0 + i, c0 + j, s))
  }

  /** The block assignment `dst(span(r0, ...), span(c0, ...), span::all) = src`. */
  function WriteBlock(dst: Cube<real>, r0: nat, c0: nat, src: Cube<real>): (y: Cube<real>)
    requires dst.Valid() && src.Valid() && src.slices == dst.slices
    requires r0 + src.rows <= dst.rows && c0 + src.cols <= dst.cols
    ensures y.Valid() && y.Shape() == dst.Shape()
    ensures forall r: nat, c: nat, s: nat :: dst.InBounds(r, c, s) ==>
      y.At(r, c, s) == if r0 <= r < r0 + src.rows && c0 <= c < c0 + src.cols then src.At(r - r0, c - c0, s) else dst.At(r, c, s)
  {
    Tabulate(dst.rows, dst.cols, dst.slices, (r: nat, c: nat, s: nat) requires dst.InBounds(r, c, s) =>
      if r0 <= r < r0 + src.rows && c0 <= c < c0 + src.cols then src.At(r - r0, c - c0, s) else dst.At(r, c, s))
  }

  /** `AddPadding`: a fresh all-zero cube with `padding` extra rows and
      columns on each side. */
  function AddPadding(rows: nat, cols: nat, slices: nat, padding: KernelSize): (x: Cube<real>)
    ensures x.Valid() && x.Shape() == (rows + 2 * padding.height, cols + 2 * padding.width, slices)
    ensures forall r: nat, c: nat, s: nat :: x.InBounds(r, c, s) ==> x.At(r, c, s) == 0.0
  {
    Zeros(rows + 2 * padding.height, cols + 2 * padding.width, slices)
  }

  /** The cube `Forward` stores in `input_`: without padding the input
      itself, receiving a copy of itself; otherwise a padded zero cube with
      the input copied in at offset (padH, padW). */
  function ForwardInput(x: Cube<real>, padding: KernelSize): (p: Cube<real>)
    requires x.Valid()
    ensures p.Valid() && p.Shape() == (x.rows + 2 * padding.height, x.cols + 2 * padding.width, x.slices)
  {
    var dst := if padding.height == 0 && padding.width == 0 then x else AddPadding(x.rows, x.cols, x.slices, padding);
    WriteBlock(dst, padding.height, padding.width, x)
  }

  /** Element (r, c, s) of the padded input is input element
      (r - padH, c - padW, s) inside the border and zero on it; both
      branches of `Forward` agree with this. */
  lemma ForwardInputAt(x: Cube<real>, padding: KernelSize, r: nat, c: nat, s: nat)
    requires x.Valid() && ForwardInput(x, padding).InBounds(r, c, s)
    ensures ForwardInput(x, padding).At(r, c, s) ==
      if padding.height <= r < padding.height + x.rows && padding.width <= c < padding.width + x.cols
      then x.At(r - padding.height, c - padding.width, s) else 0.0
  {
    var dst := if padding.height == 0 && padding.width == 0 then x else AddPadding(x.rows, x.cols, x.slices, padding);
    assert ForwardInput(x, padding) == WriteBlock(dst, padding.height, padding.width, x);
    assert dst.InBounds(r, c, s);
    if !(padding.height == 0 && padding.width == 0) {
      assert dst.At(r, c, s) == 0.0;
    }
  }

  /** p holds x at offset (r0, c0) and zeros around it. */
  ghost predicate PaddedCopy(p: Cube<real>, x: Cube<real>, r0: nat, c0: nat)
    requires p.Valid() && x.Valid()
  {
    && p.Shape() == (x.rows + 2 * r0, x.cols + 2 * c0, x.slices)
    && forall r: nat, c: nat, s: nat :: p.InBounds(r, c, s) ==>
         p.At(r, c, s) == if r0 <= r < r0 + x.rows && c0 <= c < c0 + x.cols then x.At(r - r0, c - c0, s) else 0.0
  }

  /** The padded input is a padded copy of the input. */
  lemma ForwardInputPadded(x: Cube<real>, padding: KernelSize)
    requires x.Valid()
    ensures PaddedCopy(ForwardInput(x, padding), x, padding.height, padding.width)
  {
    forall r: nat, c: nat, s: nat | ForwardInput(x, padding).InBounds(r, c, s)
      ensures ForwardInput(x, padding).At(r, c, s) ==
        if padding.height <= r < padding.height + x.rows && padding.width <= c < padding.width + x.cols
        then x.At(r - padding.height, c - padding.width, s) else 0.0
    {
      ForwardInputAt(x, padding, r, c, s);
    }
  }

  /** Without padding the input is used unchanged. */
  lemma UnpaddedInputUnchanged(x: Cube<real>)
    requires x.Valid()
    ensures ForwardInput(x, KernelSize(0, 0)) == x
  {
    Extensionality(ForwardInput(x, KernelSize(0, 0)), x);
  }

  /** Cropping the padding off gives the input back. */
  lemma PaddingCrop(x: Cube<real>, padding: KernelSize)
    requires x.Valid()
    ensures Window(ForwardInput(x, padding), padding.height, padding.width, x.rows, x.cols) == x
  {
    ForwardInputPadded(x, padding);
    CropInterior(ForwardInput(x, padding), x, padding.height, padding.width);
  }

  /** A cube that holds x at offset (r0, c0) gives x back when that block
      is cut out of it. */
  lemma CropInterior(p: Cube<real>, x: Cube<real>, r0: nat, c0: nat)
    requires p.Valid() && x.Valid() && PaddedCopy(p, x, r0, c0)
    ensures Window(p, r0, c0, x.rows, x.cols) == x
  {
    var w := Window(p, r0, c0, x.rows, x.cols);
    forall r: nat, c: nat, s: nat | w.InBounds(r, c, s) ensures w.At(r, c, s) == x.At(r, c, s) {
      assert w.At(r, c, s) == p.At(r0 + r, c0 + c, s);
      assert p.InBounds(r0 + r, c0 + c, s);
    }
    Extensionality(w, x);
  }

  // ---------------------------------------------------------------------
  // The output-shape law

  /** `(n - k) / stride + 1`: the number of output rows (or columns) for an
      (already padded) extent n and kernel extent k. */
  function OutputExtent(n: nat, k: nat, stride: nat): nat
    requires stride > 0 && k <= n
  {
    (n - k) / stride + 1
  }

  /** e windows of extent k at stride `stride` fit inside extent n. */
  predicate WindowsInside(n: nat, k: nat, e: nat, stride: nat) {
    e == 0 || (e - 1) * stride + k <= n
  }

  /** The computed number of windows is exactly the number that fit: the
      last one is inside, one more would not be; when the asserted
      divisibility holds, the last window ends at the border. */
  lemma OutputExtentLaw(n: nat, k: nat, stride: nat)
    requires stride > 0 && k <= n
    ensures WindowsInside(n, k, OutputExtent(n, k, stride), stride)
    ensures !WindowsInside(n, k, OutputExtent(n, k, stride) + 1, stride)
    ensures (n - k) % stride == 0 ==> (OutputExtent(n, k, stride) - 1) * stride + k == n
  {
    var q := (n - k) / stride;
    assert n - k == q * stride + (n - k) % stride;
  }

  /** Window i of e starts at i * stride and ends inside the extent. */
  lemma WindowInside(n: nat, k: nat, e: nat, stride: nat, i: nat)
    requires WindowsInside(n, k, e, stride) && i < e
    ensures i * stride + k <= n
  {
    MulMonotone(i, e - 1, stride);
  }

  // ---------------------------------------------------------------------
  // im2col

  /** The im2col column of output position (row, col): `col * height + row`. */
  function ColumnOf(row: nat, col: nat, height: nat): nat {
    col * height + row
  }

  lemma ColumnOfBound(row: nat, col: nat, height: nat, width: nat)
    requires row < height && col < width
    ensures ColumnOf(row, col, height) < height * width
  {
    MulMonotone(col + 1, width, height);
  }

  /** Every output position of a height x width grid has a column below n. */
  predicate ColumnsInside(height: nat, width: nat, n: nat) {
    forall row: nat, col: nat :: row < height && col < width ==> ColumnOf(row, col, height) < n
  }

  lemma ColumnsBound(height: nat, width: nat)
    ensures ColumnsInside(height, width, height * width)
  {
    forall row: nat, col: nat | row < height && col < width ensures ColumnOf(row, col, height) < height * width {
      ColumnOfBound(row, col, height, width);
    }
  }

  /** Distinct output positions use distinct columns. */
  lemma ColumnOfInjective(row: nat, col: nat, row': nat, col': nat, height: nat)
    requires row < height && row' < height && ColumnOf(row, col, height) == ColumnOf(row', col', height)
    ensures row == row' && col == col'
  {
    DivModUnique(col, row, col', row', height);
  }

  /** The input window feeding output position (row, col). */
  function Patch(x: Cube<real>, kH: nat, kW: nat, height: nat, width: nat, stride: nat, row: nat, col: nat): (p: Cube<real>)
    requires x.Valid() && row < height && col < width
    requires WindowsInside(x.rows, kH, height, stride) && WindowsInside(x.cols, kW, width, stride)
    ensures p.Valid() && p.Shape() == (kH, kW, x.slices)
    ensures forall i: nat, j: nat, s: nat :: i < kH && j < kW && s < x.slices ==>
      p.At(i, j, s) == x.At(row * stride + i, col * stride + j, s)
  {
    WindowInside(x.rows, kH, height, stride, row);
    WindowInside(x.cols, kW, width, stride, col);
    Window(x, row * stride, col * stride, kH, kW)
  }

  /** The memory image of a patch: `vectorise` of the window, slice after
      slice. */
  function PatchImage(x: Cube<real>, kH: nat, kW: nat, height: nat, width: nat, stride: nat, row: nat, col: nat): (v: seq<real>)
    requires x.Valid() && row < height && col < width
    requires WindowsInside(x.rows, kH, height, stride) && WindowsInside(x.cols, kW, width, stride)
    ensures |v| == kH * kW * x.slices
  {
    var p := Patch(x, kH, kW, height, width, stride, row, col);
    FlattenLength(p);
    Flatten(p)
  }

  /** The memory image of filter k. */
  function KernelImage(kernels: Tensor4d, k: nat): (v: seq<real>)
    requires kernels.WellFormed() && k < kernels.nSize
    ensures |v| == kernels.nRows * kernels.nCols * kernels.nSlices
  {
    FlattenLength(kernels.data[k]);
    Flatten(kernels.data[k])
  }

  /** The shape of the data matrix. */
  ghost predicate DataShaped(data: Cube<real>, x: Cube<real>, kH: nat, kW: nat, height: nat, width: nat) {
    data.Valid() && data.Shape() == (kH * kW * x.slices, height * width, 1)
  }

  /** Rows below `upto` of every column of the data matrix hold the patch
      images. */
  ghost predicate DataUpTo(data: Cube<real>, x: Cube<real>, kH: nat, kW: nat, height: nat, width: nat, stride: nat, upto: nat)
    requires x.Valid() && WindowsInside(x.rows, kH, height, stride) && WindowsInside(x.cols, kW, width, stride)
  {
    && DataShaped(data, x, kH, kW, height, width) && upto <= kH * kW * x.slices
    && forall row: nat, col: nat, q: nat :: row < height && col < width && q < upto ==>
         (ColumnOfBound(row, col, height, width);
          data.At(q, ColumnOf(row, col, height), 0) == PatchImage(x, kH, kW, height, width, stride, row, col)[q])
  }

  /** Rows lo .. lo + len - 1 of the columns of the positions before
      (row0, col0) in loop order hold the patch images. */
  ghost predicate DataBlock(data: Cube<real>, x: Cube<real>, kH: nat, kW: nat, height: nat, width: nat, stride: nat, lo: nat, len: nat, row0: nat, col0: nat)
    requires x.Valid() && WindowsInside(x.rows, kH, height, stride) && WindowsInside(x.cols, kW, width, stride)
    requires DataShaped(data, x, kH, kW, height, width) && lo + len <= kH * kW * x.slices
  {
    forall row: nat, col: nat, q: nat :: row < height && col < width && (col < col0 || (col == col0 && row < row0)) && lo <= q < lo + len ==>
      (ColumnOfBound(row, col, height, width);
       data.At(q, ColumnOf(row, col, height), 0) == PatchImage(x, kH, kW, height, width, stride, row, col)[q])
  }

  /** The first `upto` columns of every row of the kernel matrix hold the
      filter images. */
  ghost predicate KernelUpTo(kernel: Cube<real>, kernels: Tensor4d, depth: nat, upto: nat)
    requires kernels.WellFormed()
  {
    && kernel.Valid() && kernel.Shape() == (kernels.nSize, kernels.nRows * kernels.nCols * depth, 1)
    && upto <= kernels.nRows * kernels.nCols * depth && upto <= kernels.nRows * kernels.nCols * kernels.nSlices
    && forall k: nat, q: nat :: k < kernels.nSize && q < upto ==> kernel.At(k, q, 0) == KernelImage(kernels, k)[q]
  }

  /** Columns lo .. lo + len - 1 of the rows below `done` of the kernel
      matrix hold the filter images. */
  ghost predicate KernelBlock(kernel: Cube<real>, kernels: Tensor4d, lo: nat, len: nat, done: nat)
    requires kernels.WellFormed() && kernel.Valid() && kernel.rows == kernels.nSize && kernel.slices == 1
    requires lo + len <= kernel.cols && lo + len <= kernels.nRows * kernels.nCols * kernels.nSlices && done <= kernels.nSize
  {
    forall k: nat, q: nat :: k < done && lo <= q < lo + len ==> kernel.At(k, q, 0) == KernelImage(kernels, k)[q]
  }

  /** The row-span assignment `x(row, span(start, start + |v| - 1))` on
      slice `slice`. */
  function WriteRowSpan(x: Cube<real>, row: nat, start: nat, slice: nat, v: seq<real>): (y: Cube<real>)
    requires x.Valid() && row < x.rows && start + |v| <= x.cols && slice < x.slices
    ensures y.Valid() && y.Shape() == x.Shape()
    ensures forall r: nat, c: nat, s: nat :: x.InBounds(r, c, s) ==>
      y.At(r, c, s) == if r == row && s == slice && start <= c < start + |v| then v[c - start] else x.At(r, c, s)
  {
    Tabulate(x.rows, x.cols, x.slices, (r: nat, c: nat, s: nat) requires x.InBounds(r, c, s) =>
      if r == row && s == slice && start <= c < start + |v| then v[c - start] else x.At(r, c, s))
  }

  /** Writing the slice-c image of a cube p into a column at offset
      c * rows * cols puts the entries of p's image there. */
  lemma WrittenColumn(data: Cube<real>, data': Cube<real>, p: Cube<real>, c: nat, base: nat, j: nat, q: nat)
    requires data.Valid() && p.Valid() && c < p.slices && base == c * (p.rows * p.cols)
    requires base <= q < base + p.rows * p.cols <= data.rows && j < data.cols && data.slices > 0
    requires data' == WriteColumnSpan(data, base, j, 0, SliceImage(p, c))
    ensures q < |Flatten(p)| && data'.At(q, j, 0) == Flatten(p)[q]
  {
    FlattenSliceAt(p, c, base, q - base);
  }

  /** The first row of the data matrix that holds slice c of a kH x kW
      window. */
  function SliceRow(c: nat, kH: nat, kW: nat): nat {
    c * (kH * kW)
  }

  /** The data loop's write at (row, col) leaves every other column, and
      the rows below base of its own column, as they were. */
  lemma KeptColumn(data: Cube<real>, data': Cube<real>, x: Cube<real>, kH: nat, kW: nat, height: nat, width: nat, c: nat, row: nat, col: nat, v: seq<real>, row': nat, col': nat, q: nat)
    requires DataShaped(data, x, kH, kW, height, width)
    requires row < height && col < width && row' < height && col' < width && q < kH * kW * x.slices
    requires (row', col') != (row, col) || q < SliceRow(c, kH, kW)
    requires ColumnOf(row, col, height) < height * width && SliceRow(c, kH, kW) + |v| <= kH * kW * x.slices
    requires data' == WriteColumnSpan(data, SliceRow(c, kH, kW), ColumnOf(row, col, height), 0, v)
    ensures ColumnOf(row', col', height) < height * width
    ensures data'.At(q, ColumnOf(row', col', height), 0) == data.At(q, ColumnOf(row', col', height), 0)
  {
    ColumnOfBound(row', col', height, width);
    if (row', col') != (row, col) && ColumnOf(row', col', height) == ColumnOf(row, col, height) {
      ColumnOfInjective(row', col', row, col, height);
    }
  }

  /** One step of the data loop: writing the slice-c image of the window of
      (row, col) extends the block by that position. */
  lemma DataStep(data: Cube<real>, data': Cube<real>, x: Cube<real>, kH: nat, kW: nat, height: nat, width: nat, stride: nat, c: nat, row: nat, col: nat)
    requires x.Valid() && WindowsInside(x.rows, kH, height, stride) && WindowsInside(x.cols, kW, width, stride)
    requires c < x.slices && row < height && col < width
    requires DataUpTo(data, x, kH, kW, height, width, stride, SliceRow(c, kH, kW))
    requires SliceRow(c, kH, kW) + kH * kW <= kH * kW * x.slices
    requires DataBlock(data, x, kH, kW, height, width, stride, SliceRow(c, kH, kW), kH * kW, row, col)
    requires ColumnOf(row, col, height) < height * width
    requires data' == WriteColumnSpan(data, SliceRow(c, kH, kW), ColumnOf(row, col, height), 0,
      SliceImage(Patch(x, kH, kW, height, width, stride, row, col), c))
    ensures DataUpTo(data', x, kH, kW, height, width, stride, SliceRow(c, kH, kW))
    ensures DataBlock(data', x, kH, kW, height, width, stride, SliceRow(c, kH, kW), kH * kW, row + 1, col)
  {
    DataStepKept(data, data', x, kH, kW, height, width, stride, c, row, col);
    DataStepWritten(data, data', x, kH, kW, height, width, stride, c, row, col);
  }

  /** The step leaves the rows of earlier slices as they were. */
  lemma DataStepKept(data: Cube<real>, data': Cube<real>, x: Cube<real>, kH: nat, kW: nat, height: nat, width: nat, stride: nat, c: nat, row: nat, col: nat)
    requires x.Valid() && WindowsInside(x.rows, kH, height, stride) && WindowsInside(x.cols, kW, width, stride)
    requires c < x.slices && row < height && col < width
    requires DataUpTo(data, x, kH, kW, height, width, stride, SliceRow(c, kH, kW))
    requires SliceRow(c, kH, kW) + kH * kW <= kH * kW * x.slices
    requires DataBlock(data, x, kH, kW, height, width, stride, SliceRow(c, kH, kW), kH * kW, row, col)
    requires ColumnOf(row, col, height) < height * width
    requires data' == WriteColumnSpan(data, SliceRow(c, kH, kW), ColumnOf(row, col, height), 0,
      SliceImage(Patch(x, kH, kW, height, width, stride, row, col), c))
    ensures DataUpTo(data', x, kH, kW, height, width, stride, SliceRow(c, kH, kW))
  {
    var ks := kH * kW;
    var base := SliceRow(c, kH, kW);
    var v := SliceImage(Patch(x, kH, kW, height, width, stride, row, col), c);
    forall row': nat, col': nat, q: nat | row' < height && col' < width && q < base
      ensures ColumnOf(row', col', height) < height * width
      ensures data'.At(q, ColumnOf(row', col', height), 0) == PatchImage(x, kH, kW, height, width, stride, row', col')[q]
    {
      KeptColumn(data, data', x, kH, kW, height, width, c, row, col, v, row', col', q);
    }
  }

  /** The step writes the window's rows of slice c. */
  lemma DataStepWritten(data: Cube<real>, data': Cube<real>, x: Cube<real>, kH: nat, kW: nat, height: nat, width: nat, stride: nat, c: nat, row: nat, col: nat)
    requires x.Valid() && WindowsInside(x.rows, kH, height, stride) && WindowsInside(x.cols, kW, width, stride)
    requires c < x.slices && row < height && col < width
    requires DataUpTo(data, x, kH, kW, height, width, stride, SliceRow(c, kH, kW))
    requires SliceRow(c, kH, kW) + kH * kW <= kH * kW * x.slices
    requires DataBlock(data, x, kH, kW, height, width, stride, SliceRow(c, kH, kW), kH * kW, row, col)
    requires ColumnOf(row, col, height) < height * width
    requires data' == WriteColumnSpan(data, SliceRow(c, kH, kW), ColumnOf(row, col, height), 0,
      SliceImage(Patch(x, kH, kW, height, width, stride, row, col), c))
    ensures DataShaped(data', x, kH, kW, height, width)
    ensures DataBlock(data', x, kH, kW, height, width, stride, SliceRow(c, kH, kW), kH * kW, row + 1, col)
  {
    var ks := kH * kW;
    var base := SliceRow(c, kH, kW);
    var v := SliceImage(Patch(x, kH, kW, height, width, stride, row, col), c);
    forall row': nat, col': nat, q: nat | row' < height && col' < width && (col' < col || (col' == col && row' < row + 1)) && base <= q < base + ks
      ensures ColumnOf(row', col', height) < height * width
      ensures data'.At(q, ColumnOf(row', col', height), 0) == PatchImage(x, kH, kW, height, width, stride, row', col')[q]
    {
      ColumnOfBound(row', col', height, width);
      if (row', col') != (row, col) {
        BlockAt(data, x, kH, kW, height, width, stride, base, ks, row, col, row', col', q);
      }
      DataStepAt(data, data', x, kH, kW, height, width, stride, c, row, col, row', col', q);
    }
  }

  /** One element of the step: the written column holds the window's
      image, every other column what the block held before. */
  lemma DataStepAt(data: Cube<real>, data': Cube<real>, x: Cube<real>, kH: nat, kW: nat, height: nat, width: nat, stride: nat,
                   c: nat, row: nat, col: nat, row': nat, col': nat, q: nat)
    requires x.Valid() && WindowsInside(x.rows, kH, height, stride) && WindowsInside(x.cols, kW, width, stride)
    requires DataShaped(data, x, kH, kW, height, width)
    requires c < x.slices && row < height && col < width && row' < height && col' < width
    requires SliceRow(c, kH, kW) <= q < SliceRow(c, kH, kW) + kH * kW <= kH * kW * x.slices
    requires ColumnOf(row, col, height) < height * width && ColumnOf(row', col', height) < height * width
    requires data' == WriteColumnSpan(data, SliceRow(c, kH, kW), ColumnOf(row, col, height), 0,
      SliceImage(Patch(x, kH, kW, height, width, stride, row, col), c))
    requires (row', col') != (row, col) ==>
      data.At(q, ColumnOf(row', col', height), 0) == PatchImage(x, kH, kW, height, width, stride, row', col')[q]
    ensures data'.At(q, ColumnOf(row', col', height), 0) == PatchImage(x, kH, kW, height, width, stride, row', col')[q]
  {
    if (row', col') == (row, col) {
      WrittenPatch(data, data', x, kH, kW, height, width, stride, c, row, col, q);
      assert PatchImage(x, kH, kW, height, width, stride, row, col) == Flatten(Patch(x, kH, kW, height, width, stride, row, col));
    } else {
      var p := Patch(x, kH, kW, height, width, stride, row, col);
      KeptColumn(data, data', x, kH, kW, height, width, c, row, col, SliceImage(p, c), row', col', q);
    }
  }

  /** The written column holds the window's image at the rows of slice c. */
  lemma WrittenPatch(data: Cube<real>, data': Cube<real>, x: Cube<real>, kH: nat, kW: nat, height: nat, width: nat, stride: nat,
                     c: nat, row: nat, col: nat, q: nat)
    requires x.Valid() && WindowsInside(x.rows, kH, height, stride) && WindowsInside(x.cols, kW, width, stride)
    requires DataShaped(data, x, kH, kW, height, width)
    requires c < x.slices && row < height && col < width
    requires SliceRow(c, kH, kW) <= q < SliceRow(c, kH, kW) + kH * kW <= kH * kW * x.slices
    requires ColumnOf(row, col, height) < height * width
    requires data' == WriteColumnSpan(data, SliceRow(c, kH, kW), ColumnOf(row, col, height), 0,
      SliceImage(Patch(x, kH, kW, height, width, stride, row, col), c))
    ensures q < |Flatten(Patch(x, kH, kW, height, width, stride, row, col))|
    ensures data'.At(q, ColumnOf(row, col, height), 0) == Flatten(Patch(x, kH, kW, height, width, stride, row, col))[q]
  {
    var p := Patch(x, kH, kW, height, width, stride, row, col);
    WrittenColumn(data, data', p, c, SliceRow(c, kH, kW), ColumnOf(row, col, height), q);
  }

  /** One element of a block. */
  lemma BlockAt(data: Cube<real>, x: Cube<real>, kH: nat, kW: nat, height: nat, width: nat, stride: nat,
                lo: nat, len: nat, row0: nat, col0: nat, row: nat, col: nat, q: nat)
    requires x.Valid() && WindowsInside(x.rows, kH, height, stride) && WindowsInside(x.cols, kW, width, stride)
    requires DataShaped(data, x, kH, kW, height, width) && lo + len <= kH * kW * x.slices
    requires DataBlock(data, x, kH, kW, height, width, stride, lo, len, row0, col0)
    requires row < height && col < width && (col < col0 || (col == col0 && row < row0)) && lo <= q < lo + len
    ensures ColumnOf(row, col, height) < height * width
    ensures data.At(q, ColumnOf(row, col, height), 0) == PatchImage(x, kH, kW, height, width, stride, row, col)[q]
  {
    ColumnOfBound(row, col, height, width);
  }

  /** A finished row loop moves the block on to the next column. */
  lemma DataNextColumn(data: Cube<real>, x: Cube<real>, kH: nat, kW: nat, height: nat, width: nat, stride: nat, lo: nat, len: nat, col: nat)
    requires x.Valid() && WindowsInside(x.rows, kH, height, stride) && WindowsInside(x.cols, kW, width, stride)
    requires DataShaped(data, x, kH, kW, height, width) && lo + len <= kH * kW * x.slices
    requires DataBlock(data, x, kH, kW, height, width, stride, lo, len, height, col)
    ensures DataBlock(data, x, kH, kW, height, width, stride, lo, len, 0, col + 1)
  {
  }

  /** A block covering every position extends the prefix of rows. */
  lemma DataExtend(data: Cube<real>, x: Cube<real>, kH: nat, kW: nat, height: nat, width: nat, stride: nat, lo: nat, len: nat)
    requires x.Valid() && WindowsInside(x.rows, kH, height, stride) && WindowsInside(x.cols, kW, width, stride)
    requires DataUpTo(data, x, kH, kW, height, width, stride, lo) && lo + len <= kH * kW * x.slices
    requires DataBlock(data, x, kH, kW, height, width, stride, lo, len, 0, width)
    ensures DataUpTo(data, x, kH, kW, height, width, stride, lo + len)
  {
  }

  /** The row and column loops of `im2col` for slice c: rows base ..
      base + kH * kW - 1 of every column receive the slice-c image of that
      column's patch. */
  method DataSlice(data: Cube<real>, x: Cube<real>, kH: nat, kW: nat, height: nat, width: nat, stride: nat, c: nat, base: nat) returns (out: Cube<real>)
    requires x.Valid() && WindowsInside(x.rows, kH, height, stride) && WindowsInside(x.cols, kW, width, stride)
    requires c < x.slices && base == c * (kH * kW) && base + kH * kW <= kH * kW * x.slices
    requires DataUpTo(data, x, kH, kW, height, width, stride, base)
    ensures DataUpTo(out, x, kH, kW, height, width, stride, base + kH * kW)
  {
    var ks := kH * kW;
    out := data;
    for col := 0 to width
      invariant DataUpTo(out, x, kH, kW, height, width, stride, base)
      invariant DataBlock(out, x, kH, kW, height, width, stride, base, ks, 0, col)
    {
      for row := 0 to height
        invariant DataUpTo(out, x, kH, kW, height, width, stride, base)
        invariant DataBlock(out, x, kH, kW, height, width, stride, base, ks, row, col)
      {
        ColumnOfBound(row, col, height, width);
        var next := WriteColumnSpan(out, base, ColumnOf(row, col, height), 0,
          SliceImage(Patch(x, kH, kW, height, width, stride, row, col), c));
        DataStep(out, next, x, kH, kW, height, width, stride, c, row, col);
        out := next;
      }
      DataNextColumn(out, x, kH, kW, height, width, stride, base, ks, col);
    }
    DataExtend(out, x, kH, kW, height, width, stride, base, ks);
  }

  /** Writing the slice-c image of filter k into row k of the kernel matrix
      puts the entries of the filter's image there. */
  lemma KernelStep(kernel: Cube<real>, kernel': Cube<real>, kernels: Tensor4d, c: nat, base: nat, k: nat)
    requires kernels.WellFormed() && k < kernels.nSize && c < kernels.nSlices
    requires kernel.Valid() && kernel.rows == kernels.nSize && kernel.slices == 1
    requires base == c * (kernels.nRows * kernels.nCols) && base + kernels.nRows * kernels.nCols <= kernel.cols
    requires base + kernels.nRows * kernels.nCols <= kernels.nRows * kernels.nCols * kernels.nSlices
    requires KernelBlock(kernel, kernels, base, kernels.nRows * kernels.nCols, k)
    requires kernel' == WriteRowSpan(kernel, k, base, 0, SliceImage(kernels.data[k], c))
    ensures kernel'.Valid() && kernel'.Shape() == kernel.Shape()
    ensures forall k': nat, q: nat :: k' < kernels.nSize && q < base ==> kernel'.At(k', q, 0) == kernel.At(k', q, 0)
    ensures KernelBlock(kernel', kernels, base, kernels.nRows * kernels.nCols, k + 1)
  {
    var ks := kernels.nRows * kernels.nCols;
    forall k': nat, q: nat | k' < k + 1 && base <= q < base + ks
      ensures kernel'.At(k', q, 0) == KernelImage(kernels, k')[q]
    {
      if k' == k {
        FlattenSliceAt(kernels.data[k], c, base, q - base);
      }
    }
  }

  /** The filter loop of `im2col` for slice c. */
  method KernelSlice(kernel: Cube<real>, kernels: Tensor4d, depth: nat, c: nat, base: nat) returns (out: Cube<real>)
    requires kernels.WellFormed() && c < depth <= kernels.nSlices
    requires base == c * (kernels.nRows * kernels.nCols) && base + kernels.nRows * kernels.nCols <= kernels.nRows * kernels.nCols * depth
    requires KernelUpTo(kernel, kernels, depth, base)
    ensures KernelUpTo(out, kernels, depth, base + kernels.nRows * kernels.nCols)
  {
    var ks := kernels.nRows * kernels.nCols;
    MulMonotone(depth, kernels.nSlices, ks);
    out := kernel;
    for k := 0 to kernels.nSize
      invariant KernelUpTo(out, kernels, depth, base)
      invariant KernelBlock(out, kernels, base, ks, k)
    {
      var next := WriteRowSpan(out, k, base, 0, SliceImage(kernels.data[k], c));
      KernelStep(out, next, kernels, c, base, k);
      out := next;
    }
  }

  /** Slice c's block of kernel_size rows ends inside the matrix and the
      next block starts right after it. */
  lemma SliceBound(c: nat, depth: nat, ks: nat)
    requires c < depth
    ensures c * ks + ks <= ks * depth && (c + 1) * ks == c * ks + ks
  {
    MulMonotone(c + 1, depth, ks);
  }

  /** `im2col` (the `tensor4d` overload): column col * height + row of the
      data matrix is the image of the input window at (row * stride,
      col * stride), slice after slice; row k of the kernel matrix is the
      image of filter k, cut to the input's depth. */
  method Im2col(x: Cube<real>, kernels: Tensor4d, height: nat, width: nat, stride: nat) returns (data: Cube<real>, kernel: Cube<real>)
    requires x.Valid() && kernels.WellFormed() && x.slices <= kernels.nSlices
    requires WindowsInside(x.rows, kernels.nRows, height, stride) && WindowsInside(x.cols, kernels.nCols, width, stride)
    ensures DataUpTo(data, x, kernels.nRows, kernels.nCols, height, width, stride, kernels.nRows * kernels.nCols * x.slices)
    ensures KernelUpTo(kernel, kernels, x.slices, kernels.nRows * kernels.nCols * x.slices)
  {
    var kH, kW := kernels.nRows, kernels.nCols;
    var ks := kH * kW;
    var depth := x.slices;
    MulMonotone(depth, kernels.nSlices, ks);
    data := Allocated(ks * depth, height * width, 1);
    kernel := Allocated(kernels.nSize, ks * depth, 1);
    for c := 0 to depth
      invariant DataUpTo(data, x, kH, kW, height, width, stride, c * ks)
      invariant KernelUpTo(kernel, kernels, depth, c * ks)
    {
      SliceBound(c, depth, ks);
      data := DataSlice(data, x, kH, kW, height, width, stride, c, c * ks);
      kernel := KernelSlice(kernel, kernels, depth, c, c * ks);
    }
  }

  // ---------------------------------------------------------------------
  // The product kernel2col * input2col is a cross-correlation

  /** Σ_{q < n} a(i, q) * b(q, j): entry (i, j) of the matrix product
      `a * b` summed over its first n terms. */
  function RowTimesColumn(a: Cube<real>, b: Cube<real>, i: nat, j: nat, n: nat): real
    requires a.Valid() && b.Valid() && a.slices > 0 && b.slices > 0
    requires i < a.rows && j < b.cols && n <= a.cols && n <= b.rows
  {
    if n == 0 then 0.0 else RowTimesColumn(a, b, i, j, n - 1) + a.At(i, n - 1, 0) * b.At(n - 1, j, 0)
  }

  /** Armadillo's matrix product `a * b` on slice 0. */
  function MatMul(a: Cube<real>, b: Cube<real>): (m: Cube<real>)
    requires a.Valid() && b.Valid() && a.slices > 0 && b.slices > 0 && a.cols == b.rows
    ensures m.Valid() && m.Shape() == (a.rows, b.cols, 1)
    ensures forall i: nat, j: nat :: i < a.rows && j < b.cols ==> m.At(i, j, 0) == RowTimesColumn(a, b, i, j, a.cols)
  {
    Tabulate(a.rows, b.cols, 1, (i: nat, j: nat, s: nat) requires i < a.rows && j < b.cols => RowTimesColumn(a, b, i, j, a.cols))
  }

  /** Σ_{t < n} u[base + t] * v[base + t]. */
  function FlatDot(u: seq<real>, v: seq<real>, base: nat, n: nat): real
    requires base + n <= |u| && base + n <= |v|
  {
    if n == 0 then 0.0 else FlatDot(u, v, base, n - 1) + u[base + n - 1] * v[base + n - 1]
  }

  /** Σ_{i < n} w(i, j, ch) * p(i, j, ch): column j of channel ch. */
  function Taps(w: Cube<real>, p: Cube<real>, ch: nat, j: nat, n: nat): real
    requires w.Valid() && p.Valid() && w.rows == p.rows && w.cols == p.cols
    requires ch < w.slices && ch < p.slices && j < w.cols && n <= w.rows
  {
    if n == 0 then 0.0 else Taps(w, p, ch, j, n - 1) + w.At(n - 1, j, ch) * p.At(n - 1, j, ch)
  }

  /** Σ_{j < n} Σ_i w(i, j, ch) * p(i, j, ch): channel ch. */
  function ChannelTaps(w: Cube<real>, p: Cube<real>, ch: nat, n: nat): real
    requires w.Valid() && p.Valid() && w.rows == p.rows && w.cols == p.cols
    requires ch < w.slices && ch < p.slices && n <= w.cols
  {
    if n == 0 then 0.0 else ChannelTaps(w, p, ch, n - 1) + Taps(w, p, ch, n - 1, w.rows)
  }

  /** The cross-correlation of filter w with a window p over the first n
      channels: Σ_{ch < n} Σ_j Σ_i w(i, j, ch) * p(i, j, ch). */
  function Correlation(w: Cube<real>, p: Cube<real>, n: nat): real
    requires w.Valid() && p.Valid() && w.rows == p.rows && w.cols == p.cols
    requires n <= w.slices && n <= p.slices
  {
    if n == 0 then 0.0 else Correlation(w, p, n - 1) + ChannelTaps(w, p, n - 1, w.cols)
  }

  /** A matrix entry whose row and column agree with two sequences is their
      dot product. */
  lemma {:induction false} RowTimesColumnFlat(a: Cube<real>, b: Cube<real>, i: nat, j: nat, n: nat, u: seq<real>, v: seq<real>)
    requires a.Valid() && b.Valid() && a.slices > 0 && b.slices > 0
    requires i < a.rows && j < b.cols && n <= a.cols && n <= b.rows && n <= |u| && n <= |v|
    requires forall q: nat :: q < n ==> a.At(i, q, 0) == u[q] && b.At(q, j, 0) == v[q]
    ensures RowTimesColumn(a, b, i, j, n) == FlatDot(u, v, 0, n)
  {
    if n > 0 {
      RowTimesColumnFlat(a, b, i, j, n - 1, u, v);
    }
  }

  lemma {:induction false} FlatDotSplit(u: seq<real>, v: seq<real>, base: nat, m: nat, n: nat)
    requires base + m + n <= |u| && base + m + n <= |v|
    ensures FlatDot(u, v, base, m + n) == FlatDot(u, v, base, m) + FlatDot(u, v, base + m, n)
  {
    if n > 0 {
      FlatDotSplit(u, v, base, m, n - 1);
    }
  }

  /** Column j of channel ch occupies `rows` consecutive positions of the
      images. */
  lemma {:induction false} ColumnFlat(w: Cube<real>, p: Cube<real>, ch: nat, j: nat, n: nat)
    requires w.Valid() && p.Valid() && w.rows == p.rows && w.cols == p.cols
    requires ch < w.slices && ch < p.slices && j < w.cols && n <= w.rows
    ensures Index(w.rows, w.cols, 0, j, ch) + n <= |Flatten(w)| && Index(w.rows, w.cols, 0, j, ch) + n <= |Flatten(p)|
    ensures FlatDot(Flatten(w), Flatten(p), Index(w.rows, w.cols, 0, j, ch), n) == Taps(w, p, ch, j, n)
  {
    if n == 0 {
      if w.rows == 0 {
        assert Index(w.rows, w.cols, 0, j, ch) == 0;
        FlattenLength(w);
        FlattenLength(p);
      } else {
        FlattenAt(w, 0, j, ch);
        FlattenAt(p, 0, j, ch);
      }
    } else {
      ColumnFlat(w, p, ch, j, n - 1);
      FlattenAt(w, n - 1, j, ch);
      FlattenAt(p, n - 1, j, ch);
    }
  }

  /** Channel ch starts inside both images. */
  lemma ChannelStart(w: Cube<real>, p: Cube<real>, ch: nat)
    requires w.Valid() && p.Valid() && w.rows == p.rows && w.cols == p.cols
    requires ch < w.slices && ch < p.slices
    ensures Index(w.rows, w.cols, 0, 0, ch) + w.rows * w.cols <= |Flatten(w)|
    ensures Index(w.rows, w.cols, 0, 0, ch) + w.rows * w.cols <= |Flatten(p)|
  {
    FlattenLength(w);
    FlattenLength(p);
    MulMonotone(ch + 1, w.slices, w.rows * w.cols);
    MulMonotone(ch + 1, p.slices, w.rows * w.cols);
    assert w.slices * (w.rows * w.cols) == w.NElem();
    assert p.slices * (w.rows * w.cols) == p.NElem();
  }

  /** The next column of channel ch starts where the previous ones end. */
  lemma NextColumnStart(rows: nat, cols: nat, ch: nat, n: nat)
    requires n > 0
    ensures Index(rows, cols, 0, n - 1, ch) == Index(rows, cols, 0, 0, ch) + (n - 1) * rows
    ensures n * rows == (n - 1) * rows + rows
  {
    ShiftRow(n, 0, rows);
  }

  /** Channel ch occupies rows * cols consecutive positions of the images. */
  lemma {:induction false} ChannelFlat(w: Cube<real>, p: Cube<real>, ch: nat, n: nat)
    requires w.Valid() && p.Valid() && w.rows == p.rows && w.cols == p.cols
    requires ch < w.slices && ch < p.slices && n <= w.cols
    ensures Index(w.rows, w.cols, 0, 0, ch) + n * w.rows <= |Flatten(w)| && Index(w.rows, w.cols, 0, 0, ch) + n * w.rows <= |Flatten(p)|
    ensures FlatDot(Flatten(w), Flatten(p), Index(w.rows, w.cols, 0, 0, ch), n * w.rows) == ChannelTaps(w, p, ch, n)
  {
    if n == 0 {
      ChannelStart(w, p, ch);
    } else {
      ChannelFlat(w, p, ch, n - 1);
      NextColumnStart(w.rows, w.cols, ch, n);
      ChannelFlatStep(w, p, ch, n, Flatten(w), Flatten(p), Index(w.rows, w.cols, 0, 0, ch), (n - 1) * w.rows);
    }
  }

  /** The inductive step of `ChannelFlat`: column n - 1 follows the first
      n - 1 columns, which fill m positions from base on. */
  lemma ChannelFlatStep(w: Cube<real>, p: Cube<real>, ch: nat, n: nat, u: seq<real>, v: seq<real>, base: nat, m: nat)
    requires w.Valid() && p.Valid() && w.rows == p.rows && w.cols == p.cols
    requires ch < w.slices && ch < p.slices && 0 < n <= w.cols
    requires u == Flatten(w) && v == Flatten(p)
    requires base == Index(w.rows, w.cols, 0, 0, ch) && base + m == Index(w.rows, w.cols, 0, n - 1, ch)
    requires base + m <= |u| && base + m <= |v| && FlatDot(u, v, base, m) == ChannelTaps(w, p, ch, n - 1)
    ensures base + m + w.rows <= |u| && base + m + w.rows <= |v|
    ensures FlatDot(u, v, base, m + w.rows) == ChannelTaps(w, p, ch, n)
  {
    ColumnFlat(w, p, ch, n - 1, w.rows);
    FlatDotSplit(u, v, base, m, w.rows);
  }

  /** The images' dot product over the first n channels is the
      cross-correlation over those channels. */
  lemma {:induction false} CorrelationFlat(w: Cube<real>, p: Cube<real>, n: nat, len: nat)
    requires w.Valid() && p.Valid() && w.rows == p.rows && w.cols == p.cols
    requires n <= w.slices && n <= p.slices && len == n * (w.rows * w.cols)
    ensures len <= |Flatten(w)| && len <= |Flatten(p)|
    ensures FlatDot(Flatten(w), Flatten(p), 0, len) == Correlation(w, p, n)
  {
    if n == 0 {
      FlattenLength(w);
      FlattenLength(p);
    } else {
      var m := (n - 1) * (w.rows * w.cols);
      CorrelationFlat(w, p, n - 1, m);
      ChannelFlat(w, p, n - 1, w.cols);
      NextChannelStart(w.rows, w.cols, n);
      CorrelationFlatStep(w, p, n, Flatten(w), Flatten(p), m, w.cols * w.rows, len);
    }
  }

  /** Channel n - 1 starts after the first n - 1 channels. */
  lemma NextChannelStart(rows: nat, cols: nat, n: nat)
    requires n > 0
    ensures Index(rows, cols, 0, 0, n - 1) == (n - 1) * (rows * cols)
    ensures n * (rows * cols) == (n - 1) * (rows * cols) + cols * rows
  {
    ShiftRow(n, 0, rows * cols);
  }

  /** The inductive step of `CorrelationFlat`: channel n - 1 fills the
      positions m .. len - 1. */
  lemma CorrelationFlatStep(w: Cube<real>, p: Cube<real>, n: nat, u: seq<real>, v: seq<real>, m: nat, area: nat, len: nat)
    requires w.Valid() && p.Valid() && w.rows == p.rows && w.cols == p.cols
    requires 0 < n <= w.slices && n <= p.slices
    requires u == Flatten(w) && v == Flatten(p)
    requires m == Index(w.rows, w.cols, 0, 0, n - 1) && area == w.cols * w.rows && len == m + area
    requires len <= |u| && len <= |v|
    requires FlatDot(u, v, 0, m) == Correlation(w, p, n - 1)
    requires FlatDot(u, v, m, area) == ChannelTaps(w, p, n - 1, w.cols)
    ensures FlatDot(u, v, 0, len) == Correlation(w, p, n)
  {
    FlatDotSplit(u, v, 0, m, area);
  }

  /** Row k of a filled kernel matrix is the image of filter k. */
  lemma KernelRowImage(kernel: Cube<real>, kernels: Tensor4d, depth: nat, k: nat)
    requires kernels.WellFormed() && KernelUpTo(kernel, kernels, depth, kernels.nRows * kernels.nCols * depth)
    requires k < kernels.nSize
    ensures kernels.nRows * kernels.nCols * depth <= |Flatten(kernels.data[k])|
    ensures forall q: nat :: q < kernels.nRows * kernels.nCols * depth ==> kernel.At(k, q, 0) == Flatten(kernels.data[k])[q]
  {
    assert KernelImage(kernels, k) == Flatten(kernels.data[k]);
  }

  /** Column col * height + row of a filled data matrix is the image of the
      patch at (row, col). */
  lemma DataColumnImage(data: Cube<real>, x: Cube<real>, kH: nat, kW: nat, height: nat, width: nat, stride: nat, row: nat, col: nat)
    requires x.Valid() && WindowsInside(x.rows, kH, height, stride) && WindowsInside(x.cols, kW, width, stride)
    requires DataUpTo(data, x, kH, kW, height, width, stride, kH * kW * x.slices)
    requires row < height && col < width
    ensures ColumnOf(row, col, height) < height * width
    ensures kH * kW * x.slices <= |Flatten(Patch(x, kH, kW, height, width, stride, row, col))|
    ensures forall q: nat :: q < kH * kW * x.slices ==>
      data.At(q, ColumnOf(row, col, height), 0) == Flatten(Patch(x, kH, kW, height, width, stride, row, col))[q]
  {
    ColumnOfBound(row, col, height, width);
    assert PatchImage(x, kH, kW, height, width, stride, row, col) == Flatten(Patch(x, kH, kW, height, width, stride, row, col));
  }

  /** Entry (k, col * height + row) of kernel2col * input2col is the
      cross-correlation of filter k with the input window at (row * stride,
      col * stride), over the input's channels. */
  lemma Im2colProduct(x: Cube<real>, kernels: Tensor4d, height: nat, width: nat, stride: nat, data: Cube<real>, kernel: Cube<real>, k: nat, row: nat, col: nat)
    requires x.Valid() && kernels.WellFormed() && x.slices <= kernels.nSlices
    requires WindowsInside(x.rows, kernels.nRows, height, stride) && WindowsInside(x.cols, kernels.nCols, width, stride)
    requires DataUpTo(data, x, kernels.nRows, kernels.nCols, height, width, stride, kernels.nRows * kernels.nCols * x.slices)
    requires KernelUpTo(kernel, kernels, x.slices, kernels.nRows * kernels.nCols * x.slices)
    requires k < kernels.nSize && row < height && col < width
    ensures ColumnOf(row, col, height) < height * width
    ensures MatMul(kernel, data).At(k, ColumnOf(row, col, height), 0)
         == Correlation(kernels.data[k], Patch(x, kernels.nRows, kernels.nCols, height, width, stride, row, col), x.slices)
  {
    var kH, kW := kernels.nRows, kernels.nCols;
    var w := kernels.data[k];
    var p := Patch(x, kH, kW, height, width, stride, row, col);
    Im2colFlat(x, kernels, height, width, stride, data, kernel, k, row, col);
    assert w.rows == kH && w.cols == kW;
    SameLength(kH, kW, x.slices, w.rows, w.cols);
    CorrelationFlat(w, p, x.slices, kH * kW * x.slices);
  }

  lemma SameLength(kH: nat, kW: nat, depth: nat, rows: nat, cols: nat)
    requires rows == kH && cols == kW
    ensures kH * kW * depth == depth * (rows * cols)
  {
  }

  /** Entry (k, col * height + row) of kernel2col * input2col is the dot
      product of the images of filter k and of the patch at (row, col). */
  lemma Im2colFlat(x: Cube<real>, kernels: Tensor4d, height: nat, width: nat, stride: nat, data: Cube<real>, kernel: Cube<real>, k: nat, row: nat, col: nat)
    requires x.Valid() && kernels.WellFormed() && x.slices <= kernels.nSlices
    requires WindowsInside(x.rows, kernels.nRows, height, stride) && WindowsInside(x.cols, kernels.nCols, width, stride)
    requires DataUpTo(data, x, kernels.nRows, kernels.nCols, height, width, stride, kernels.nRows * kernels.nCols * x.slices)
    requires KernelUpTo(kernel, kernels, x.slices, kernels.nRows * kernels.nCols * x.slices)
    requires k < kernels.nSize && row < height && col < width
    ensures ColumnOf(row, col, height) < height * width
    ensures kernels.nRows * kernels.nCols * x.slices <= |Flatten(kernels.data[k])|
    ensures kernels.nRows * kernels.nCols * x.slices <= |Flatten(Patch(x, kernels.nRows, kernels.nCols, height, width, stride, row, col))|
    ensures MatMul(kernel, data).At(k, ColumnOf(row, col, height), 0)
         == FlatDot(Flatten(kernels.data[k]), Flatten(Patch(x, kernels.nRows, kernels.nCols, height, width, stride, row, col)), 0, kernels.nRows * kernels.nCols * x.slices)
  {
    var kH, kW := kernels.nRows, kernels.nCols;
    var p := Patch(x, kH, kW, height, width, stride, row, col);
    KernelRowImage(kernel, kernels, x.slices, k);
    DataColumnImage(data, x, kH, kW, height, width, stride, row, col);
    ProductFlat(kernel, data, k, ColumnOf(row, col, height), kH * kW * x.slices, Flatten(kernels.data[k]), Flatten(p));
  }

  /** `RowTimesColumnFlat` over a full row and column. */
  lemma ProductFlat(a: Cube<real>, b: Cube<real>, i: nat, j: nat, n: nat, u: seq<real>, v: seq<real>)
    requires a.Valid() && b.Valid() && a.slices > 0 && b.slices > 0 && a.cols == n && b.rows == n
    requires i < a.rows && j < b.cols && n <= |u| && n <= |v|
    requires forall q: nat :: q < n ==> a.At(i, q, 0) == u[q]
    requires forall q: nat :: q < n ==> b.At(q, j, 0) == v[q]
    ensures MatMul(a, b).At(i, j, 0) == FlatDot(u, v, 0, n)
  {
    RowTimesColumnFlat(a, b, i, j, n, u, v);
  }

  // ---------------------------------------------------------------------
  // Receptive field: reshape each row of the product and add the bias

  /** Σ_{c < n} b(0, 0, c): the bias of one filter, summed over the first
      n slices. */
  function BiasSum(b: Cube<real>, n: nat): real
    requires b.Valid() && b.rows > 0 && b.cols > 0 && n <= b.slices
  {
    if n == 0 then 0.0 else BiasSum(b, n - 1) + b.At(0, 0, n - 1)
  }

  /** What the biases of a layer must offer `Forward`: a cube per filter
      with at least `nSlices` slices. */
  predicate BiasFits(bias: Tensor4d, nFilters: nat) {
    && nFilters <= |bias.data|
    && forall k :: 0 <= k < nFilters ==>
         bias.data[k].Valid() && bias.data[k].rows > 0 && bias.data[k].cols > 0 && bias.nSlices <= bias.data[k].slices
  }

  /** `reshape(m.row(k), height, width) + b`, column-major. */
  function ReshapedRow(m: Cube<real>, k: nat, height: nat, width: nat, b: real): (y: Cube<real>)
    requires m.Valid() && m.slices > 0 && k < m.rows && ColumnsInside(height, width, m.cols)
    ensures y.Valid() && y.Shape() == (height, width, 1)
    ensures forall r: nat, c: nat :: r < height && c < width ==> y.At(r, c, 0) == m.At(k, ColumnOf(r, c, height), 0) + b
  {
    Tabulate(height, width, 1, (r: nat, c: nat, s: nat) requires r < height && c < width =>
      m.At(k, ColumnOf(r, c, height), 0) + b)
  }

  /** The slice assignment `x.slice(k) = y`. */
  function WriteSlice(x: Cube<real>, k: nat, y: Cube<real>): (z: Cube<real>)
    requires x.Valid() && y.Valid() && k < x.slices && y.rows == x.rows && y.cols == x.cols && y.slices > 0
    ensures z.Valid() && z.Shape() == x.Shape()
    ensures forall r: nat, c: nat, s: nat :: x.InBounds(r, c, s) ==> z.At(r, c, s) == if s == k then y.At(r, c, 0) else x.At(r, c, s)
  {
    Tabulate(x.rows, x.cols, x.slices, (r: nat, c: nat, s: nat) requires x.InBounds(r, c, s) =>
      if s == k then y.At(r, c, 0) else x.At(r, c, s))
  }

  /** The filter loop of `Forward`: slice k of the receptive field is row k
      of the cross-correlation matrix reshaped to height x width, plus the
      sum of the first `bias.nSlices` slices of filter k's bias. */
  method ReceptiveField(cc: Cube<real>, bias: Tensor4d, nFilters: nat, height: nat, width: nat) returns (rf: Cube<real>)
    requires cc.Valid() && cc.Shape() == (nFilters, height * width, 1) && BiasFits(bias, nFilters)
    ensures rf.Valid() && rf.Shape() == (height, width, nFilters) && ColumnsInside(height, width, height * width)
    ensures forall r: nat, c: nat, k: nat :: r < height && c < width && k < nFilters ==>
      rf.At(r, c, k) == cc.At(k, ColumnOf(r, c, height), 0) + BiasSum(bias.data[k], bias.nSlices)
  {
    ColumnsBound(height, width);
    rf := Allocated(height, width, nFilters);
    for k := 0 to nFilters
      invariant rf.Valid() && rf.Shape() == (height, width, nFilters)
      invariant forall r: nat, c: nat, k': nat :: r < height && c < width && k' < k ==>
        rf.At(r, c, k') == cc.At(k', ColumnOf(r, c, height), 0) + BiasSum(bias.data[k'], bias.nSlices)
    {
      var b := BiasTotal(bias.data[k], bias.nSlices);
      rf := FilterSlice(cc, rf, k, height, width, b);
    }
  }

  /** The bias loop: the sum of the first n slices of b at (0, 0). */
  method BiasTotal(b: Cube<real>, n: nat) returns (total: real)
    requires b.Valid() && b.rows > 0 && b.cols > 0 && n <= b.slices
    ensures total == BiasSum(b, n)
  {
    total := 0.0;
    for c := 0 to n
      invariant total == BiasSum(b, c)
    {
      total := total + b.At(0, 0, c);
    }
  }

  /** `rf.slice(k) = reshape(m.row(k), height, width) + b`: slice k takes
      row k of the cross-correlation matrix plus b, the other slices are
      kept. */
  method FilterSlice(cc: Cube<real>, rf: Cube<real>, k: nat, height: nat, width: nat, b: real) returns (rf': Cube<real>)
    requires cc.Valid() && cc.slices > 0 && k < cc.rows && ColumnsInside(height, width, cc.cols)
    requires rf.Valid() && rf.rows == height && rf.cols == width && k < rf.slices
    ensures rf'.Valid() && rf'.Shape() == rf.Shape()
    ensures forall r: nat, c: nat :: r < height && c < width ==> rf'.At(r, c, k) == cc.At(k, ColumnOf(r, c, height), 0) + b
    ensures forall r: nat, c: nat, k': nat :: r < height && c < width && k' < rf.slices && k' != k ==> rf'.At(r, c, k') == rf.At(r, c, k')
  {
    rf' := WriteSlice(rf, k, ReshapedRow(cc, k, height, width, b));
  }
}
