/** Bulk copies between global memory and a laid-out shared tile: how the inner box is cut into instructions. */
module BulkCopy {
  import opened Arith
  import opened Boxes
  import opened Results
  import opened GemmLayouts
  import opened Swizzle
  import opened BankSwizzle

  // ----- offset of the copied region

  /** Row-major position of x in a box of shape s. */
  function RowMajorAt(x: seq<int>, s: seq<int>): int
    requires |x| == |s|
  {
    if s == [] then 0 else x[0] * Volume(s[1..]) + RowMajorAt(x[1..], s[1..])
  }
  /** Row-major is the mixed-radix number with the last coordinate fastest, so distinct coordinates get distinct offsets
      and every offset below the volume is reached. */
  lemma {:induction false} RowMajorIsFlat(x: seq<int>, s: seq<int>)
    requires |x| == |s|
    ensures |Rev(x)| == |Rev(s)| && RowMajorAt(x, s) == Flat(Rev(x), Rev(s))
    decreases |x|
  {
    RevAt(x);
    RevAt(s);
    if s != [] {
      RevAt(x[1..]);
      RevAt(s[1..]);
      RowMajorIsFlat(x[1..], s[1..]);
      FlatSnoc(Rev(x[1..]), Rev(s[1..]), x[0], s[0]);
      VolumeRev(s[1..]);
    }
  }
  method SharedOffset(shape: seq<int>, indices: seq<int>) returns (r: Result<int>)
    ensures r.Ok? <==> |shape| == |indices|
    ensures r.Ok? ==> r.value == RowMajorAt(indices, shape)
  {
    var n := |shape|;
    var strides: seq<int> := [];
    var stride := 1;
    var i := 0;
    while i < n
      invariant 0 <= i <= n && |strides| == i && stride == Volume(shape[n - i..])
      invariant forall k :: 0 <= k < i ==> strides[k] == Volume(shape[n - i + k + 1..])
    {
      var s := shape[n - i - 1];
      assert shape[n - i - 1..][1..] == shape[n - i..];
      strides := [stride] + strides;
      stride := stride * s;
      i := i + 1;
    }
    if |strides| != |indices| { return CheckFailed; }
    var offset := 0;
    i := 0;
    while i < n
      invariant 0 <= i <= n && offset + RowMajorAt(indices[i..], shape[i..]) == RowMajorAt(indices, shape)
    {
      assert shape[i..][1..] == shape[i + 1..] && indices[i..][1..] == indices[i + 1..];
      offset := offset + indices[i] * strides[i];
      i := i + 1;
    }
    r := Ok(offset);
  }

  // ----- cutting the inner box

  datatype Mode = NoSwizzle | Swizzle64B | Swizzle128B
  /** Instructions: each moves `total` elements, `dim` of the inner extent; there are `count`. */
  datatype Plan = Plan(dim: int, total: int, count: int)

  /** What the detected layout is. */
  datatype Detected = Undefined | IsPadded | IsHalf | IsFull
  function ModeOf(d: Detected): Mode {
    match d
    case Undefined => NoSwizzle
    case IsPadded => NoSwizzle
    case IsHalf => Swizzle64B
    case IsFull => Swizzle128B
  }
  function PlanOf(mode: Mode, box: seq<int>, bytes: int): Result<Plan>
    requires |box| >= 1 && box[0] >= 1 && 1 <= bytes <= 16
  {
    var inner := box[0];
    var wanted := if mode == Swizzle64B then 64 / bytes else if mode == Swizzle128B then 128 / bytes else inner;
    if wanted > 256 && inner % 256 != 0 then CheckFailed else
      var dim := if wanted > 256 then 256 else wanted;
      if inner % dim != 0 then CheckFailed
      else Ok(Plan(dim, dim * Volume(box[1..]), inner / dim))
  }
  /** The address range that iteration t of the copy loop moves. */
  predicate Moved(p: Plan, t: int, address: int) { p.total * t <= address < p.total * (t + 1) }

  lemma Box2(a: int, b: int)
    ensures Volume([a, b][1..]) == b
  {
    assert [a, b][1..] == [b] && [b][1..] == [];
    assert Volume([b]) == b * Volume([]);
  }

  /** The iterations' ranges are consecutive and together cover the whole tile. */
  lemma RangesTile(p: Plan, size: int, address: int)
    requires p.total > 0 && p.count * p.total == size
    ensures 0 <= address < size <==> 0 <= address / p.total < p.count
    ensures forall t :: Moved(p, t, address) <==> t == address / p.total
  {
    DivBelow(address, p.total, p.count);
    forall t ensures Moved(p, t, address) <==> t == address / p.total {
      DivModLaw(address, p.total);
      if Moved(p, t, address) {
        DivModUnique(address, p.total, t, address - p.total * t);
      }
    }
  }

  // ----- swizzled tiles

  lemma DivByProduct(j: int, v: int, w: int)
    requires v > 0 && w > 0
    ensures v * w > 0 && j / v / w == j / (v * w)
  {
    MulFar(w, v);
    DivModLaw(j, v);
    DivModLaw(j / v, w);
    var q, r, a := j / v / w, j / v % w, j % v;
    MulMono(0, r, v);
    MulMono(r + 1, w, v);
    assert j == q * (v * w) + (r * v + a);
    DivModUnique(j, v * w, q, r * v + a);
  }
  lemma TileRange(tc: int, ts: int, index: int, tall: int, size: int, total: int)
    requires 0 <= ts < tall && 0 <= index < size && total == tall * size
    ensures total * tc <= Address(tc, ts, index, tall, size) < total * (tc + 1)
  {
    MulMono(0, ts, size);
    MulMono(ts + 1, tall, size);
    assert (tc * tall + ts) * size == tc * (tall * size) + ts * size;
  }
  lemma IndexBelow(v: int, a: int, x: int, n: int)
    requires 0 <= a < v && 0 <= x < n
    ensures 0 <= a + x * v < n * v
  {
    MulMono(0, x, v);
    MulMono(x + 1, n, v);
  }
  lemma TileIndexRange(Y: (int, int) -> int, v: int, w: int, i: int, j: int)
    requires v > 0 && Permuting(Y, w)
    ensures 0 <= TileIndex(Y, v, w, i, j) < 8 * w * v
  {
    DivModLaw(j, v);
    DivModLaw(j / v, w);
    var y, s := Y(j / v % w, i % 8), i % 8;
    MulMono(0, s, w);
    MulMono(s + 1, 8, w);
    IndexBelow(v, j % v, y + s * w, 8 * w);
  }
  lemma EightRows(stride: int, v: int, w: int)
    requires stride % 8 == 0
    ensures stride / 8 * (8 * w * v) == w * v * stride
  {
    assert stride == stride / 8 * 8;
  }
  lemma Exact(cols: int, dim: int, stride: int)
    requires dim > 0 && cols % dim == 0
    ensures cols / dim * (dim * stride) == stride * cols
  {
    DivModLaw(cols, dim);
    assert cols / dim * (dim * stride) == cols / dim * dim * stride;
  }

  lemma IterationOf(j: int, cols: int, dim: int)
    requires dim > 0 && cols % dim == 0 && 0 <= j < cols
    ensures 0 <= j / dim < cols / dim
  {
    DivModLaw(cols, dim);
    DivBelow(j, dim, cols / dim);
  }
  lemma LandsAt(v: int, w: int, stride: int, continuous: int, i: int, j: int, index: int)
    requires v > 0 && w > 0 && stride % 8 == 0 && w * v > 0 && continuous % (w * v) == 0
    requires 0 <= i < stride && 0 <= j < continuous && 0 <= index < 8 * w * v
    ensures 0 <= j / (w * v) < continuous / (w * v)
    ensures w * v * stride * (j / (w * v)) <= Address(j / v / w, i / 8, index, stride / 8, 8 * w * v) <
      w * v * stride * (j / (w * v) + 1)
  {
    DivByProduct(j, v, w);
    assert v * w == w * v;
    IterationOf(j, continuous, w * v);
    EightRows(stride, v, w);
    TileRange(j / v / w, i / 8, index, stride / 8, 8 * w * v, w * v * stride);
  }
  /** Element sizes for which 16 bytes hold a whole number of elements. */
  predicate Sized(bytes: int) { bytes == 1 || bytes == 2 || bytes == 4 || bytes == 8 || bytes == 16 }

  /** Element (i, j) lies in the range moved by iteration j / dim. */
  predicate LandsThere(Y: (int, int) -> int, v: int, w: int, p: Plan, stride: int, i: int, j: int)
    requires v > 0 && w > 0 && p.dim > 0
  {
    0 <= j / p.dim < p.count && Moved(p, j / p.dim, TileAddress(Y, v, w, stride, i, j))
  }
  /** Every element does, and the ranges make up the tile. */
  ghost predicate Lands(Y: (int, int) -> int, v: int, w: int, p: Plan, stride: int, continuous: int)
    requires v > 0 && w > 0 && p.dim > 0
  {
    && p.count * p.total == stride * continuous
    && forall i, j :: 0 <= i < stride && 0 <= j < continuous ==> LandsThere(Y, v, w, p, stride, i, j)
  }
  lemma TileLandsAt(Y: (int, int) -> int, v: int, w: int, stride: int, continuous: int, i: int, j: int)
    requires Permuting(Y, w) && v > 0 && w * v > 0 && stride % 8 == 0 && continuous % (w * v) == 0 && 0 <= i < stride
    requires 0 <= j < continuous
    ensures 0 <= j / (w * v) < continuous / (w * v)
    ensures Moved(Plan(w * v, w * v * stride, continuous / (w * v)), j / (w * v), TileAddress(Y, v, w, stride, i, j))
  {
    TileIndexRange(Y, v, w, i, j);
    LandsAt(v, w, stride, continuous, i, j, TileIndex(Y, v, w, i, j));
  }
  lemma TileLands(Y: (int, int) -> int, v: int, w: int, stride: int, continuous: int)
    requires Permuting(Y, w) && v > 0 && w * v > 0 && stride % 8 == 0 && continuous % (w * v) == 0
    ensures Lands(Y, v, w, Plan(w * v, w * v * stride, continuous / (w * v)), stride, continuous)
  {
    var p := Plan(w * v, w * v * stride, continuous / (w * v));
    Exact(continuous, w * v, stride);
    forall i, j | 0 <= i < stride && 0 <= j < continuous ensures LandsThere(Y, v, w, p, stride, i, j) {
      TileLandsAt(Y, v, w, stride, continuous, i, j);
    }
  }
  /** 16 bytes hold 2 ^ LogV(bytes) elements. */
  function LogV(bytes: int): nat {
    if bytes == 1 then 4 else if bytes == 2 then 3 else if bytes == 4 then 2 else if bytes == 8 then 1 else 0
  }
  /** Column j of row i of the box: its offset inside the rows of `dim` columns that one iteration moves. */
  function BoxOffset(dim: int, i: int, j: int): int
    requires dim > 0
  {
    i * dim + j % dim
  }
  /** Every element is where the hardware, swizzling with pattern x, puts it: its iteration's range starts at a multiple
      of the elements moved, and within the range its offset in the box is swizzled. */
  ghost predicate Swizzled(Y: (int, int) -> int, v: int, w: int, p: Plan, x: Pattern, stride: int, continuous: int)
    requires v > 0 && w > 0 && p.dim > 0
  {
    forall i, j :: 0 <= i < stride && 0 <= j < continuous ==> SwizzledAt(Y, v, w, p, x, stride, i, j)
  }
  predicate SwizzledAt(Y: (int, int) -> int, v: int, w: int, p: Plan, x: Pattern, stride: int, i: int, j: int)
    requires v > 0 && w > 0 && p.dim > 0
  {
    && BoxOffset(p.dim, i, j) >= 0
    && TileAddress(Y, v, w, stride, i, j) == p.total * (j / p.dim) + SwizzleOf(x, BoxOffset(p.dim, i, j))
  }
  lemma InBox(i: int, j: int, v: int, w: int)
    requires v > 0 && w > 0
    ensures w * v > 0 && i * (w * v) + j % (w * v) == j % v + (j / v % w + i * w) * v && j / (w * v) == j / v / w
  {
    DivByProduct(j, v, w);
    DivModLaw(j, v);
    DivModLaw(j / v, w);
    DivModLaw(j, w * v);
    assert v * w == w * v;
    var q, r, a := j / v / w, j / v % w, j % v;
    assert j == q * (w * v) + (r * v + a);
    assert (r + i * w) * v == r * v + i * (w * v);
  }
  lemma RowsOfTiles(tc: int, i: int, y: int, a: int, v: int, w: int, stride: int)
    requires stride % 8 == 0
    ensures Address(tc, i / 8, a + (y + i % 8 * w) * v, stride / 8, 8 * w * v) ==
      w * v * stride * tc + (a + (y + i * w) * v)
  {
    EightRows(stride, v, w);
    var u, s := i / 8, i % 8;
    assert i == 8 * u + s;
    assert (tc * (stride / 8) + u) * (8 * w * v) == tc * (w * v * stride) + u * (8 * w * v);
    assert (y + i * w) * v == (y + s * w) * v + u * (8 * w * v);
  }
  lemma TileSwizzledAt(Y: (int, int) -> int, x: Pattern, w: int, stride: int, continuous: int, i: int, j: int)
    requires Moves(x, w, Y) && w * Pow2(x.base) > 0 && stride % 8 == 0 && 0 <= i < stride && 0 <= j < continuous
    ensures var v := Pow2(x.base);
      SwizzledAt(Y, v, w, Plan(w * v, w * v * stride, continuous / (w * v)), x, stride, i, j)
  {
    var v := Pow2(x.base);
    InBox(i, j, v, w);
    PatternColumn(x, w, Y, i, j);
    RowsOfTiles(j / v / w, i, Y(j / v % w, i % 8), j % v, v, w, stride);
  }
  lemma TileSwizzled(Y: (int, int) -> int, x: Pattern, w: int, stride: int, continuous: int)
    requires Moves(x, w, Y) && w * Pow2(x.base) > 0 && stride % 8 == 0
    ensures var v := Pow2(x.base);
      Swizzled(Y, v, w, Plan(w * v, w * v * stride, continuous / (w * v)), x, stride, continuous)
  {
    var v := Pow2(x.base);
    forall i, j | 0 <= i < stride && 0 <= j < continuous
      ensures SwizzledAt(Y, v, w, Plan(w * v, w * v * stride, continuous / (w * v)), x, stride, i, j)
    {
      TileSwizzledAt(Y, x, w, stride, continuous, i, j);
    }
  }
  lemma SixteenBytes(bytes: int)
    requires Sized(bytes)
    ensures 16 / bytes == Pow2(LogV(bytes))
  {
    assert Pow2(1) == 2 && Pow2(2) == 4 && Pow2(3) == 8 && Pow2(4) == 16;
  }
  lemma Sizes(bytes: int)
    requires Sized(bytes)
    ensures var v := 16 / bytes; v > 0 && v == 128 / (8 * bytes) && 128 / bytes == 8 * v <= 256 && 64 / bytes == 4 * v
  {
  }
  /** Bulk-copying a whole full-bank tile: the plan, and that every element lands in its iteration's range. */
  lemma FullCopyLands(stride: int, continuous: int, bytes: int)
    requires stride > 0 && continuous > 0 && Sized(bytes) && FullBank(stride, continuous, 8 * bytes).Ok?
    ensures 16 / bytes > 0 && PlanOf(ModeOf(IsFull), [continuous, stride], bytes).Ok?
    ensures PlanOf(ModeOf(IsFull), [continuous, stride], bytes).value.dim == 8 * (16 / bytes)
    ensures Lands(FullColumn, 16 / bytes, 8, PlanOf(ModeOf(IsFull), [continuous, stride], bytes).value, stride,
                  continuous)
    ensures Swizzled(FullColumn, 16 / bytes, 8, PlanOf(ModeOf(IsFull), [continuous, stride], bytes).value,
                     Pattern(3, LogV(bytes), 3), stride, continuous)
  {
    Sizes(bytes);
    Box2(continuous, stride);
    FullPermuting();
    TileLands(FullColumn, 16 / bytes, 8, stride, continuous);
    SixteenBytes(bytes);
    FullMoves(LogV(bytes));
    TileSwizzled(FullColumn, Pattern(3, LogV(bytes), 3), 8, stride, continuous);
  }
  lemma HalfCopyLands(stride: int, continuous: int, bytes: int)
    requires stride > 0 && continuous > 0 && Sized(bytes) && HalfBank(stride, continuous, 8 * bytes).Ok?
    ensures 16 / bytes > 0 && PlanOf(ModeOf(IsHalf), [continuous, stride], bytes).Ok?
    ensures PlanOf(ModeOf(IsHalf), [continuous, stride], bytes).value.dim == 4 * (16 / bytes)
    ensures Lands(HalfColumn, 16 / bytes, 4, PlanOf(ModeOf(IsHalf), [continuous, stride], bytes).value, stride,
                  continuous)
    ensures Swizzled(HalfColumn, 16 / bytes, 4, PlanOf(ModeOf(IsHalf), [continuous, stride], bytes).value,
                     Pattern(2, LogV(bytes), 3), stride, continuous)
  {
    Sizes(bytes);
    Box2(continuous, stride);
    HalfPermuting();
    TileLands(HalfColumn, 16 / bytes, 4, stride, continuous);
    SixteenBytes(bytes);
    HalfMoves(LogV(bytes));
    TileSwizzled(HalfColumn, Pattern(2, LogV(bytes), 3), 4, stride, continuous);
  }

  // ----- tiles without a layout

  ghost predicate LinearLands(p: Plan, stride: int, continuous: int)
    requires p.dim > 0
  {
    forall i, j :: 0 <= i < stride && 0 <= j < continuous ==> Moved(p, j / p.dim, i * continuous + j)
  }
  /** Without a layout the tile is row-major and an inner extent above 256 is cut into column blocks.  The ranges match
      the elements exactly when nothing is cut or there is a single row: otherwise element (0, 256) belongs to
      iteration 1, whose range starts at 256 * stride. */
  lemma LinearCopyLands(stride: int, continuous: int, bytes: int)
    requires stride > 0 && continuous > 0 && 1 <= bytes <= 16
    requires PlanOf(ModeOf(Undefined), [continuous, stride], bytes).Ok?
    ensures PlanOf(ModeOf(Undefined), [continuous, stride], bytes).value.dim > 0
    ensures LinearLands(PlanOf(ModeOf(Undefined), [continuous, stride], bytes).value, stride, continuous) <==>
      continuous <= 256 || stride == 1
  {
    Box2(continuous, stride);
    var p := PlanOf(ModeOf(Undefined), [continuous, stride], bytes).value;
    if continuous <= 256 {
      forall i, j | 0 <= i < stride && 0 <= j < continuous ensures Moved(p, j / p.dim, i * continuous + j) {
        DivModUnique(j, continuous, 0, j);
        MulMono(0, i, continuous);
        MulMono(i + 1, stride, continuous);
      }
    } else if stride == 1 {
      assert p.total == 256;
    } else {
      assert 256 / p.dim == 1 && p.total == 256 * stride;
      assert !Moved(p, 256 / p.dim, 0 * continuous + 256);
    }
  }

  // ----- padded tiles

  ghost predicate PaddedLands(p: Plan, stride: int, continuous: int, width: int)
    requires p.dim > 0
  {
    forall i, j :: 0 <= i < stride && 0 <= j < continuous ==> Moved(p, j / p.dim, i * width + j)
  }
  lemma PaddedWidths(continuous: int, bytes: int)
    requires 1 <= bytes <= 16
    ensures PaddedWidth(continuous, 8 * bytes) >= continuous
    ensures PaddedWidth(continuous, 8 * bytes) == continuous <==> 8 * bytes * continuous % 256 != 0
  {
    DivBelow(128, 8 * bytes, 1);
  }
  /** The last element of a padded tile of several rows lies past the copied range. */
  lemma PaddedOverruns(stride: int, continuous: int, width: int)
    requires stride > 1 && continuous > 0 && width > continuous
    ensures (stride - 1) * width + (continuous - 1) >= continuous * stride
  {
    MulMono(continuous + 1, width, stride - 1);
    assert (stride - 1) * width == width * (stride - 1);
    assert (continuous + 1) * (stride - 1) == continuous * stride - continuous + (stride - 1);
  }
  /** The padded layout is copied like a tile without layout.  The ranges match the elements exactly when there is one
      row, or at most 256 columns and no padding. */
  lemma PaddedCopyLands(stride: int, continuous: int, bytes: int)
    requires stride > 0 && continuous > 0 && 1 <= bytes <= 16
    requires PlanOf(ModeOf(IsPadded), [continuous, stride], bytes).Ok?
    ensures PlanOf(ModeOf(IsPadded), [continuous, stride], bytes).value.dim > 0
    ensures PaddedLands(PlanOf(ModeOf(IsPadded), [continuous, stride], bytes).value, stride, continuous,
                        PaddedWidth(continuous, 8 * bytes))
            <==> stride == 1 || (continuous <= 256 && 8 * bytes * continuous % 256 != 0)
  {
    Box2(continuous, stride);
    PaddedWidths(continuous, bytes);
    var p, width := PlanOf(ModeOf(IsPadded), [continuous, stride], bytes).value, PaddedWidth(continuous, 8 * bytes);
    if stride == 1 {
      forall i, j | 0 <= i < stride && 0 <= j < continuous ensures Moved(p, j / p.dim, i * width + j) {
        if continuous <= 256 { DivModUnique(j, continuous, 0, j); }
      }
    } else if continuous > 256 {
      assert 256 / p.dim == 1 && p.total == 256 * stride;
      assert !Moved(p, 256 / p.dim, 0 * width + 256);
    } else if width == continuous {
      LinearCopyLands(stride, continuous, bytes);
      assert LinearLands(p, stride, continuous);
    } else {
      PaddedOverruns(stride, continuous, width);
      DivModUnique(continuous - 1, continuous, 0, continuous - 1);
      assert !Moved(p, (continuous - 1) / p.dim, (stride - 1) * width + (continuous - 1));
    }
  }

  // ----- detection

  ghost predicate SameLayout(g: Layout, h: Layout) {
    g.rows == h.rows && g.cols == h.cols && forall i, j :: InTile(g, i, j) ==> g.forward(i, j) == h.forward(i, j)
  }
  /** The layout a shared tensor was given, compared in the order padded, half bank, full bank. */
  ghost function Detect(g: Layout, bytes: int): Result<Detected>
    requires 1 <= bytes <= 16
  {
    var half, full := HalfBank(g.rows, g.cols, 8 * bytes), FullBank(g.rows, g.cols, 8 * bytes);
    if SameLayout(g, Padded(g.rows, g.cols, 8 * bytes)) then Ok(IsPadded)
    else if half.CheckFailed? then CheckFailed
    else if SameLayout(g, half.value) then Ok(IsHalf)
    else if full.CheckFailed? then CheckFailed
    else if SameLayout(g, full.value) then Ok(IsFull)
    else CheckFailed
  }
  lemma FourVectors(v: int)
    requires v > 0
    ensures 4 * v / v / 4 == 1 && 4 * v / v / 8 == 0
  {
    DivModUnique(4 * v, v, 4, 0);
  }
  /** Padded layouts have one index. */
  lemma NotPadded(g: Layout, stride: int, continuous: int, bits: int)
    requires g.rows == stride > 0 && g.cols == continuous > 0 && bits > 0 && |g.forward(0, 0)| == 3
    ensures !SameLayout(g, Padded(stride, continuous, bits))
  {
    assert InTile(g, 0, 0) && |Padded(stride, continuous, bits).forward(0, 0)| == 1;
  }
  /** Half and full bank differ where the fifth vector of the first row goes. */
  lemma BanksDiffer(stride: int, continuous: int, bytes: int)
    requires stride > 0 && continuous > 0 && 1 <= bytes <= 16 && FullBank(stride, continuous, 8 * bytes).Ok?
    ensures HalfBank(stride, continuous, 8 * bytes).Ok?
    ensures !SameLayout(FullBank(stride, continuous, 8 * bytes).value, HalfBank(stride, continuous, 8 * bytes).value)
  {
    var v := 128 / (8 * bytes);
    DivBelow(128, 8 * bytes, 1);
    MultipleOf8(continuous, v);
    WideEnough(continuous, v);
    FourVectors(v);
    var half, full := HalfBank(stride, continuous, 8 * bytes).value, FullBank(stride, continuous, 8 * bytes).value;
    assert InTile(full, 0, 4 * v);
    assert full.forward(0, 4 * v)[0] == 0 && half.forward(0, 4 * v)[0] == 1;
  }
  lemma WideEnough(n: int, v: int)
    requires n > 0 && v > 0 && n % (v * 8) == 0
    ensures 4 * v < n
  {
    DivModLaw(n, v * 8);
    if n / (v * 8) >= 1 { MulFar(n / (v * 8), v * 8); } else { MulMono(n / (v * 8), 0, v * 8); }
  }
  /** Each of the three layouts is detected as itself, so the mode chosen is the right one. */
  lemma DetectsItself(stride: int, continuous: int, bytes: int)
    requires stride > 0 && continuous > 0 && 1 <= bytes <= 16
    ensures Detect(Padded(stride, continuous, 8 * bytes), bytes) == Ok(IsPadded)
    ensures var half := HalfBank(stride, continuous, 8 * bytes); half.Ok? ==> Detect(half.value, bytes) == Ok(IsHalf)
    ensures var full := FullBank(stride, continuous, 8 * bytes); full.Ok? ==> Detect(full.value, bytes) == Ok(IsFull)
  {
    var half, full := HalfBank(stride, continuous, 8 * bytes), FullBank(stride, continuous, 8 * bytes);
    if half.Ok? { NotPadded(half.value, stride, continuous, 8 * bytes); }
    if full.Ok? {
      NotPadded(full.value, stride, continuous, 8 * bytes);
      BanksDiffer(stride, continuous, bytes);
    }
  }
}
