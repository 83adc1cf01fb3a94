/** Where the subresources of a DDS texture lie in its bytes: plane by plane, slice by slice, mip by mip. */
module DdsLayout {

  const UINT64 := 0x1_0000_0000_0000_0000
  const UINT32_MAX := 0xFFFF_FFFF

  /** Sizes that Direct3D 12 admits, to which the caller has bounded the texture. */
  const MAX_DIMENSION := 16384
  const MAX_DEPTH := 2048
  const MAX_MIPS := 15
  const MAX_ARRAY := 2048

  /**
   * Formats by how GetSurfaceInfo lays them out. `Planar` carries the bytes per sample pair, whether heights must
   * be even, and whether AdjustPlaneResource splits the planes; `Plain` the bits per pixel, 0 if unknown.
   */
  datatype Format =
    | Block(bytes: nat)
    | Packed(bytes: nat)
    | Nv11
    | Planar(bytes: nat, even: bool, split: bool)
    | Plain(bits: nat)

  /** The classes that occur. */
  predicate Known(f: Format) {
    match f
    case Block(bytes) => bytes == 8 || bytes == 16
    case Packed(bytes) => bytes == 4 || bytes == 8
    case Nv11 => true
    case Planar(bytes, even, split) => (bytes == 2 || bytes == 4) && (split ==> even)
    case Plain(bits) => bits <= 128
  }

  datatype Surface = Surface(numBytes: nat, rowBytes: nat)

  /** GetSurfaceInfo succeeds. */
  predicate HasSurface(f: Format, height: nat) {
    match f
    case Planar(_, even, _) => even ==> height % 2 == 0
    case Plain(bits) => bits != 0
    case _ => true
  }

  function Blocks(x: nat): nat {
    (x + 3) / 4
  }

  /** Row and total bytes, in unbounded arithmetic. */
  function SurfaceOf(f: Format, width: nat, height: nat): Surface {
    match f
    case Block(bytes) => Surface(Blocks(width) * bytes * Blocks(height), Blocks(width) * bytes)
    case Packed(bytes) => Surface((width + 1) / 2 * bytes * height, (width + 1) / 2 * bytes)
    case Nv11 => Surface(Blocks(width) * 4 * (height * 2), Blocks(width) * 4)
    case Planar(bytes, _, _) =>
      var row := (width + 1) / 2 * bytes;
      Surface(row * height + (row * height + 1) / 2, row)
    case Plain(bits) => Surface((width * bits + 7) / 8 * height, (width * bits + 7) / 8)
  }

  /** `n` is the least number of units of this size that hold `x`. */
  predicate LeastHolding(n: nat, unit: nat, x: nat) {
    n * unit >= x && (n > 0 ==> n * unit - unit < x)
  }

  /** A row holds its texels, in whole blocks, pairs or bytes, and no more; a surface holds its rows. */
  predicate Holds(f: Format, width: nat, height: nat, s: Surface, across: nat, down: nat) {
    match f
    case Block(bytes) =>
      && LeastHolding(across, 4, width) && s.rowBytes == across * bytes
      && LeastHolding(down, 4, height) && s.numBytes == s.rowBytes * down
    case Packed(bytes) => LeastHolding(across, 2, width) && s.rowBytes == across * bytes && s.numBytes == s.rowBytes * height
    case Nv11 => LeastHolding(across, 4, width) && s.rowBytes == across * 4 && s.numBytes == s.rowBytes * (height + height)
    case Planar(bytes, _, _) =>
      && LeastHolding(across, 2, width) && s.rowBytes == across * bytes
      && LeastHolding(down, 2, s.rowBytes * height) && s.numBytes == s.rowBytes * height + down
    case Plain(bits) => LeastHolding(s.rowBytes, 8, width * bits) && s.numBytes == s.rowBytes * height
  }

  /** Every format's surface is the least that holds it. */
  lemma SurfaceHolds(f: Format, width: nat, height: nat) returns (across: nat, down: nat)
    ensures Holds(f, width, height, SurfaceOf(f, width, height), across, down)
  {
    var row := SurfaceOf(f, width, height).rowBytes;
    match f
    case Block(_) => across, down := Blocks(width), Blocks(height);
    case Packed(_) => across, down := (width + 1) / 2, 0;
    case Nv11 => across, down := Blocks(width), 0;
    case Planar(_, _, _) => across, down := (width + 1) / 2, (row * height + 1) / 2;
    case Plain(_) => across, down := 0, 0;
  }

  // ---- 64-bit arithmetic ----

  function Wrap(x: nat): (r: nat)
    ensures x < UINT64 ==> r == x
  {
    x % UINT64
  }

  function Max(a: nat, b: nat): nat {
    if a > b then a else b
  }

  lemma ProductBound(a: nat, b: nat, m: nat, n: nat)
    requires a <= m && b <= n
    ensures a * b <= m * n
  {
    assert a * b <= m * b;
    assert m * b <= m * n;
  }

  /** rows * row, when both are small enough for the product to fit. */
  method Area(row: nat, rows: nat) returns (area: nat)
    requires row <= 300_000 && rows <= 2 * MAX_DIMENSION
    ensures area == row * rows && area <= 300_000 * (2 * MAX_DIMENSION)
  {
    ProductBound(row, rows, 300_000, 2 * MAX_DIMENSION);
    area := Wrap(row * rows);
  }

  method BlockSurface(bytes: nat, width: nat, height: nat) returns (numBytes: nat, rowBytes: nat)
    requires (bytes == 8 || bytes == 16) && width <= MAX_DIMENSION && height <= MAX_DIMENSION
    ensures Surface(numBytes, rowBytes) == SurfaceOf(Block(bytes), width, height)
  {
    var numBlocksWide, numBlocksHigh := 0, 0;
    if width > 0 { numBlocksWide := Max(1, Wrap(width + 3) / 4); }
    if height > 0 { numBlocksHigh := Max(1, Wrap(height + 3) / 4); }
    assert numBlocksWide == Blocks(width) && numBlocksHigh == Blocks(height);
    rowBytes := if bytes == 8 then Wrap(numBlocksWide * 8) else Wrap(numBlocksWide * 16);
    numBytes := Area(rowBytes, numBlocksHigh);
  }

  method PairRow(bytes: nat, width: nat) returns (rowBytes: nat)
    requires (bytes == 2 || bytes == 4 || bytes == 8) && width <= MAX_DIMENSION
    ensures rowBytes == (width + 1) / 2 * bytes && rowBytes <= 100_000
  {
    var pairs := Wrap(width + 1) / 2;
    rowBytes := if bytes == 2 then Wrap(pairs * 2) else if bytes == 4 then Wrap(pairs * 4) else Wrap(pairs * 8);
  }

  method PlanarSurface(f: Format, width: nat, height: nat) returns (numBytes: nat, rowBytes: nat)
    requires f.Planar? && Known(f) && width <= MAX_DIMENSION && height <= MAX_DIMENSION
    ensures Surface(numBytes, rowBytes) == SurfaceOf(f, width, height)
  {
    rowBytes := PairRow(f.bytes, width);
    var full := Area(rowBytes, height);
    numBytes := Wrap(full + Wrap(full + 1) / 2);
  }

  method PlainSurface(bits: nat, width: nat, height: nat) returns (numBytes: nat, rowBytes: nat)
    requires bits <= 128 && width <= MAX_DIMENSION && height <= MAX_DIMENSION
    ensures Surface(numBytes, rowBytes) == SurfaceOf(Plain(bits), width, height)
  {
    ProductBound(width, bits, MAX_DIMENSION, 128);
    rowBytes := Wrap(Wrap(width * bits) + 7) / 8;
    numBytes := Area(rowBytes, height);
  }

  /** GetSurfaceInfo, every addition and multiplication taken modulo 2^64: none of them wraps. */
  method GetSurfaceInfo(f: Format, width: nat, height: nat) returns (ok: bool, numBytes: nat, rowBytes: nat)
    requires Known(f) && width <= MAX_DIMENSION && height <= MAX_DIMENSION
    ensures ok <==> HasSurface(f, height)
    ensures ok <==> f != Plain(0) && !(f.Planar? && f.even && height % 2 == 1)
    ensures ok ==> Surface(numBytes, rowBytes) == SurfaceOf(f, width, height)
  {
    if f.Planar? && f.even && height % 2 != 0 { return false, 0, 0; }
    if f.Plain? && f.bits == 0 { return false, 0, 0; }
    ok := true;
    match f {
      case Planar(_, _, _) => numBytes, rowBytes := PlanarSurface(f, width, height);
      case Block(bytes) => numBytes, rowBytes := BlockSurface(bytes, width, height);
      case Packed(bytes) =>
        rowBytes := PairRow(bytes, width);
        numBytes := Area(rowBytes, height);
      case Nv11 =>
        rowBytes := Wrap(Wrap(width + 3) / 4 * 4);
        numBytes := Area(rowBytes, Wrap(height * 2));
      case Plain(bits) => numBytes, rowBytes := PlainSurface(bits, width, height);
    }
  }

  // ---- the subresources of a texture ----

  datatype Texture = Texture(
    width: nat, height: nat, depth: nat, mips: nat, slices: nat, planes: nat, format: Format, maxSize: nat)

  /** What the loader's caller has checked. */
  predicate Bounded(t: Texture) {
    && Known(t.format) && t.width <= MAX_DIMENSION && t.height <= MAX_DIMENSION && t.depth <= MAX_DEPTH
    && t.mips <= MAX_MIPS && t.slices <= MAX_ARRAY
  }

  /** Size along one axis of mip `i`. */
  function Mip(x: nat, i: nat): nat {
    if i == 0 then x else Halved(Mip(x, i - 1))
  }

  function Halved(x: nat): nat {
    if x / 2 == 0 then 1 else x / 2
  }

  lemma {:induction false} MipBound(x: nat, i: nat, bound: nat)
    requires x <= bound && bound >= 1
    ensures Mip(x, i) <= bound
  {
    if i > 0 { MipBound(x, i - 1, bound); }
  }

  function SurfaceAt(t: Texture, i: nat): Surface {
    SurfaceOf(t.format, Mip(t.width, i), Mip(t.height, i))
  }

  predicate MipOK(t: Texture, i: nat) {
    && HasSurface(t.format, Mip(t.height, i))
    && SurfaceAt(t, i).numBytes <= UINT32_MAX && SurfaceAt(t, i).rowBytes <= UINT32_MAX
  }

  /** Bytes of mip `i` of one slice, all its depth layers. */
  function MipBytes(t: Texture, i: nat): nat {
    SurfaceAt(t, i).numBytes * Mip(t.depth, i)
  }

  /** Bytes of the first `n` mips of one slice. */
  function ChainBytes(t: Texture, n: nat): nat {
    if n == 0 then 0 else ChainBytes(t, n - 1) + MipBytes(t, n - 1)
  }

  lemma ProductOfNats(a: nat, b: nat)
    ensures 0 <= a * b
  {
  }

  /** Where slice `j` begins, counted from the beginning of the texture's bytes. */
  function SliceStart(t: Texture, j: nat): nat {
    ProductOfNats(j, ChainBytes(t, t.mips));
    j * ChainBytes(t, t.mips)
  }

  /** Mips that are too large for `maxSize` are passed over. */
  predicate Recorded(t: Texture, i: nat) {
    t.mips <= 1 || t.maxSize == 0
    || (Mip(t.width, i) <= t.maxSize && Mip(t.height, i) <= t.maxSize && Mip(t.depth, i) <= t.maxSize)
  }

  /** `offset` is where the data begins, counted from the beginning of the texture's bytes. */
  datatype Subresource = Subresource(offset: nat, rowPitch: nat, slicePitch: nat)

  /** AdjustPlaneResource. */
  function Adjusted(f: Format, height: nat, plane: nat, r: Subresource): Subresource {
    if f.Planar? && f.split then
      if plane == 0 then r.(slicePitch := r.rowPitch * height)
      else r.(offset := r.offset + r.rowPitch * height, slicePitch := r.rowPitch * ((height + 1) / 2))
    else if f.Nv11? then
      if plane == 0 then r.(slicePitch := r.rowPitch * height)
      else Subresource(r.offset + r.rowPitch * height, r.rowPitch / 2, r.rowPitch / 2 * height)
    else r
  }

  /** The entry for mip `i` of a slice that begins at `start`. */
  function Entry(t: Texture, plane: nat, start: nat, i: nat): Subresource {
    Adjusted(t.format, Mip(t.height, i), plane,
             Subresource(start + ChainBytes(t, i), SurfaceAt(t, i).rowBytes, SurfaceAt(t, i).numBytes))
  }

  /** The entries of the first `n` mips of a slice. */
  function SliceEntries(t: Texture, plane: nat, start: nat, n: nat): seq<Subresource> {
    if n == 0 then []
    else SliceEntries(t, plane, start, n - 1) + if Recorded(t, n - 1) then [Entry(t, plane, start, n - 1)] else []
  }

  /** The entries of the first `m` slices of a plane. */
  function PlaneEntries(t: Texture, plane: nat, m: nat): seq<Subresource> {
    if m == 0 then [] else PlaneEntries(t, plane, m - 1) + SliceEntries(t, plane, SliceStart(t, m - 1), t.mips)
  }

  /** The entries of the first `q` planes: each plane goes over all the bytes again. */
  function Entries(t: Texture, q: nat): seq<Subresource> {
    if q == 0 then [] else Entries(t, q - 1) + PlaneEntries(t, q - 1, t.slices)
  }

  // ---- inside the bytes ----

  lemma HalfOfEven(row: nat, height: nat)
    requires height % 2 == 0
    ensures row * ((height + 1) / 2) * 2 == row * height
    ensures row * height + row * ((height + 1) / 2) <= row * height + (row * height + 1) / 2
  {
    var k := height / 2;
    assert height == 2 * k && (height + 1) / 2 == k;
    assert row * height == row * k * 2;
  }

  /** Both planes of an adjusted surface stay within it. */
  lemma PlanesInSurface(f: Format, width: nat, height: nat, plane: nat, offset: nat)
    requires Known(f) && HasSurface(f, height)
    ensures var s := SurfaceOf(f, width, height);
            var e := Adjusted(f, height, plane, Subresource(offset, s.rowBytes, s.numBytes));
            offset <= e.offset && e.offset + e.slicePitch <= offset + s.numBytes
  {
    var row := SurfaceOf(f, width, height).rowBytes;
    if f.Planar? && f.split {
      HalfOfEven(row, height);
    } else if f.Nv11? {
      Nv11Halves(row, height);
      assert row * (height * 2) == row * height + row * height;
    }
  }

  lemma AdjustedWithin(t: Texture, plane: nat, start: nat, i: nat)
    requires Known(t.format) && MipOK(t, i) && Mip(t.depth, i) >= 1
    ensures var e := Entry(t, plane, start, i);
            && start + ChainBytes(t, i) <= e.offset
            && e.offset + e.slicePitch * Mip(t.depth, i) <= start + ChainBytes(t, i) + MipBytes(t, i)
  {
    var e, at := Entry(t, plane, start, i), start + ChainBytes(t, i);
    PlanesInSurface(t.format, Mip(t.width, i), Mip(t.height, i), plane, at);
    SpreadOverDepth(e.offset - at, e.slicePitch, SurfaceAt(t, i).numBytes, Mip(t.depth, i));
  }

  lemma Nv11Halves(row: nat, height: nat)
    ensures row * height + row / 2 * height <= row * (height * 2)
  {
    ProductBound(row / 2, height, row, height);
  }

  lemma SpreadOverDepth(shift: nat, pitch: nat, whole: nat, depth: nat)
    requires shift + pitch <= whole && depth >= 1
    ensures shift + pitch * depth <= whole * depth
  {
    ProductBound(shift + pitch, depth, whole, depth);
    assert (shift + pitch) * depth == shift * depth + pitch * depth;
    assert shift * depth >= shift;
  }

  function Pow2(n: nat): nat {
    if n == 0 then 1 else 2 * Pow2(n - 1)
  }

  lemma {:induction false} Pow2Positive(n: nat)
    ensures Pow2(n) > 0
  {
    if n > 0 { Pow2Positive(n - 1); }
  }

  lemma HalfOfQuotient(x: nat, d: nat)
    requires d > 0
    ensures x / (2 * d) == x / d / 2
  {
    var q, r := x / d, x % d;
    assert x == d * q + r;
    var h, b := q / 2, q % 2;
    assert q == 2 * h + b;
    assert d * q == 2 * d * h + d * b;
    QuotientIs(x, 2 * d, h, d * b + r);
  }

  lemma QuotientIs(x: nat, d: nat, q: nat, r: int)
    requires d > 0 && x == d * q + r && 0 <= r < d
    ensures x / d == q
  {
    var k: int := x / d - q;
    assert d * (x / d) == d * q + d * k;
    assert k >= 1 ==> d * k >= d;
    assert k <= -1 ==> d * k + d <= 0;
  }

  /** Mip `i` of a dimension of at least 1 is that dimension shifted right by `i`, and never less than 1. */
  lemma {:induction false} MipIs(x: nat, i: nat)
    requires x >= 1
    ensures Pow2(i) > 0 && Mip(x, i) == if x / Pow2(i) == 0 then 1 else x / Pow2(i)
  {
    Pow2Positive(i);
    if i > 0 {
      MipIs(x, i - 1);
      HalfOfQuotient(x, Pow2(i - 1));
    }
  }

  /** The two planes of a split surface lie side by side: whole rows, then the rest of the surface, or rows half as long. */
  lemma PlanesAdjoin(f: Format, width: nat, height: nat, offset: nat)
    requires Known(f) && HasSurface(f, height)
    ensures var s := SurfaceOf(f, width, height);
            var r := Subresource(offset, s.rowBytes, s.numBytes);
            var a, b := Adjusted(f, height, 0, r), Adjusted(f, height, 1, r);
            && a.offset == offset && a.rowPitch == s.rowBytes
            && (if f.Nv11? then a.slicePitch == s.rowBytes * height && b.offset == a.offset + a.slicePitch
                                && 2 * b.rowPitch == a.rowPitch && 2 * b.slicePitch == a.slicePitch
                else if f.Planar? && f.split then
                  a.slicePitch == s.rowBytes * height && b.offset == a.offset + a.slicePitch && b.rowPitch == a.rowPitch
                  && b.offset + b.slicePitch == offset + s.numBytes
                else a == r && b == r)
  {
    var row := SurfaceOf(f, width, height).rowBytes;
    if f.Planar? && f.split {
      HalfOfEven(row, height);
    } else if f.Nv11? {
      HalfRows(Blocks(width), height);
    }
  }

  lemma HalfRows(blocks: nat, height: nat)
    ensures var row := blocks * 4;
            2 * (row / 2) == row && 2 * (row / 2 * height) == row * height
  {
    assert blocks * 4 / 2 == blocks * 2;
    assert blocks * 2 * height * 2 == blocks * 4 * height;
  }

  /** One mip's entry begins where the last one's bytes end, and a slice where the last one's mips end. */
  lemma MipsAdjoin(t: Texture, plane: nat, start: nat, i: nat, j: nat)
    requires !t.format.Nv11? && !(t.format.Planar? && t.format.split)
    ensures var a, b := Entry(t, plane, start, i), Entry(t, plane, start, i + 1);
            b.offset == a.offset + a.slicePitch * Mip(t.depth, i)
    ensures SliceStart(t, 0) == 0 && SliceStart(t, j + 1) == SliceStart(t, j) + ChainBytes(t, t.mips)
  {
    var c := ChainBytes(t, t.mips);
    assert (j + 1) * c == j * c + c;
  }

  // ---- filling the table ----

  datatype HResult = Ok | InvalidArg | ArithmeticOverflow | HandleEof | Fail

  datatype Dims = Dims(width: nat, height: nat, depth: nat)

  function DimsAt(t: Texture, i: nat): Dims {
    Dims(Mip(t.width, i), Mip(t.height, i), Mip(t.depth, i))
  }

  /** How many of the first `n` mips are passed over. */
  function Skipped(t: Texture, n: nat): (k: nat)
    ensures k <= n
  {
    if n == 0 then 0 else Skipped(t, n - 1) + if Recorded(t, n - 1) then 0 else 1
  }

  /** All mips have surfaces of moderate size, and all slices together fit. */
  ghost predicate Fits(t: Texture, bitSize: nat) {
    (forall i | 0 <= i < t.mips :: MipOK(t, i)) && SliceStart(t, t.slices) <= bitSize
  }

  lemma {:induction false} ChainGrows(t: Texture, m: nat, n: nat)
    requires m <= n
    ensures ChainBytes(t, m) <= ChainBytes(t, n)
    decreases n
  {
    if m < n { ChainGrows(t, m, n - 1); }
  }

  lemma SlicesEndInside(t: Texture, j: nat, i: nat)
    requires j < t.slices && i <= t.mips
    ensures SliceStart(t, j) + ChainBytes(t, i) <= SliceStart(t, t.slices)
  {
    var c := ChainBytes(t, t.mips);
    ChainGrows(t, i, t.mips);
    assert (j + 1) * c == j * c + c;
    ProductBound(j + 1, c, t.slices, c);
  }

  lemma MipBytesBound(t: Texture, i: nat)
    requires Bounded(t) && MipOK(t, i)
    ensures Mip(t.width, i) <= MAX_DIMENSION && Mip(t.height, i) <= MAX_DIMENSION && Mip(t.depth, i) <= MAX_DEPTH
    ensures MipBytes(t, i) <= UINT32_MAX * MAX_DEPTH
  {
    MipBound(t.width, i, MAX_DIMENSION);
    MipBound(t.height, i, MAX_DIMENSION);
    MipBound(t.depth, i, MAX_DEPTH);
    ProductBound(SurfaceAt(t, i).numBytes, Mip(t.depth, i), UINT32_MAX, MAX_DEPTH);
  }

  /** The surface of one mip, rejected if it is larger than 32 bits can say. */
  method SurfaceStep(t: Texture, i: nat, w: nat, h: nat) returns (hr: HResult, numBytes: nat, rowBytes: nat)
    requires Bounded(t) && w == Mip(t.width, i) && h == Mip(t.height, i)
    ensures hr == Ok <==> MipOK(t, i)
    ensures hr == Ok ==> Surface(numBytes, rowBytes) == SurfaceAt(t, i)
  {
    MipBound(t.width, i, MAX_DIMENSION);
    MipBound(t.height, i, MAX_DIMENSION);
    var ok;
    ok, numBytes, rowBytes := GetSurfaceInfo(t.format, w, h);
    if !ok { return InvalidArg, numBytes, rowBytes; }
    if numBytes > UINT32_MAX || rowBytes > UINT32_MAX { return ArithmeticOverflow, numBytes, rowBytes; }
    hr := Ok;
  }

  /** Behind an address there is room for one more mip of the largest size before addresses wrap. */
  predicate BelowTop(address: nat) {
    address + UINT32_MAX * MAX_DEPTH < UINT64
  }

  /** The move to the next mip's bytes, if they are all there. Addresses are taken modulo 2^64 and do not wrap. */
  method AdvanceStep(t: Texture, i: nat, numBytes: nat, d: nat, pSrcBits: nat, pEndBits: nat) returns (ok: bool, next: nat)
    requires Bounded(t) && MipOK(t, i) && numBytes == SurfaceAt(t, i).numBytes && d == Mip(t.depth, i)
    requires pSrcBits <= pEndBits && BelowTop(pEndBits)
    ensures ok <==> pSrcBits + MipBytes(t, i) <= pEndBits
    ensures ok ==> next == pSrcBits + MipBytes(t, i)
  {
    MipBytesBound(t, i);
    next := Wrap(pSrcBits + Wrap(numBytes * d));
    ok := next <= pEndBits;
  }

  /** What has been noted so far: the table, the dimensions reported, and the number of mips passed over. */
  datatype Notes = Notes(data: seq<Subresource>, dims: Dims, skipMip: nat)

  /** The notes after the first `i` mips of slice `j` of a plane. */
  function Noted(t: Texture, plane: nat, j: nat, i: nat, n: Notes): Notes {
    if i == 0 then n
    else
      var n := Noted(t, plane, j, i - 1, n);
      if Recorded(t, i - 1) then
        Notes(n.data + [Entry(t, plane, SliceStart(t, j), i - 1)],
              if n.dims.width == 0 then DimsAt(t, i - 1) else n.dims, n.skipMip)
      else if j == 0 then n.(skipMip := n.skipMip + 1)
      else n
  }

  method RecordStep(t: Texture, plane: nat, j: nat, i: nat, dims: Dims, rowBytes: nat, numBytes: nat, offset: nat,
                    n: Notes)
    returns (n': Notes)
    requires dims == DimsAt(t, i) && Surface(numBytes, rowBytes) == SurfaceAt(t, i)
    requires offset == SliceStart(t, j) + ChainBytes(t, i)
    ensures forall n0 | n == Noted(t, plane, j, i, n0) :: n' == Noted(t, plane, j, i + 1, n0)
  {
    n' := n;
    if t.mips <= 1 || t.maxSize == 0 || (dims.width <= t.maxSize && dims.height <= t.maxSize && dims.depth <= t.maxSize) {
      if n'.dims.width == 0 { n' := n'.(dims := dims); }
      var res := Subresource(offset, rowBytes, numBytes);
      n' := n'.(data := n'.data + [Adjusted(t.format, dims.height, plane, res)]);
    } else if j == 0 {
      n' := n'.(skipMip := n'.skipMip + 1);
    }
  }

  /** One mip: its surface, its entry, and the move past its bytes. */
  method FillMip(t: Texture, plane: nat, j: nat, i: nat, dims: Dims, bitData: nat, pEndBits: nat, pSrcBits: nat, n: Notes)
    returns (hr: HResult, pNext: nat, n': Notes)
    requires Bounded(t) && dims == DimsAt(t, i) && BelowTop(pEndBits) && bitData <= pSrcBits <= pEndBits
    requires pSrcBits - bitData == SliceStart(t, j) + ChainBytes(t, i)
    ensures hr == Ok <==> MipOK(t, i) && pSrcBits + MipBytes(t, i) <= pEndBits
    ensures hr == Ok ==> pNext == pSrcBits + MipBytes(t, i)
    ensures hr == Ok ==> forall n0 | n == Noted(t, plane, j, i, n0) :: n' == Noted(t, plane, j, i + 1, n0)
  {
    var numBytes, rowBytes;
    hr, numBytes, rowBytes := SurfaceStep(t, i, dims.width, dims.height);
    if hr != Ok { return hr, pSrcBits, n; }
    n' := RecordStep(t, plane, j, i, dims, rowBytes, numBytes, pSrcBits - bitData, n);
    var there, next := AdvanceStep(t, i, numBytes, dims.depth, pSrcBits, pEndBits);
    if !there { return HandleEof, pSrcBits, n'; }
    pNext := next;
  }

  /** The innermost loop: the mips of slice `j`, which begin at `pSrcBits`. */
  method FillSlice(t: Texture, plane: nat, j: nat, bitData: nat, bitSize: nat, pSrcBits: nat, n: Notes)
    returns (hr: HResult, pNext: nat, n': Notes)
    requires Bounded(t) && BelowTop(bitData + bitSize) && bitData <= pSrcBits <= bitData + bitSize
    requires pSrcBits - bitData == SliceStart(t, j)
    ensures hr == Ok <==> (forall i | 0 <= i < t.mips :: MipOK(t, i))
                          && pSrcBits + ChainBytes(t, t.mips) <= bitData + bitSize
    ensures hr == Ok ==> pNext == pSrcBits + ChainBytes(t, t.mips) && n' == Noted(t, plane, j, t.mips, n)
  {
    var dims := Dims(t.width, t.height, t.depth);
    hr, pNext, n' := Ok, pSrcBits, n;
    for i := 0 to t.mips
      invariant dims == DimsAt(t, i) && hr == Ok
      invariant pNext == pSrcBits + ChainBytes(t, i) && pNext <= bitData + bitSize
      invariant forall k | 0 <= k < i :: MipOK(t, k)
      invariant n' == Noted(t, plane, j, i, n)
    {
      ChainGrows(t, i + 1, t.mips);
      hr, pNext, n' := FillMip(t, plane, j, i, dims, bitData, bitData + bitSize, pNext, n');
      if hr != Ok { return; }
      dims := Dims(Halved(dims.width), Halved(dims.height), Halved(dims.depth));
    }
  }

  lemma NextSlice(j: nat, c: nat)
    ensures (j + 1) * c == j * c + c
  {
  }

  /** The notes after the first `m` slices of a plane, and after the first `q` planes. */
  function PlaneNoted(t: Texture, plane: nat, m: nat, n: Notes): Notes {
    if m == 0 then n else Noted(t, plane, m - 1, t.mips, PlaneNoted(t, plane, m - 1, n))
  }

  function AllNoted(t: Texture, q: nat, n: Notes): Notes {
    if q == 0 then n else PlaneNoted(t, q - 1, t.slices, AllNoted(t, q - 1, n))
  }

  method FillPlane(t: Texture, plane: nat, bitData: nat, bitSize: nat, n: Notes) returns (hr: HResult, n': Notes)
    requires Bounded(t) && BelowTop(bitData + bitSize)
    ensures hr == Ok <==> t.slices == 0 || Fits(t, bitSize)
    ensures hr == Ok ==> n' == PlaneNoted(t, plane, t.slices, n)
  {
    var pSrcBits := bitData;
    hr, n' := Ok, n;
    for j := 0 to t.slices
      invariant pSrcBits == bitData + SliceStart(t, j) && SliceStart(t, j) <= bitSize
      invariant j > 0 ==> forall i | 0 <= i < t.mips :: MipOK(t, i)
      invariant n' == PlaneNoted(t, plane, j, n)
    {
      var status;
      NextSlice(j, ChainBytes(t, t.mips));
      ProductBound(j + 1, ChainBytes(t, t.mips), t.slices, ChainBytes(t, t.mips));
      status, pSrcBits, n' := FillSlice(t, plane, j, bitData, bitSize, pSrcBits, n');
      if status != Ok { return status, n'; }
    }
  }

  /** FillInitData: plane by plane over all the bytes. */
  method FillInitData(t: Texture, bitData: nat, bitSize: nat) returns (hr: HResult, n: Notes)
    requires Bounded(t) && BelowTop(bitData + bitSize)
    ensures hr == Ok <==> (t.planes == 0 || t.slices == 0 || Fits(t, bitSize)) && AllNoted(t, t.planes, START).data != []
    ensures hr == Ok ==> n == AllNoted(t, t.planes, START)
  {
    hr, n := Ok, START;
    for p := 0 to t.planes
      invariant n == AllNoted(t, p, START)
      invariant p > 0 ==> t.slices == 0 || Fits(t, bitSize)
    {
      var status;
      status, n := FillPlane(t, p, bitData, bitSize, n);
      if status != Ok { return status, n; }
    }
    hr := if n.data == [] then Fail else Ok;
  }

  const START := Notes([], Dims(0, 0, 0), 0)

  // ---- what the table holds ----

  lemma {:induction false} NotedData(t: Texture, plane: nat, j: nat, i: nat, n: Notes)
    ensures Noted(t, plane, j, i, n).data == n.data + SliceEntries(t, plane, SliceStart(t, j), i)
    ensures Noted(t, plane, j, i, n).skipMip == n.skipMip + if j == 0 then Skipped(t, i) else 0
  {
    if i > 0 { NotedData(t, plane, j, i - 1, n); }
  }

  lemma {:induction false} PlaneData(t: Texture, plane: nat, m: nat, n: Notes)
    ensures PlaneNoted(t, plane, m, n).data == n.data + PlaneEntries(t, plane, m)
    ensures PlaneNoted(t, plane, m, n).skipMip == n.skipMip + if m > 0 then Skipped(t, t.mips) else 0
  {
    if m > 0 {
      PlaneData(t, plane, m - 1, n);
      NotedData(t, plane, m - 1, t.mips, PlaneNoted(t, plane, m - 1, n));
    }
  }

  /**
   * The notes of a whole texture: the entries of all planes, and a count of passed-over mips that takes the first
   * slice of every plane.
   */
  lemma {:induction false} AllData(t: Texture, q: nat)
    ensures AllNoted(t, q, START).data == Entries(t, q)
    ensures AllNoted(t, q, START).skipMip == if t.slices > 0 then q * Skipped(t, t.mips) else 0
  {
    if q > 0 {
      AllData(t, q - 1);
      PlaneData(t, q - 1, t.slices, AllNoted(t, q - 1, START));
      NextSlice(q - 1, Skipped(t, t.mips));
    }
  }

  /** Mips only get smaller, so those passed over come first. */
  lemma LaterMipsFit(t: Texture, i: nat)
    requires Recorded(t, i)
    ensures Recorded(t, i + 1)
  {
  }

  lemma {:induction false} SkippedFirst(t: Texture, i: nat, n: nat)
    requires i < n
    ensures Recorded(t, i) <==> Skipped(t, n) <= i
    decreases n
  {
    if i < n - 1 {
      SkippedFirst(t, i, n - 1);
      if Recorded(t, i) { StaysRecorded(t, i, n - 1); }
    } else if Recorded(t, i) {
      assert Skipped(t, n) == Skipped(t, n - 1);
    } else {
      AllSkipped(t, i);
    }
  }

  lemma {:induction false} StaysRecorded(t: Texture, i: nat, k: nat)
    requires Recorded(t, i) && i <= k
    ensures Recorded(t, k)
    decreases k - i
  {
    if i < k {
      LaterMipsFit(t, i);
      StaysRecorded(t, i + 1, k);
    }
  }

  lemma {:induction false} AllSkipped(t: Texture, i: nat)
    requires !Recorded(t, i)
    ensures Skipped(t, i) == i
    decreases i
  {
    if i > 0 {
      if Recorded(t, i - 1) { LaterMipsFit(t, i - 1); }
      AllSkipped(t, i - 1);
    }
  }

  lemma {:induction false} SliceIndex(t: Texture, plane: nat, start: nat, n: nat, i: nat)
    ensures |SliceEntries(t, plane, start, n)| == n - Skipped(t, n)
    ensures i < n && Skipped(t, n) <= i ==> SliceEntries(t, plane, start, n)[i - Skipped(t, n)] == Entry(t, plane, start, i)
    decreases n
  {
    if n > 0 {
      SliceIndex(t, plane, start, n - 1, i);
      SkippedFirst(t, n - 1, n);
      if i < n && Skipped(t, n) <= i {
        SkippedFirst(t, i, n);
        if i < n - 1 { SkippedFirst(t, i, n - 1); StaysRecorded(t, i, n - 1); }
      }
    }
  }

  lemma BlockBound(rows: nat, j: nat, m: nat, k: nat)
    requires j < m && k < rows
    ensures 0 <= rows * j + k < rows * m
  {
    ProductBound(j + 1, rows, m, rows);
    assert rows * (j + 1) == rows * j + rows;
  }

  /** One more block of entries behind blocks of the same size. */
  lemma BlockAppended(a: seq<Subresource>, b: seq<Subresource>, rows: nat, m: nat, j: nat, k: nat)
    requires |a| == rows * m && |b| == rows && k < rows
    ensures |a + b| == rows * (m + 1)
    ensures j < m ==> 0 <= rows * j + k < |a| && (a + b)[rows * j + k] == a[rows * j + k]
    ensures j == m ==> 0 <= rows * j + k < |a + b| && (a + b)[rows * j + k] == b[k]
  {
    assert rows * (m + 1) == rows * m + rows;
    if j < m { BlockBound(rows, j, m, k); }
  }

  lemma BlockLength(a: seq<Subresource>, b: seq<Subresource>, rows: nat, m: nat)
    requires |a| == rows * m && |b| == rows
    ensures |a + b| == rows * (m + 1)
  {
    assert rows * (m + 1) == rows * m + rows;
  }

  lemma {:induction false} PlaneLength(t: Texture, plane: nat, m: nat)
    ensures |PlaneEntries(t, plane, m)| == (t.mips - Skipped(t, t.mips)) * m
  {
    if m > 0 {
      PlaneLength(t, plane, m - 1);
      SliceIndex(t, plane, SliceStart(t, m - 1), t.mips, 0);
      BlockLength(PlaneEntries(t, plane, m - 1), SliceEntries(t, plane, SliceStart(t, m - 1), t.mips),
                  t.mips - Skipped(t, t.mips), m - 1);
    }
  }

  /** Entry of mip `i` of slice `j` within a plane. */
  lemma {:induction false} PlaneIndex(t: Texture, plane: nat, m: nat, j: nat, i: nat)
    requires j < m && Skipped(t, t.mips) <= i < t.mips
    ensures var s := Skipped(t, t.mips);
            && 0 <= (t.mips - s) * j + (i - s) < |PlaneEntries(t, plane, m)|
            && PlaneEntries(t, plane, m)[(t.mips - s) * j + (i - s)] == Entry(t, plane, SliceStart(t, j), i)
    decreases m
  {
    var s := Skipped(t, t.mips);
    PlaneLength(t, plane, m - 1);
    SliceIndex(t, plane, SliceStart(t, m - 1), t.mips, i);
    BlockAppended(PlaneEntries(t, plane, m - 1), SliceEntries(t, plane, SliceStart(t, m - 1), t.mips),
                  t.mips - s, m - 1, j, i - s);
    if j < m - 1 { PlaneIndex(t, plane, m - 1, j, i); }
  }

  lemma {:induction false} TableLength(t: Texture, q: nat)
    ensures |Entries(t, q)| == (t.mips - Skipped(t, t.mips)) * t.slices * q
  {
    if q > 0 {
      TableLength(t, q - 1);
      PlaneLength(t, q - 1, t.slices);
      BlockLength(Entries(t, q - 1), PlaneEntries(t, q - 1, t.slices), (t.mips - Skipped(t, t.mips)) * t.slices, q - 1);
    }
  }

  /** Entry of mip `i` of slice `j` of plane `p` within the table. */
  lemma {:induction false} TableIndex(t: Texture, q: nat, p: nat, j: nat, i: nat)
    requires p < q && j < t.slices && Skipped(t, t.mips) <= i < t.mips
    ensures var s := Skipped(t, t.mips);
            var k := (t.mips - s) * t.slices * p + ((t.mips - s) * j + (i - s));
            0 <= k < |Entries(t, q)| && Entries(t, q)[k] == Entry(t, p, SliceStart(t, j), i)
    decreases q
  {
    var s := Skipped(t, t.mips);
    TableLength(t, q - 1);
    PlaneLength(t, q - 1, t.slices);
    PlaneIndex(t, q - 1, t.slices, j, i);
    BlockBound(t.mips - s, j, t.slices, i - s);
    BlockAppended(Entries(t, q - 1), PlaneEntries(t, q - 1, t.slices), (t.mips - s) * t.slices, q - 1, p,
                  (t.mips - s) * j + (i - s));
    if p < q - 1 { TableIndex(t, q - 1, p, j, i); }
  }

  lemma Rearranged(rows: nat, slices: nat, p: nat, j: nat, k: nat)
    ensures rows * slices * p + (rows * j + k) == k + rows * (j + slices * p)
  {
    assert rows * slices * p == rows * (slices * p);
    assert rows * (j + slices * p) == rows * j + rows * (slices * p);
  }

  lemma {:induction false} NothingSkipped(t: Texture, n: nat)
    requires t.maxSize == 0
    ensures Skipped(t, n) == 0
  {
    if n > 0 { NothingSkipped(t, n - 1); }
  }

  /** Direct3D's number of mip `i` of slice `j` of plane `p`. */
  function SubresourceIndex(t: Texture, p: nat, j: nat, i: nat): int {
    i + t.mips * (j + t.slices * p)
  }

  /**
   * The table of a texture loaded without a size limit: mip `i` of slice `j` of plane `p` is at its number, and
   * begins where the mips and slices before it end.
   */
  lemma IndexFormula(t: Texture, p: nat, j: nat, i: nat)
    requires t.maxSize == 0 && p < t.planes && j < t.slices && i < t.mips
    ensures var data, index := AllNoted(t, t.planes, START).data, SubresourceIndex(t, p, j, i);
            0 <= index < |data| && data[index] == Entry(t, p, SliceStart(t, j), i)
  {
    NothingSkipped(t, t.mips);
    AllData(t, t.planes);
    TableIndex(t, t.planes, p, j, i);
    Rearranged(t.mips, t.slices, p, j, i);
  }

  /** A volume of depth 0 has no bytes for its first mip, which a second plane would still be placed behind. */
  predicate HasDepth(t: Texture) {
    t.depth >= 1 || t.planes <= 1 || (!t.format.Nv11? && !(t.format.Planar? && t.format.split))
  }

  lemma {:induction false} DepthStays(x: nat, i: nat)
    requires x >= 1 || i >= 1
    ensures Mip(x, i) >= 1
  {
    if i > 0 && x >= 1 { DepthStays(x, i - 1); }
  }

  lemma DeepEntryInside(t: Texture, bitSize: nat, p: nat, j: nat, i: nat)
    requires Known(t.format) && MipOK(t, i) && Mip(t.depth, i) >= 1
    requires SliceStart(t, t.slices) <= bitSize && j < t.slices && i < t.mips
    ensures var e := Entry(t, p, SliceStart(t, j), i);
            e.offset + e.slicePitch * Mip(t.depth, i) <= bitSize
  {
    MipEndsInside(t, bitSize, j, i);
    MipInside(t, bitSize, p, SliceStart(t, j), i);
  }

  lemma MipInside(t: Texture, bitSize: nat, p: nat, start: nat, i: nat)
    requires Known(t.format) && MipOK(t, i) && Mip(t.depth, i) >= 1
    requires start + ChainBytes(t, i) + MipBytes(t, i) <= bitSize
    ensures var e := Entry(t, p, start, i);
            e.offset + e.slicePitch * Mip(t.depth, i) <= bitSize
  {
    AdjustedWithin(t, p, start, i);
  }

  lemma MipEndsInside(t: Texture, bitSize: nat, j: nat, i: nat)
    requires SliceStart(t, t.slices) <= bitSize && j < t.slices && i < t.mips
    ensures SliceStart(t, j) + ChainBytes(t, i) + MipBytes(t, i) <= bitSize
  {
    SlicesEndInside(t, j, i + 1);
    assert ChainBytes(t, i + 1) == ChainBytes(t, i) + MipBytes(t, i);
  }

  lemma FlatEntryInside(t: Texture, bitSize: nat, p: nat, j: nat)
    requires Fits(t, bitSize) && HasDepth(t) && p < t.planes && j < t.slices && t.depth == 0
    ensures var e := Entry(t, p, SliceStart(t, j), 0);
            e.offset + e.slicePitch * Mip(t.depth, 0) <= bitSize
  {
    SlicesEndInside(t, j, 0);
    assert Mip(t.depth, 0) == 0 && ChainBytes(t, 0) == 0;
    assert Entry(t, p, SliceStart(t, j), 0).offset == SliceStart(t, j);
  }

  /** What every entry covers, all its depth layers, lies inside the texture's bytes. */
  lemma EntriesInside(t: Texture, bitSize: nat, p: nat, j: nat, i: nat)
    requires Bounded(t) && Fits(t, bitSize) && HasDepth(t) && p < t.planes && j < t.slices && i < t.mips
    ensures var e := Entry(t, p, SliceStart(t, j), i);
            e.offset + e.slicePitch * Mip(t.depth, i) <= bitSize
  {
    if t.depth >= 1 || i >= 1 {
      DepthStays(t.depth, i);
      assert MipOK(t, i);
      DeepEntryInside(t, bitSize, p, j, i);
    } else {
      FlatEntryInside(t, bitSize, p, j);
    }
  }

  predicate EntryInside(t: Texture, bitSize: nat, p: nat, j: nat, i: nat) {
    var e := Entry(t, p, SliceStart(t, j), i);
    e.offset + e.slicePitch * Mip(t.depth, i) <= bitSize
  }

  /** Where the second plane of the last slice would begin. */
  function SecondPlane(t: Texture): int
    requires t.slices > 0
  {
    SliceStart(t, t.slices - 1) + SurfaceAt(t, 0).rowBytes * t.height
  }

  lemma SecondPlaneEntry(t: Texture, p: nat, j: nat)
    requires t.depth == 0 && !HasDepth(t)
    ensures var e := Entry(t, p, SliceStart(t, j), 0);
            && e.slicePitch * Mip(t.depth, 0) == 0
            && e.offset == SliceStart(t, j) + if p == 0 then 0 else SurfaceAt(t, 0).rowBytes * t.height
  {
    assert ChainBytes(t, 0) == 0 && Mip(t.depth, 0) == 0 && Mip(t.height, 0) == t.height;
  }

  lemma FlatPlaneInside(t: Texture, bitSize: nat, p: nat, j: nat)
    requires t.depth == 0 && !HasDepth(t) && j < t.slices && SecondPlane(t) <= bitSize
    ensures EntryInside(t, bitSize, p, j, 0)
  {
    SecondPlaneEntry(t, p, j);
    ProductBound(j, ChainBytes(t, t.mips), t.slices - 1, ChainBytes(t, t.mips));
  }

  /**
   * An accepted table has all its entries inside the bytes exactly if the texture has depth, or no entries, or
   * bytes enough that even the second plane of a mip without bytes begins inside them.
   */
  lemma EntriesInsideIff(t: Texture, bitSize: nat)
    requires Bounded(t) && Fits(t, bitSize)
    ensures (forall p: nat, j: nat, i: nat | p < t.planes && j < t.slices && i < t.mips ::
               EntryInside(t, bitSize, p, j, i))
            <==> HasDepth(t) || t.slices == 0 || t.mips == 0 || SecondPlane(t) <= bitSize
  {
    if HasDepth(t) || t.slices == 0 || t.mips == 0 || SecondPlane(t) <= bitSize {
      forall p: nat, j: nat, i: nat | p < t.planes && j < t.slices && i < t.mips ensures EntryInside(t, bitSize, p, j, i) {
        if HasDepth(t) {
          EntriesInside(t, bitSize, p, j, i);
        } else if i == 0 {
          FlatPlaneInside(t, bitSize, p, j);
        } else {
          DepthStays(t.depth, i);
          DeepEntryInside(t, bitSize, p, j, i);
        }
      }
    } else {
      SecondPlaneEntry(t, 1, t.slices - 1);
      assert !EntryInside(t, bitSize, 1, t.slices - 1, 0);
    }
  }

  /** Without that condition a table with an entry outside the bytes is accepted. */
  lemma DepthZeroEscapes(t: Texture)
    requires t == Texture(4, 4, 0, 1, 1, 2, Nv11, 0)
    ensures Bounded(t) && Fits(t, 0) && AllNoted(t, t.planes, START).data != []
    ensures AllNoted(t, t.planes, START).data[1].offset > 0
  {
    assert ChainBytes(t, 0) == 0 && ChainBytes(t, 1) == 0;
    assert Mip(4, 0) == 4 && Mip(0, 0) == 0;
    IndexFormula(t, 1, 0, 0);
    assert SurfaceAt(t, 0) == Surface(32, 4);
  }

  /** The count of passed-over mips is the number of mips passed over only for textures of one plane. */
  lemma SkipCountIff(t: Texture)
    requires t.slices > 0 && t.planes > 0
    ensures AllNoted(t, t.planes, START).skipMip == Skipped(t, t.mips) <==> t.planes == 1 || Skipped(t, t.mips) == 0
  {
    AllData(t, t.planes);
    OnceIff(t.planes, Skipped(t, t.mips));
  }

  /** An NV12 texture of which one of two mips is passed over is accepted with both counted as passed over. */
  lemma SkipsTwice(t: Texture)
    requires t == Texture(4, 4, 1, 2, 1, 2, Planar(2, true, true), 2)
    ensures Bounded(t) && Fits(t, 30) && AllNoted(t, t.planes, START).data != []
    ensures Skipped(t, t.mips) == 1 && AllNoted(t, t.planes, START).skipMip == 2 == t.mips
  {
    assert Mip(4, 0) == 4 && Mip(4, 1) == 2 && Mip(1, 0) == 1 && Mip(1, 1) == 1;
    assert SurfaceAt(t, 0) == Surface(24, 4) && SurfaceAt(t, 1) == Surface(6, 2);
    assert ChainBytes(t, 1) == 24 && ChainBytes(t, 2) == 30;
    assert !Recorded(t, 0) && Recorded(t, 1) && Skipped(t, 1) == 1;
    AllData(t, 2);
    assert SliceEntries(t, 1, SliceStart(t, 0), 2) != [];
    assert PlaneEntries(t, 1, 1) != [] && Entries(t, 2) == Entries(t, 1) + PlaneEntries(t, 1, 1);
  }

  lemma OnceIff(q: nat, s: nat)
    requires q > 0
    ensures q * s == s <==> q == 1 || s == 0
  {
    if q > 1 { ProductBound(2, s, q, s); }
  }
}
