/** Camera frames into NV12: strided row loops over real buffers, proved against
    the picture each layout describes. */
module PixelFormats {
  import opened Basics

  datatype Pixels = Nv12 | I420 | Yuy2 | Uyvy | Rgb32 | Rgb24 {
    /** Bytes per row as DirectShow packs them. */
    function Stride(width: nat): nat {
      match this
      case Nv12 | I420 => width
      case Yuy2 | Uyvy => width * 2
      case Rgb32 => width * 4
      case Rgb24 => (width * 3 + 3) / 4 * 4
    }

    function Needed(pitch: nat, height: nat): nat {
      match this
      case Nv12 => pitch * height + pitch * ((height + 1) / 2)
      case I420 => pitch * height + 2 * (pitch / 2) * ((height + 1) / 2)
      case _ => pitch * height
    }

    predicate CanBeBottomUp() {
      !Nv12? && !I420?
    }

    function MinimumPitch(width: nat): nat {
      match this
      case Nv12 | I420 => width
      case Yuy2 | Uyvy => width * 2
      case Rgb32 => width * 4
      case Rgb24 => width * 3
    }

    predicate Packed422() {
      Yuy2? || Uyvy?
    }
  }

  /** One frame as it sits in memory. */
  datatype Raw = Raw(data: seq<Byte>, pitch: nat, bottomUp: bool)

  // ---------------------------------------------------------------------------
  // The picture a frame describes
  // ---------------------------------------------------------------------------

  function Peek(data: seq<Byte>, i: int): Byte {
    if 0 <= i < |data| then data[i] else 0
  }

  /** Where in memory a row of the picture is stored. */
  function Stored(raw: Raw, height: nat, row: int): int {
    if raw.bottomUp then height - 1 - row else row
  }

  /** Where luma, U and V sit inside each four-byte pixel pair. */
  function Offsets(kind: Pixels): (nat, nat, nat) {
    if kind.Yuy2? then (0, 1, 3) else (1, 0, 2)
  }

  function LumaAt(kind: Pixels, raw: Raw, height: nat, row: int, column: int): Byte {
    if kind.Packed422() then
      Peek(raw.data, Stored(raw, height, row) * raw.pitch + (column * 2 + Offsets(kind).0))
    else
      Peek(raw.data, row * raw.pitch + column)
  }

  /** U in the even columns and V in the odd ones; chroma row `row` belongs to
      picture row `2 * row`. */
  function ChromaAt(kind: Pixels, raw: Raw, height: nat, row: int, column: int): Byte {
    if kind.Packed422() then
      Peek(raw.data, Stored(raw, height, 2 * row) * raw.pitch
                     + (column / 2 * 4 + if column % 2 == 0 then Offsets(kind).1 else Offsets(kind).2))
    else
      Peek(raw.data, height * raw.pitch + row * raw.pitch + column)
  }

  type Sample = (int, int) -> Byte

  function Luma(kind: Pixels, raw: Raw, height: nat): Sample {
    (row, column) => LumaAt(kind, raw, height, row, column)
  }

  function Chroma(kind: Pixels, raw: Raw, height: nat): Sample {
    (row, column) => ChromaAt(kind, raw, height, row, column)
  }

  /** The four bytes of one pixel pair of a packed row: Y U Y V, or U Y V Y. `line` is
      where the pair starts: rows follow each other downwards, or upwards from the last
      one when the frame is stored bottom-up. */
  lemma PixelPair(kind: Pixels, raw: Raw, height: nat, row: nat, pair: nat, line: nat)
    requires kind.Packed422() && row < height
    requires line as int == (if raw.bottomUp then height - 1 - row else row) * raw.pitch + 4 * pair
    requires line + 4 <= |raw.data|
    ensures kind.Yuy2? ==>
              && LumaAt(kind, raw, height, row, 2 * pair) == raw.data[line]
              && LumaAt(kind, raw, height, row, 2 * pair + 1) == raw.data[line + 2]
              && (row % 2 == 0 ==> ChromaAt(kind, raw, height, row / 2, 2 * pair) == raw.data[line + 1])
              && (row % 2 == 0 ==> ChromaAt(kind, raw, height, row / 2, 2 * pair + 1) == raw.data[line + 3])
    ensures kind.Uyvy? ==>
              && LumaAt(kind, raw, height, row, 2 * pair) == raw.data[line + 1]
              && LumaAt(kind, raw, height, row, 2 * pair + 1) == raw.data[line + 3]
              && (row % 2 == 0 ==> ChromaAt(kind, raw, height, row / 2, 2 * pair) == raw.data[line])
              && (row % 2 == 0 ==> ChromaAt(kind, raw, height, row / 2, 2 * pair + 1) == raw.data[line + 2])
  {
    assert row % 2 == 0 ==> 2 * (row / 2) == row;
    assert (2 * pair + 1) / 2 == pair && (2 * pair + 1) % 2 == 1;
  }

  /** NV12: luma row by row, and after the last of its rows U and V in turn. */
  lemma Nv12Planes(raw: Raw, height: nat, row: nat, column: nat, luma: nat, chroma: nat)
    requires luma as int == row * raw.pitch + column && chroma as int == height * raw.pitch + luma
    requires chroma < |raw.data|
    ensures LumaAt(Nv12, raw, height, row, column) == raw.data[luma]
    ensures ChromaAt(Nv12, raw, height, row, column) == raw.data[chroma]
  {
  }

  /** How many bytes a layout takes: a pixel of the widest row, and a whole picture of
      even sides, the planar ones at one and a half bytes a pixel. */
  lemma LayoutSizes(kind: Pixels, pitch: nat, height: nat)
    requires pitch % 2 == 0 && height % 2 == 0
    ensures kind.MinimumPitch(1) == (if kind.Nv12? || kind.I420? then 1 else if kind.Packed422() then 2
                                     else if kind.Rgb24? then 3 else 4)
    ensures forall width: nat :: kind.MinimumPitch(width) == kind.MinimumPitch(1) * width
    ensures if kind.Nv12? || kind.I420? then 2 * kind.Needed(pitch, height) == 3 * (pitch * height)
            else kind.Needed(pitch, height) == pitch * height
  {
    assert (height + 1) / 2 == height / 2 && 2 * (pitch / 2) == pitch;
    HalfOf(pitch, height);
  }

  lemma HalfOf(pitch: nat, height: nat)
    requires height % 2 == 0
    ensures 2 * (pitch * (height / 2)) == pitch * height
  {
    assert 2 * (height / 2) == height;
  }

  /** Which bytes of a strided plane belong to its picture. */
  predicate Covered(i: int, stride: nat, width: nat, rows: nat) {
    stride > 0 && 0 <= i && 0 <= i / stride < rows && i % stride < width
  }

  /** A plane with `rows` rows of `width` samples painted over it, and every byte
      outside them as it was. */
  function Painted(before: seq<Byte>, stride: nat, width: nat, rows: nat, sample: Sample): (after: seq<Byte>)
    ensures |after| == |before|
  {
    seq(|before|, i requires 0 <= i < |before| =>
      if Covered(i, stride, width, rows) then sample(i / stride, i % stride) else before[i])
  }

  // ---------------------------------------------------------------------------
  // Rows and columns
  // ---------------------------------------------------------------------------

  lemma RowColumn(i: int, stride: nat, row: int, column: int)
    requires stride > 0 && 0 <= column < stride && i == row * stride + column
    ensures i / stride == row && i % stride == column
  {
    var q, r := i / stride, i % stride;
    assert i == q * stride + r;
    if q < row {
      RowGap(stride, q, row);
    } else if row < q {
      RowGap(stride, row, q);
    }
  }

  lemma RowGap(stride: nat, a: int, b: int)
    requires a < b
    ensures a * stride + stride <= b * stride
  {
    assert (b - a - 1) * stride >= 0;
    assert (b - a - 1) * stride == b * stride - a * stride - stride;
  }

  /** Byte `column` of line `row` of a painted plane: the picture's sample inside
      the picture, what was there before in the padding and below. */
  lemma PaintedAt(before: seq<Byte>, stride: nat, width: nat, rows: nat, sample: Sample,
                  row: nat, column: nat, i: nat)
    requires width <= stride && column < stride && i == row * stride + column && i < |before|
    ensures Painted(before, stride, width, rows, sample)[i]
         == if row < rows && column < width then sample(row, column) else before[i]
  {
    RowColumn(i, stride, row, column);
  }

  /** A whole row fits when the plane has room for all of them. */
  lemma RowFits(stride: nat, width: nat, row: nat, rows: nat)
    requires row < rows && width <= stride
    ensures 0 <= row * stride && row * stride + width <= rows * stride
  {
    RowGap(stride, row, rows);
    assert row * stride >= 0;
  }

  lemma NothingPainted(before: seq<Byte>, stride: nat, width: nat, sample: Sample)
    ensures Painted(before, stride, width, 0, sample) == before
  {
    var after := Painted(before, stride, width, 0, sample);
    forall i | 0 <= i < |before| ensures after[i] == before[i] {
      assert !Covered(i, stride, width, 0);
    }
  }

  /** Painting one more row adds exactly the bytes of that row. */
  lemma EdgeMoves(i: int, stride: nat, width: nat, row: nat)
    requires width <= stride && 0 <= i
    ensures Covered(i, stride, width, row + 1)
            <==> Covered(i, stride, width, row) || row * stride <= i < row * stride + width
    ensures row * stride <= i < row * stride + width ==> i / stride == row && i % stride == i - row * stride
  {
    if row * stride <= i < row * stride + width {
      RowColumn(i, stride, row, i - row * stride);
    } else if stride > 0 && i / stride == row {
      assert i == i / stride * stride + i % stride;
    }
  }

  /** Writing one more row of samples moves the painted edge down by one. */
  lemma OneMoreRow(before: seq<Byte>, current: seq<Byte>, next: seq<Byte>, from: seq<Byte>,
                   stride: nat, width: nat, row: nat, base: nat, sample: Sample)
    requires width <= stride && |from| == width && base == row * stride && base + width <= |before|
    requires current == Painted(before, stride, width, row, sample)
    requires next == current[..base] + from + current[base + width..]
    requires forall j :: 0 <= j < width ==> from[j] == sample(row, j)
    ensures next == Painted(before, stride, width, row + 1, sample)
  {
    forall i | 0 <= i < |before| ensures next[i] == Painted(before, stride, width, row + 1, sample)[i] {
      EdgeMoves(i, stride, width, row);
      assert next[i] == if base <= i < base + width then from[i - base] else current[i];
    }
  }

  // ---------------------------------------------------------------------------
  // The row loops
  // ---------------------------------------------------------------------------

  method CopyFromSlice(dst: array<Byte>, at: nat, from: seq<Byte>)
    requires at + |from| <= dst.Length
    modifies dst
    ensures dst[..] == old(dst[..])[..at] + from + old(dst[..])[at + |from|..]
  {
    forall j | 0 <= j < |from| {
      dst[at + j] := from[j];
    }
  }

  /** Copies `rows` rows of `width` bytes from `source`, starting `offset` bytes
      in, between two different strides. */
  method CopyRows(source: seq<Byte>, offset: nat, pitch: nat, dst: array<Byte>, stride: nat, width: nat, rows: nat,
                  ghost sample: Sample)
    requires width <= pitch && width <= stride
    requires offset + rows * pitch <= |source| && rows * stride <= dst.Length
    requires forall row, column :: 0 <= row < rows && 0 <= column < width ==>
               sample(row, column) == Peek(source, offset + row * pitch + column)
    modifies dst
    ensures dst[..] == Painted(old(dst[..]), stride, width, rows, sample)
  {
    NothingPainted(dst[..], stride, width, sample);
    for row := 0 to rows
      invariant dst[..] == Painted(old(dst[..]), stride, width, row, sample)
    {
      RowFits(pitch, width, row, rows);
      RowFits(stride, width, row, rows);
      var from := source[offset + row * pitch..offset + row * pitch + width];
      ghost var current := dst[..];
      CopyFromSlice(dst, row * stride, from);
      OneMoreRow(old(dst[..]), current, dst[..], from, stride, width, row, row * stride, sample);
    }
  }

  lemma Nv12Samples(raw: Raw, size: Size)
    ensures forall row, column :: 0 <= row < size.height && 0 <= column < size.width ==>
              Luma(Nv12, raw, size.height)(row, column) == Peek(raw.data, 0 + row * raw.pitch + column)
    ensures forall row, column :: 0 <= row < size.height / 2 && 0 <= column < size.width ==>
              Chroma(Nv12, raw, size.height)(row, column)
                == Peek(raw.data, raw.pitch * size.height + row * raw.pitch + column)
  {
  }

  /** What the NV12 copy checks for itself. */
  predicate Nv12Fits(source: seq<Byte>, pitch: nat, size: Size,
                     lumaBytes: nat, strideY: nat, chromaBytes: nat, strideUv: nat)
  {
    && size.width <= pitch && pitch * size.height + pitch * (size.height / 2) <= |source|
    && size.width <= strideY && size.width <= strideUv
    && strideY * size.height <= lumaBytes && strideUv * (size.height / 2) <= chromaBytes
  }

  /** Row by row, whatever the two pitches are: nothing is sheared, nothing past
      the width is touched, and a frame that does not fit changes nothing. */
  method Nv12Into(source: seq<Byte>, pitch: nat, size: Size,
                  dstY: array<Byte>, strideY: nat, dstUv: array<Byte>, strideUv: nat) returns (ok: bool)
    requires dstY != dstUv
    modifies dstY, dstUv
    ensures ok == Nv12Fits(source, pitch, size, dstY.Length, strideY, dstUv.Length, strideUv)
    ensures !ok ==> dstY[..] == old(dstY[..]) && dstUv[..] == old(dstUv[..])
    ensures ok ==> dstY[..] == Painted(old(dstY[..]), strideY, size.width, size.height,
                                       Luma(Nv12, Raw(source, pitch, false), size.height))
    ensures ok ==> dstUv[..] == Painted(old(dstUv[..]), strideUv, size.width, size.height / 2,
                                        Chroma(Nv12, Raw(source, pitch, false), size.height))
  {
    var rows, chromaRows := size.height, size.height / 2;
    if pitch < size.width || |source| < pitch * rows + pitch * chromaRows {
      return false;
    }
    if strideY < size.width || strideUv < size.width {
      return false;
    }
    if dstY.Length < strideY * rows || dstUv.Length < strideUv * chromaRows {
      return false;
    }
    ghost var raw := Raw(source, pitch, false);
    Nv12Samples(raw, size);
    CopyRows(source, 0, pitch, dstY, strideY, size.width, rows, Luma(Nv12, raw, size.height));
    ghost var luma := dstY[..];
    assert dstUv[..] == old(dstUv[..]);
    CopyRows(source, pitch * rows, pitch, dstUv, strideUv, size.width, chromaRows,
             Chroma(Nv12, raw, size.height));
    assert dstY[..] == luma;
    return true;
  }

  /** One stored row of pixel pairs: its luma bytes. */
  function LumaRow(from: seq<Byte>, width: nat, offset: nat): (r: seq<Byte>)
    requires |from| == width * 2 && offset < 2
    ensures |r| == width
  {
    seq(width, pixel requires 0 <= pixel < width => from[pixel * 2 + offset])
  }

  /** Its chroma, U and V interleaved; an odd last column has no pair. */
  function ChromaRow(from: seq<Byte>, width: nat, u: nat, v: nat): (r: seq<Byte>)
    requires |from| == width * 2 && u < 4 && v < 4
    ensures |r| == width / 2 * 2
  {
    seq(width / 2 * 2, j requires 0 <= j < width / 2 * 2 => from[j / 2 * 4 + if j % 2 == 0 then u else v])
  }

  method SpreadLuma(dst: array<Byte>, stride: nat, row: nat, rows: nat, from: seq<Byte>, width: nat, offset: nat,
                    ghost before: seq<Byte>, ghost luma: Sample)
    requires |from| == width * 2 && offset < 2 && width <= stride && row < rows && rows * stride <= dst.Length
    requires |before| == dst.Length && dst[..] == Painted(before, stride, width, row, luma)
    requires forall j :: 0 <= j < width ==> LumaRow(from, width, offset)[j] == luma(row, j)
    modifies dst
    ensures dst[..] == Painted(before, stride, width, row + 1, luma)
  {
    RowFits(stride, width, row, rows);
    var at := row * stride;
    ghost var current, line := dst[..], LumaRow(from, width, offset);
    for pixel := 0 to width
      invariant forall j :: 0 <= j < pixel ==> dst[at + j] == line[j]
      invariant forall k :: 0 <= k < dst.Length && !(at <= k < at + pixel) ==> dst[k] == current[k]
    {
      dst[at + pixel] := from[pixel * 2 + offset];
    }
    assert dst[..] == current[..at] + line + current[at + |line|..];
    OneMoreRow(before, current, dst[..], line, stride, width, row, at, luma);
  }

  method SpreadChroma(dst: array<Byte>, stride: nat, row: nat, rows: nat, from: seq<Byte>, width: nat, u: nat, v: nat,
                      ghost before: seq<Byte>, ghost chroma: Sample)
    requires |from| == width * 2 && u < 4 && v < 4 && width <= stride && row < rows && rows * stride <= dst.Length
    requires |before| == dst.Length && dst[..] == Painted(before, stride, width / 2 * 2, row, chroma)
    requires forall j :: 0 <= j < width / 2 * 2 ==> ChromaRow(from, width, u, v)[j] == chroma(row, j)
    modifies dst
    ensures dst[..] == Painted(before, stride, width / 2 * 2, row + 1, chroma)
  {
    RowFits(stride, width, row, rows);
    var at := row * stride;
    ghost var current, line := dst[..], ChromaRow(from, width, u, v);
    for pair := 0 to width / 2
      invariant forall j :: 0 <= j < pair * 2 ==> dst[at + j] == line[j]
      invariant forall k :: 0 <= k < dst.Length && !(at <= k < at + pair * 2) ==> dst[k] == current[k]
    {
      dst[at + pair * 2] := from[pair * 4 + u];
      dst[at + pair * 2 + 1] := from[pair * 4 + v];
      assert line[pair * 2] == from[pair * 4 + u] && line[pair * 2 + 1] == from[pair * 4 + v];
    }
    assert dst[..] == current[..at] + line + current[at + |line|..];
    OneMoreRow(before, current, dst[..], line, stride, width / 2 * 2, row, at, chroma);
  }

  lemma LumaRowOf(kind: Pixels, raw: Raw, size: Size, row: nat, from: seq<Byte>)
    requires kind.Packed422() && row < size.height && size.width * 2 <= raw.pitch
    requires var at := Stored(raw, size.height, row) * raw.pitch;
             0 <= at && at + size.width * 2 <= |raw.data| && from == raw.data[at..at + size.width * 2]
    ensures forall j :: 0 <= j < size.width ==>
              LumaRow(from, size.width, Offsets(kind).0)[j] == Luma(kind, raw, size.height)(row, j)
  {
  }

  lemma ChromaRowOf(kind: Pixels, raw: Raw, size: Size, row: nat, from: seq<Byte>)
    requires kind.Packed422() && row < size.height && row % 2 == 0 && size.width * 2 <= raw.pitch
    requires var at := Stored(raw, size.height, row) * raw.pitch;
             0 <= at && at + size.width * 2 <= |raw.data| && from == raw.data[at..at + size.width * 2]
    ensures forall j :: 0 <= j < size.width / 2 * 2 ==>
              ChromaRow(from, size.width, Offsets(kind).1, Offsets(kind).2)[j]
                == Chroma(kind, raw, size.height)(row / 2, j)
  {
    assert row / 2 * 2 == row;
  }

  predicate Packed422Fits(raw: Raw, size: Size, strideY: nat, strideUv: nat) {
    && size.width * 2 <= raw.pitch && raw.pitch * size.height <= |raw.data|
    && size.width <= strideY && size.width <= strideUv
  }

  /** Packed 4:2:2: every luma byte, and the chroma of the even picture rows. */
  method Packed422Into(kind: Pixels, raw: Raw, size: Size,
                       dstY: array<Byte>, strideY: nat, dstUv: array<Byte>, strideUv: nat) returns (ok: bool)
    requires kind.Packed422() && dstY != dstUv
    requires strideY * size.height <= dstY.Length && strideUv * ((size.height + 1) / 2) <= dstUv.Length
    modifies dstY, dstUv
    ensures ok == Packed422Fits(raw, size, strideY, strideUv)
    ensures !ok ==> dstY[..] == old(dstY[..]) && dstUv[..] == old(dstUv[..])
    ensures ok ==> dstY[..] == Painted(old(dstY[..]), strideY, size.width, size.height,
                                       Luma(kind, raw, size.height))
    ensures ok ==> dstUv[..] == Painted(old(dstUv[..]), strideUv, size.width / 2 * 2, (size.height + 1) / 2,
                                        Chroma(kind, raw, size.height))
  {
    var rows, width, pitch := size.height, size.width, raw.pitch;
    if pitch < width * 2 || |raw.data| < pitch * rows {
      return false;
    }
    if strideY < width || strideUv < width {
      return false;
    }
    ghost var luma, chroma := Luma(kind, raw, size.height), Chroma(kind, raw, size.height);
    NothingPainted(dstY[..], strideY, width, luma);
    NothingPainted(dstUv[..], strideUv, width / 2 * 2, chroma);
    for row := 0 to rows
      invariant dstY[..] == Painted(old(dstY[..]), strideY, width, row, luma)
      invariant dstUv[..] == Painted(old(dstUv[..]), strideUv, width / 2 * 2, (row + 1) / 2, chroma)
    {
      PackedRow(kind, raw, size, row, dstY, strideY, dstUv, strideUv, old(dstY[..]), old(dstUv[..]));
    }
    return true;
  }

  lemma Halves(row: nat)
    ensures row % 2 == 0 ==> (row + 1) / 2 == row / 2 && (row + 2) / 2 == row / 2 + 1
    ensures row % 2 != 0 ==> (row + 2) / 2 == (row + 1) / 2
  {
  }

  /** The bytes of one row of the picture, wherever it is stored. */
  method PictureRow(kind: Pixels, raw: Raw, size: Size, row: nat) returns (from: seq<Byte>)
    requires kind.Packed422() && row < size.height
    requires size.width * 2 <= raw.pitch && raw.pitch * size.height <= |raw.data|
    ensures |from| == size.width * 2
    ensures forall j :: 0 <= j < size.width ==>
              LumaRow(from, size.width, Offsets(kind).0)[j] == Luma(kind, raw, size.height)(row, j)
    ensures row % 2 == 0 ==> forall j :: 0 <= j < size.width / 2 * 2 ==>
              ChromaRow(from, size.width, Offsets(kind).1, Offsets(kind).2)[j]
                == Chroma(kind, raw, size.height)(row / 2, j)
  {
    var stored := if raw.bottomUp then size.height - 1 - row else row;
    RowFits(raw.pitch, size.width * 2, stored, size.height);
    var at := stored * raw.pitch;
    from := raw.data[at..at + size.width * 2];
    LumaRowOf(kind, raw, size, row, from);
    if row % 2 == 0 {
      ChromaRowOf(kind, raw, size, row, from);
    }
  }

  method PackedRow(kind: Pixels, raw: Raw, size: Size, row: nat,
                   dstY: array<Byte>, strideY: nat, dstUv: array<Byte>, strideUv: nat,
                   ghost beforeY: seq<Byte>, ghost beforeUv: seq<Byte>)
    requires kind.Packed422() && dstY != dstUv && row < size.height && Packed422Fits(raw, size, strideY, strideUv)
    requires strideY * size.height <= dstY.Length && strideUv * ((size.height + 1) / 2) <= dstUv.Length
    requires |beforeY| == dstY.Length && |beforeUv| == dstUv.Length
    requires dstY[..] == Painted(beforeY, strideY, size.width, row, Luma(kind, raw, size.height))
    requires dstUv[..] == Painted(beforeUv, strideUv, size.width / 2 * 2, (row + 1) / 2, Chroma(kind, raw, size.height))
    modifies dstY, dstUv
    ensures dstY[..] == Painted(beforeY, strideY, size.width, row + 1, Luma(kind, raw, size.height))
    ensures dstUv[..] == Painted(beforeUv, strideUv, size.width / 2 * 2, (row + 2) / 2, Chroma(kind, raw, size.height))
  {
    var rows, width := size.height, size.width;
    var (lumaAt, uAt, vAt) := Offsets(kind);
    ghost var y, uv := Luma(kind, raw, rows), Chroma(kind, raw, rows);
    ghost var untouched := dstUv[..];
    Halves(row);
    var from := PictureRow(kind, raw, size, row);
    SpreadLuma(dstY, strideY, row, rows, from, width, lumaAt, beforeY, y);
    assert dstUv[..] == untouched;
    if row % 2 != 0 {
      return;
    }
    ghost var done := dstY[..];
    SpreadChroma(dstUv, strideUv, row / 2, (rows + 1) / 2, from, width, uAt, vAt, beforeUv, uv);
    assert dstY[..] == done;
  }

  // ---------------------------------------------------------------------------
  // One frame
  // ---------------------------------------------------------------------------

  /** What can become of a frame: refused, converted here, or handed to libyuv. */
  datatype Outcome = Refused | Converted | Foreign

  /** The checks made for every layout before anything is read. */
  predicate Accepts(kind: Pixels, raw: Raw, size: Size, lumaBytes: nat, strideY: nat, chromaBytes: nat, strideUv: nat) {
    && size.width >= 2 && size.height >= 2 && size.width % 2 == 0 && size.height % 2 == 0
    && (raw.bottomUp ==> kind.CanBeBottomUp())
    && kind.MinimumPitch(size.width) <= raw.pitch && kind.Needed(raw.pitch, size.height) <= |raw.data|
    && strideY * size.height <= lumaBytes && strideUv * (size.height / 2) <= chromaBytes
  }

  predicate ConvertedHere(kind: Pixels) {
    kind.Nv12? || kind.Packed422()
  }

  /** A frame that is converted here becomes exactly its picture, inside the
      destination's rows; a frame that is refused changes nothing. */
  method Write(kind: Pixels, raw: Raw, size: Size,
               dstY: array<Byte>, strideY: nat, dstUv: array<Byte>, strideUv: nat) returns (outcome: Outcome)
    requires dstY != dstUv
    modifies dstY, dstUv
    ensures outcome.Converted? <==>
              && ConvertedHere(kind) && size.width <= strideY && size.width <= strideUv
              && Accepts(kind, raw, size, dstY.Length, strideY, dstUv.Length, strideUv)
    ensures outcome.Foreign? <==>
              !ConvertedHere(kind) && Accepts(kind, raw, size, dstY.Length, strideY, dstUv.Length, strideUv)
    ensures outcome.Refused? ==> dstY[..] == old(dstY[..]) && dstUv[..] == old(dstUv[..])
    ensures size.width < 2 || size.height < 2 || size.width % 2 != 0 || size.height % 2 != 0 ==> outcome.Refused?
    ensures raw.bottomUp && (kind.Nv12? || kind.I420?) ==> outcome.Refused?
    ensures kind.I420? || kind.Rgb24? || kind.Rgb32? ==> !outcome.Converted?
    ensures kind.Packed422() ==>
              (outcome.Converted? <==>
                && size.width >= 2 && size.height >= 2 && size.width % 2 == 0 && size.height % 2 == 0
                && 2 * size.width <= raw.pitch && raw.pitch * size.height <= |raw.data|
                && size.width <= strideY && strideY * size.height <= dstY.Length
                && size.width <= strideUv && strideUv * (size.height / 2) <= dstUv.Length)
    ensures kind.Nv12? ==>
              (outcome.Converted? <==>
                && size.width >= 2 && size.height >= 2 && size.width % 2 == 0 && size.height % 2 == 0 && !raw.bottomUp
                && size.width <= raw.pitch
                && raw.pitch * size.height + raw.pitch * (size.height / 2) <= |raw.data|
                && size.width <= strideY && strideY * size.height <= dstY.Length
                && size.width <= strideUv && strideUv * (size.height / 2) <= dstUv.Length)
    ensures outcome.Converted? ==>
              dstY[..] == Painted(old(dstY[..]), strideY, size.width, size.height,
                                  Luma(kind, raw, size.height))
    ensures outcome.Converted? ==>
              dstUv[..] == Painted(old(dstUv[..]), strideUv, size.width, size.height / 2,
                                   Chroma(kind, raw, size.height))
  {
    if size.width < 2 || size.height < 2 || size.width % 2 != 0 || size.height % 2 != 0 {
      return Refused;
    }
    if raw.bottomUp && !kind.CanBeBottomUp() {
      return Refused;
    }
    if raw.pitch < kind.MinimumPitch(size.width) || |raw.data| < kind.Needed(raw.pitch, size.height) {
      return Refused;
    }
    if dstY.Length < strideY * size.height || dstUv.Length < strideUv * (size.height / 2) {
      return Refused;
    }
    assert (size.height + 1) / 2 == size.height / 2 && size.width / 2 * 2 == size.width;
    match kind {
      case Nv12 =>
        assert raw == Raw(raw.data, raw.pitch, false);
        var ok := Nv12Into(raw.data, raw.pitch, size, dstY, strideY, dstUv, strideUv);
        outcome := if ok then Converted else Refused;
      case Yuy2 | Uyvy =>
        var ok := Packed422Into(kind, raw, size, dstY, strideY, dstUv, strideUv);
        outcome := if ok then Converted else Refused;
      case I420 | Rgb32 | Rgb24 =>
        outcome := Foreign;
    }
  }

  // ---------------------------------------------------------------------------
  // Bottom-up frames
  // ---------------------------------------------------------------------------

  /** The same picture stored the other way up: its rows in reverse order. */
  function Flipped(raw: Raw, height: nat): Raw {
    Raw(seq(|raw.data|, i requires 0 <= i < |raw.data| =>
          if raw.pitch > 0 && i < raw.pitch * height
          then Peek(raw.data, (height - 1 - i / raw.pitch) * raw.pitch + i % raw.pitch)
          else raw.data[i]),
        raw.pitch, !raw.bottomUp)
  }

  lemma FlippedRow(raw: Raw, height: nat, row: nat, offset: nat)
    requires row < height && offset < raw.pitch && raw.pitch * height <= |raw.data|
    ensures Peek(Flipped(raw, height).data, Stored(Flipped(raw, height), height, row) * raw.pitch + offset)
         == Peek(raw.data, Stored(raw, height, row) * raw.pitch + offset)
  {
    var there := Stored(Flipped(raw, height), height, row);
    var i := there * raw.pitch + offset;
    RowFits(raw.pitch, raw.pitch, there, height);
    RowColumn(i, raw.pitch, there, offset);
    assert Flipped(raw, height).data[i] == Peek(raw.data, (height - 1 - there) * raw.pitch + offset);
  }

  lemma FlippedSamples(kind: Pixels, raw: Raw, size: Size)
    requires kind.Packed422() && size.width * 2 <= raw.pitch && raw.pitch * size.height <= |raw.data|
    ensures forall r, c :: 0 <= r < size.height && 0 <= c < size.width ==>
              LumaAt(kind, Flipped(raw, size.height), size.height, r, c) == LumaAt(kind, raw, size.height, r, c)
    ensures forall r, c :: 0 <= r < size.height / 2 && 0 <= c < size.width / 2 * 2 ==>
              ChromaAt(kind, Flipped(raw, size.height), size.height, r, c) == ChromaAt(kind, raw, size.height, r, c)
  {
    forall r, c | 0 <= r < size.height && 0 <= c < size.width
      ensures LumaAt(kind, Flipped(raw, size.height), size.height, r, c) == LumaAt(kind, raw, size.height, r, c)
    {
      FlippedRow(raw, size.height, r, c * 2 + Offsets(kind).0);
    }
    forall r, c | 0 <= r < size.height / 2 && 0 <= c < size.width / 2 * 2
      ensures ChromaAt(kind, Flipped(raw, size.height), size.height, r, c) == ChromaAt(kind, raw, size.height, r, c)
    {
      FlippedRow(raw, size.height, 2 * r, c / 2 * 4 + if c % 2 == 0 then Offsets(kind).1 else Offsets(kind).2);
    }
  }

  lemma PaintedBySamples(before: seq<Byte>, stride: nat, width: nat, rows: nat, a: Sample, b: Sample)
    requires forall r, c :: 0 <= r < rows && 0 <= c < width ==> a(r, c) == b(r, c)
    ensures Painted(before, stride, width, rows, a) == Painted(before, stride, width, rows, b)
  {
    forall i | 0 <= i < |before|
      ensures Painted(before, stride, width, rows, a)[i] == Painted(before, stride, width, rows, b)[i]
    {
      if Covered(i, stride, width, rows) {
        assert a(i / stride, i % stride) == b(i / stride, i % stride);
      }
    }
  }

  /** A bottom-up frame is accepted exactly when its row-reversed twin is, and the
      two write the same bytes into any destination. */
  lemma TwinsWriteTheSame(kind: Pixels, raw: Raw, size: Size, y: seq<Byte>, strideY: nat, uv: seq<Byte>, strideUv: nat)
    requires kind.Packed422()
    ensures Accepts(kind, Flipped(raw, size.height), size, |y|, strideY, |uv|, strideUv)
            <==> Accepts(kind, raw, size, |y|, strideY, |uv|, strideUv)
    ensures Accepts(kind, raw, size, |y|, strideY, |uv|, strideUv) ==>
              && Painted(y, strideY, size.width, size.height,
                         Luma(kind, Flipped(raw, size.height), size.height))
                 == Painted(y, strideY, size.width, size.height, Luma(kind, raw, size.height))
              && Painted(uv, strideUv, size.width, size.height / 2,
                         Chroma(kind, Flipped(raw, size.height), size.height))
                 == Painted(uv, strideUv, size.width, size.height / 2, Chroma(kind, raw, size.height))
  {
    var twin, h := Flipped(raw, size.height), size.height;
    if Accepts(kind, raw, size, |y|, strideY, |uv|, strideUv) {
      FlippedSamples(kind, raw, size);
      PaintedBySamples(y, strideY, size.width, h,
                       Luma(kind, twin, h), Luma(kind, raw, h));
      PaintedBySamples(uv, strideUv, size.width, h / 2,
                       Chroma(kind, twin, h), Chroma(kind, raw, h));
    }
  }

  /** A frame packed the DirectShow way has the pitch its layout needs, and no
      more than the padding to four bytes. */
  lemma StrideIsEnough(kind: Pixels, width: nat)
    ensures kind.MinimumPitch(width) <= kind.Stride(width) < kind.MinimumPitch(width) + 4
    ensures kind.Rgb24? || kind.Rgb32? ==> kind.Stride(width) % 4 == 0
  {
  }
}
