/** Repacking a YUV_420_888 camera image into one NV21 byte array
    (StreamService.kt, handleImageProxy): the luma plane row by row, then
    the two chroma planes interleaved V first, U second. Each plane is read
    through its own row and pixel strides. */
module Nv21 {
  import opened Kotlin

  /** android.graphics.ImageFormat constants. */
  const YUV_420_888: int := 0x23
  const NV21: int := 0x11

  /** One image plane copied out of its ByteBuffer, with its strides. */
  datatype Plane = Plane(buffer: seq<byte>, rowStride: int, pixelStride: int)

  /** Where a plane keeps the sample at (row, col). */
  function Index(p: Plane, row: nat, col: nat): int
  {
    row * p.rowStride + col * p.pixelStride
  }

  predicate InPlane(p: Plane, row: nat, col: nat)
  {
    0 <= Index(p, row, col) < |p.buffer|
  }

  /** The sample at (row, col); reading outside the buffer is the
      out-of-bounds case, for which the conversion fails instead. */
  function Sample(p: Plane, row: nat, col: nat): byte
  {
    if InPlane(p, row, col) then p.buffer[Index(p, row, col)] else 0
  }

  /** The first `cols` samples of a row lie inside the plane's buffer. */
  ghost predicate RowCovered(p: Plane, row: nat, cols: nat)
  {
    forall c: nat :: c < cols ==> InPlane(p, row, c)
  }

  /** Every sample of a rows x cols grid lies inside the plane's buffer. */
  ghost predicate Covers(p: Plane, rows: nat, cols: nat)
  {
    forall r: nat :: r < rows ==> RowCovered(p, r, cols)
  }

  /** The first `cols` samples of one row. */
  function LumaRow(p: Plane, row: nat, cols: nat): (s: seq<byte>)
    ensures |s| == cols
  {
    if cols == 0 then [] else LumaRow(p, row, cols - 1) + [Sample(p, row, cols - 1)]
  }

  /** The first `rows` rows of a plane, each `cols` samples wide, packed. */
  function Luma(p: Plane, rows: nat, cols: nat): (s: seq<byte>)
    ensures |s| == rows * cols
  {
    if rows == 0 then [] else Luma(p, rows - 1, cols) + LumaRow(p, rows - 1, cols)
  }

  /** The first `cols` chroma pairs of one row, V before U. */
  function ChromaRow(u: Plane, v: Plane, row: nat, cols: nat): (s: seq<byte>)
    ensures |s| == 2 * cols
  {
    if cols == 0 then [] else ChromaRow(u, v, row, cols - 1) + [Sample(v, row, cols - 1), Sample(u, row, cols - 1)]
  }

  /** The first `rows` chroma rows, interleaved and packed. */
  function Chroma(u: Plane, v: Plane, rows: nat, cols: nat): (s: seq<byte>)
    ensures |s| == 2 * (rows * cols)
  {
    if rows == 0 then [] else Chroma(u, v, rows - 1, cols) + ChromaRow(u, v, rows - 1, cols)
  }

  function Zeros(n: nat): (s: seq<byte>)
    ensures |s| == n && forall i :: 0 <= i < n ==> s[i] == 0
  {
    seq(n, _ => 0)
  }

  /** `ByteArray(width * height * 3 / 2)`. */
  function Nv21Size(width: nat, height: nat): nat
  {
    width * height * 3 / 2
  }

  /** The luma and chroma bytes never exceed the buffer; for even sizes they fill it. */
  lemma PackedSize(width: nat, height: nat)
    ensures height * width + 2 * ((height / 2) * (width / 2)) <= Nv21Size(width, height)
    ensures width % 2 == 0 && height % 2 == 0 ==>
              height * width + 2 * ((height / 2) * (width / 2)) == Nv21Size(width, height)
  {
    var a, b := width / 2, height / 2;
    assert width >= 2 * a && height >= 2 * b;
    assert width * height >= (2 * a) * height >= (2 * a) * (2 * b);
    assert 4 * (b * a) == (2 * a) * (2 * b);
    if width % 2 == 0 && height % 2 == 0 {
      assert width * height == 4 * (b * a);
    }
  }

  /** `s` followed by zero bytes up to length `n`. */
  function Pad(s: seq<byte>, n: nat): (r: seq<byte>)
    ensures |s| <= n ==> |r| == n
    ensures |s| <= |r|
  {
    if |s| <= n then s + Zeros(n - |s|) else s
  }

  /** The NV21 array handleImageProxy builds: luma, interleaved chroma, and
      zero bytes after them up to the allocated size. */
  function Nv21Of(width: nat, height: nat, y: Plane, u: Plane, v: Plane): (s: seq<byte>)
  {
    Pad(Luma(y, height, width) + Chroma(u, v, height / 2, width / 2), Nv21Size(width, height))
  }

  /** The output is exactly `width * height * 3 / 2` bytes long. */
  lemma Nv21Length(width: nat, height: nat, y: Plane, u: Plane, v: Plane)
    ensures |Nv21Of(width, height, y, u, v)| == Nv21Size(width, height)
  {
    PackedSize(width, height);
  }

  /** The conversion reads every plane index inside its buffer. */
  ghost predicate Convertible(width: nat, height: nat, y: Plane, u: Plane, v: Plane)
  {
    Covers(y, height, width) && Covers(v, height / 2, width / 2) && Covers(u, height / 2, width / 2)
  }

  lemma ProductNat(a: nat, b: nat)
    ensures 0 <= a * b
  {
  }

  lemma RowMajorBound(row: nat, col: nat, rows: nat, cols: nat)
    requires row < rows && col < cols
    ensures row * cols + col < rows * cols
  {
    assert (row + 1) * cols <= rows * cols;
  }

  lemma {:induction false} LumaRowAt(p: Plane, row: nat, cols: nat, c: nat)
    requires c < cols
    ensures LumaRow(p, row, cols)[c] == Sample(p, row, c)
  {
    if c < cols - 1 {
      LumaRowAt(p, row, cols - 1, c);
    }
  }

  lemma {:induction false} LumaAt(p: Plane, rows: nat, cols: nat, r: nat, c: nat)
    requires r < rows && c < cols
    ensures r * cols + c < rows * cols
    ensures Luma(p, rows, cols)[r * cols + c] == Sample(p, r, c)
  {
    RowMajorBound(r, c, rows, cols);
    if r < rows - 1 {
      RowMajorBound(r, c, rows - 1, cols);
      LumaAt(p, rows - 1, cols, r, c);
    } else {
      LumaRowAt(p, r, cols, c);
    }
  }

  lemma {:induction false} ChromaRowAt(u: Plane, v: Plane, row: nat, cols: nat, c: nat)
    requires c < cols
    ensures ChromaRow(u, v, row, cols)[2 * c] == Sample(v, row, c)
    ensures ChromaRow(u, v, row, cols)[2 * c + 1] == Sample(u, row, c)
  {
    if c < cols - 1 {
      ChromaRowAt(u, v, row, cols - 1, c);
    }
  }

  lemma {:induction false} ChromaAt(u: Plane, v: Plane, rows: nat, cols: nat, r: nat, c: nat)
    requires r < rows && c < cols
    ensures 2 * (r * cols + c) + 1 < 2 * (rows * cols)
    ensures Chroma(u, v, rows, cols)[2 * (r * cols + c)] == Sample(v, r, c)
    ensures Chroma(u, v, rows, cols)[2 * (r * cols + c) + 1] == Sample(u, r, c)
  {
    RowMajorBound(r, c, rows, cols);
    if r < rows - 1 {
      RowMajorBound(r, c, rows - 1, cols);
      ChromaAt(u, v, rows - 1, cols, r, c);
    } else {
      ChromaRowAt(u, v, r, cols, c);
    }
  }

  /** The output starts with the luma bytes. */
  lemma Nv21LumaPart(width: nat, height: nat, y: Plane, u: Plane, v: Plane, k: nat)
    requires k < height * width
    ensures k < |Nv21Of(width, height, y, u, v)|
    ensures Nv21Of(width, height, y, u, v)[k] == Luma(y, height, width)[k]
  {
  }

  /** Output byte r*width + c holds the Y sample at (r, c), read inside the Y buffer. */
  predicate LumaLands(out: seq<byte>, width: nat, y: Plane, r: nat, c: nat)
  {
    InPlane(y, r, c) && r * width + c < |out| && out[r * width + c] == y.buffer[Index(y, r, c)]
  }

  /** Output bytes k and k + 1, for k = base + 2*(r*cols + c), hold the V
      then the U sample at (r, c), each read inside its buffer. */
  predicate ChromaLands(out: seq<byte>, base: nat, cols: nat, u: Plane, v: Plane, r: nat, c: nat)
  {
    var k := base + 2 * (r * cols + c);
    InPlane(v, r, c) && InPlane(u, r, c) && k + 1 < |out|
    && out[k] == v.buffer[Index(v, r, c)] && out[k + 1] == u.buffer[Index(u, r, c)]
  }

  /** Luma byte (r, c) of the output is the Y sample at r*yRowStride + c*yPixelStride. */
  lemma Nv21LumaAt(width: nat, height: nat, y: Plane, u: Plane, v: Plane, r: nat, c: nat)
    requires Convertible(width, height, y, u, v)
    requires r < height && c < width
    ensures LumaLands(Nv21Of(width, height, y, u, v), width, y, r, c)
  {
    assert RowCovered(y, r, width);
    LumaSampleAt(width, height, y, u, v, r, c);
  }

  lemma LumaSampleAt(width: nat, height: nat, y: Plane, u: Plane, v: Plane, r: nat, c: nat)
    requires InPlane(y, r, c)
    requires r < height && c < width
    ensures LumaLands(Nv21Of(width, height, y, u, v), width, y, r, c)
  {
    ProductNat(r, width);
    var k: nat := r * width + c;
    LumaAt(y, height, width, r, c);
    Nv21LumaPart(width, height, y, u, v, k);
  }

  /** Chroma pair (r, c) of the output is V then U, right after the
      width*height luma bytes. */
  lemma Nv21ChromaAt(width: nat, height: nat, y: Plane, u: Plane, v: Plane, r: nat, c: nat)
    requires Convertible(width, height, y, u, v)
    requires r < height / 2 && c < width / 2
    ensures ChromaLands(Nv21Of(width, height, y, u, v), height * width, width / 2, u, v, r, c)
  {
    assert RowCovered(v, r, width / 2) && RowCovered(u, r, width / 2);
    ChromaSampleAt(Luma(y, height, width), u, v, height / 2, width / 2, Nv21Size(width, height), r, c);
  }

  /** The same for any luma prefix, chroma grid and padded length. */
  lemma ChromaSampleAt(luma: seq<byte>, u: Plane, v: Plane, rows: nat, cols: nat, n: nat, r: nat, c: nat)
    requires InPlane(v, r, c) && InPlane(u, r, c)
    requires r < rows && c < cols
    ensures ChromaLands(Pad(luma + Chroma(u, v, rows, cols), n), |luma|, cols, u, v, r, c)
  {
    ChromaAt(u, v, rows, cols, r, c);
    ProductNat(r, cols);
    PairLands(luma, Chroma(u, v, rows, cols), n, 2 * (r * cols + c));
  }

  /** Bytes k and k + 1 of the chroma part sit |luma| bytes further on in the output. */
  lemma PairLands(luma: seq<byte>, chroma: seq<byte>, n: nat, k: nat)
    requires k + 1 < |chroma|
    ensures |luma| + k + 1 < |Pad(luma + chroma, n)|
    ensures Pad(luma + chroma, n)[|luma| + k] == chroma[k]
    ensures Pad(luma + chroma, n)[|luma| + k + 1] == chroma[k + 1]
  {
  }

  /** For even sizes the output holds exactly the luma and chroma bytes, nothing more. */
  lemma Nv21EvenSize(width: nat, height: nat, y: Plane, u: Plane, v: Plane)
    requires width % 2 == 0 && height % 2 == 0
    ensures Nv21Of(width, height, y, u, v) == Luma(y, height, width) + Chroma(u, v, height / 2, width / 2)
  {
    PackedSize(width, height);
  }

  lemma {:induction false} PackedLumaRow(p: Plane, row: nat, cols: nat)
    requires p.pixelStride == 1 && p.rowStride >= 0
    requires row * p.rowStride + cols <= |p.buffer|
    ensures LumaRow(p, row, cols) == p.buffer[row * p.rowStride..row * p.rowStride + cols]
  {
    if cols > 0 {
      PackedLumaRow(p, row, cols - 1);
    }
  }

  /** A packed Y plane holds every index the strided loop reads exactly
      when it has width*height bytes. */
  lemma PackedCovers(y: Plane, width: nat, height: nat)
    requires y.pixelStride == 1 && y.rowStride == width
    ensures Covers(y, height, width) <==> height * width <= |y.buffer|
  {
    if height * width <= |y.buffer| {
      forall r: nat | r < height ensures RowCovered(y, r, width) {
        forall c: nat | c < width ensures InPlane(y, r, c) {
          RowMajorBound(r, c, height, width);
        }
      }
    } else if width > 0 && height > 0 {
      NextRow(height - 1, width);
      assert !InPlane(y, height - 1, width - 1);
      assert !RowCovered(y, height - 1, width);
    }
  }

  /** The luma of a packed Y plane is its first width*height bytes. */
  lemma {:induction false} PackedLuma(y: Plane, width: nat, height: nat)
    requires y.pixelStride == 1 && y.rowStride == width
    requires height * width <= |y.buffer|
    ensures Luma(y, height, width) == y.buffer[..height * width]
  {
    if height > 0 {
      var m := (height - 1) * width;
      NextRow(height - 1, width);
      RowsFit(height - 1, height, width);
      ProductNat(height - 1, width);
      PackedLuma(y, width, height - 1);
      PackedLumaRow(y, height - 1, width);
      assert y.buffer[..height * width] == y.buffer[..m] + y.buffer[m..m + width];
    }
  }

  /** With pixelStride 1 and rowStride == width the Y plane is already packed:
      a straight copy of its first width*height bytes gives the same luma as
      the strided loop, and fails exactly when the loop would. */
  lemma FastPathLuma(y: Plane, width: nat, height: nat)
    requires y.pixelStride == 1 && y.rowStride == width
    ensures Covers(y, height, width) <==> height * width <= |y.buffer|
    ensures height * width <= |y.buffer| ==> Luma(y, height, width) == y.buffer[..height * width]
  {
    PackedCovers(y, width, height);
    if height * width <= |y.buffer| {
      PackedLuma(y, width, height);
    }
  }

  lemma NextRow(row: nat, width: nat)
    ensures (row + 1) * width == row * width + width
  {
  }

  lemma RowsFit(rows: nat, height: nat, width: nat)
    requires rows <= height
    ensures rows * width <= height * width
  {
  }

  /** The loops of handleImageProxy. `ok` is false when an index falls
      outside a plane's buffer (the ArrayIndexOutOfBoundsException the
      service catches, dropping the frame). */
  method ToNv21(width: nat, height: nat, y: Plane, u: Plane, v: Plane) returns (ok: bool, nv21: array<byte>)
    ensures fresh(nv21)
    ensures ok <==> Convertible(width, height, y, u, v)
    ensures ok ==> nv21[..] == Nv21Of(width, height, y, u, v)
  {
    var size := Nv21Size(width, height);
    PackedSize(width, height);
    nv21 := new byte[size](_ => 0);
    if y.pixelStride == 1 && y.rowStride == width {
      FastPathLuma(y, width, height);
      if |y.buffer| < height * width {
        return false, nv21;
      }
      forall i | 0 <= i < height * width {
        nv21[i] := y.buffer[i];
      }
      assert nv21[..height * width] == y.buffer[..height * width];
    } else {
      ok := StridedLuma(width, height, y, nv21);
      if !ok {
        return;
      }
    }
    ghost var luma := nv21[..height * width];
    ok := ChromaLoop(u, v, height / 2, width / 2, nv21, height * width);
    if ok {
      assert nv21[..height * width] == luma;
      Assemble(nv21[..], width, height, y, u, v);
    }
  }

  /** An array holding the luma bytes, then the chroma bytes, then zeros is the NV21 output. */
  lemma Assemble(s: seq<byte>, width: nat, height: nat, y: Plane, u: Plane, v: Plane)
    requires |s| == Nv21Size(width, height)
    requires height * width + 2 * ((height / 2) * (width / 2)) <= |s|
    requires s[..height * width] == Luma(y, height, width)
    requires s[height * width..height * width + 2 * ((height / 2) * (width / 2))]
             == Chroma(u, v, height / 2, width / 2)
    requires forall i :: height * width + 2 * ((height / 2) * (width / 2)) <= i < |s| ==> s[i] == 0
    ensures s == Nv21Of(width, height, y, u, v)
  {
    var n := height * width + 2 * ((height / 2) * (width / 2));
    assert s == s[..height * width] + s[height * width..n] + s[n..];
    assert s[n..] == Zeros(|s| - n);
  }

  /** The strided luma loop: row by row, column by column. */
  method StridedLuma(width: nat, height: nat, y: Plane, nv21: array<byte>) returns (ok: bool)
    requires height * width <= nv21.Length
    requires forall i :: 0 <= i < nv21.Length ==> nv21[i] == 0
    modifies nv21
    ensures ok <==> Covers(y, height, width)
    ensures ok ==> nv21[..height * width] == Luma(y, height, width)
    ensures ok ==> forall i :: height * width <= i < nv21.Length ==> nv21[i] == 0
  {
    var pos := 0;
    var row := 0;
    while row < height
      invariant row <= height
      invariant pos == row * width
      invariant nv21[..pos] == Luma(y, row, width)
      invariant forall i :: pos <= i < nv21.Length ==> nv21[i] == 0
      invariant Covers(y, row, width)
    {
      RowsFit(row + 1, height, width);
      NextRow(row, width);
      ok := LumaRowLoop(y, row, width, nv21, pos);
      if !ok {
        return;
      }
      assert nv21[..pos + width] == nv21[..pos] + nv21[pos..pos + width];
      pos := pos + width;
      row := row + 1;
    }
    ok := true;
  }

  /** The inner luma loop for one row. */
  method LumaRowLoop(y: Plane, row: nat, width: nat, nv21: array<byte>, start: nat) returns (ok: bool)
    requires start + width <= nv21.Length
    requires forall i :: start <= i < nv21.Length ==> nv21[i] == 0
    modifies nv21
    ensures nv21[..start] == old(nv21[..start])
    ensures ok <==> RowCovered(y, row, width)
    ensures ok ==> nv21[start..start + width] == LumaRow(y, row, width)
    ensures forall i :: start + width <= i < nv21.Length ==> nv21[i] == 0
  {
    var col := 0;
    while col < width
      invariant col <= width
      invariant nv21[..start] == old(nv21[..start])
      invariant nv21[start..start + col] == LumaRow(y, row, col)
      invariant forall i :: start + col <= i < nv21.Length ==> nv21[i] == 0
      invariant forall c: nat :: c < col ==> InPlane(y, row, c)
    {
      var index := row * y.rowStride + col * y.pixelStride;
      if !(0 <= index < |y.buffer|) {
        assert !InPlane(y, row, col);
        return false;
      }
      nv21[start + col] := y.buffer[index];
      assert nv21[start..start + col + 1] == nv21[start..start + col] + [nv21[start + col]];
      col := col + 1;
    }
    ok := true;
  }

  /** The interleaving loop of handleImageProxy: V then U for every chroma
      sample, written from `start` on. */
  method ChromaLoop(u: Plane, v: Plane, rows: nat, cols: nat, nv21: array<byte>, start: nat)
    returns (ok: bool)
    requires start + 2 * (rows * cols) <= nv21.Length
    requires forall i :: start <= i < nv21.Length ==> nv21[i] == 0
    modifies nv21
    ensures nv21[..start] == old(nv21[..start])
    ensures ok <==> Covers(v, rows, cols) && Covers(u, rows, cols)
    ensures ok ==> nv21[start..start + 2 * (rows * cols)] == Chroma(u, v, rows, cols)
    ensures forall i :: start + 2 * (rows * cols) <= i < nv21.Length ==> nv21[i] == 0
  {
    var pos := start;
    var row := 0;
    while row < rows
      invariant row <= rows
      invariant pos == start + 2 * (row * cols)
      invariant nv21[..start] == old(nv21[..start])
      invariant nv21[start..pos] == Chroma(u, v, row, cols)
      invariant forall i :: pos <= i < nv21.Length ==> nv21[i] == 0
      invariant Covers(v, row, cols) && Covers(u, row, cols)
    {
      RowsFit(row + 1, rows, cols);
      NextRow(row, cols);
      ghost var done := nv21[start..pos];
      ok := ChromaRowLoop(u, v, row, cols, nv21, pos);
      if !ok {
        RowOfGrid(v, row, rows, cols);
        RowOfGrid(u, row, rows, cols);
        return;
      }
      assert nv21[start..pos] == done;
      ChromaStep(nv21[..], u, v, row, cols, start, pos);
      CoversStep(v, row, cols);
      CoversStep(u, row, cols);
      pos := pos + 2 * cols;
      row := row + 1;
    }
    ok := true;
  }

  /** Appending one written chroma row extends the packed chroma by that row. */
  lemma ChromaStep(s: seq<byte>, u: Plane, v: Plane, row: nat, cols: nat, start: nat, pos: nat)
    requires start <= pos && pos + 2 * cols <= |s|
    requires s[start..pos] == Chroma(u, v, row, cols)
    requires s[pos..pos + 2 * cols] == ChromaRow(u, v, row, cols)
    ensures s[start..pos + 2 * cols] == Chroma(u, v, row + 1, cols)
  {
    assert s[start..pos + 2 * cols] == s[start..pos] + s[pos..pos + 2 * cols];
  }

  /** Every row of a covered grid is covered. */
  lemma RowOfGrid(p: Plane, row: nat, rows: nat, cols: nat)
    requires row < rows
    ensures Covers(p, rows, cols) ==> RowCovered(p, row, cols)
  {
  }

  /** A covered next row extends a covered grid by one row. */
  lemma CoversStep(p: Plane, rows: nat, cols: nat)
    requires Covers(p, rows, cols) && RowCovered(p, rows, cols)
    ensures Covers(p, rows + 1, cols)
  {
  }

  /** The inner chroma loop for one row: V byte, then U byte, per column. */
  /** `nv21[pos] = buffer[index]`: fails, writing nothing, when the index
      is outside the plane's buffer. */
  method PutSample(p: Plane, row: nat, col: nat, nv21: array<byte>, pos: nat) returns (ok: bool)
    requires pos < nv21.Length
    modifies nv21
    ensures ok <==> InPlane(p, row, col)
    ensures ok ==> nv21[..] == old(nv21[..])[pos := Sample(p, row, col)]
    ensures !ok ==> nv21[..] == old(nv21[..])
  {
    var index := row * p.rowStride + col * p.pixelStride;
    ok := 0 <= index < |p.buffer|;
    if ok {
      nv21[pos] := p.buffer[index];
    }
  }

  method ChromaRowLoop(u: Plane, v: Plane, row: nat, cols: nat, nv21: array<byte>, start: nat) returns (ok: bool)
    requires start + 2 * cols <= nv21.Length
    requires forall i :: start <= i < nv21.Length ==> nv21[i] == 0
    modifies nv21
    ensures nv21[..start] == old(nv21[..start])
    ensures ok <==> RowCovered(v, row, cols) && RowCovered(u, row, cols)
    ensures ok ==> nv21[start..start + 2 * cols] == ChromaRow(u, v, row, cols)
    ensures forall i :: start + 2 * cols <= i < nv21.Length ==> nv21[i] == 0
  {
    var col := 0;
    while col < cols
      invariant col <= cols
      invariant nv21[..start] == old(nv21[..start])
      invariant nv21[start..start + 2 * col] == ChromaRow(u, v, row, col)
      invariant forall i :: start + 2 * col <= i < nv21.Length ==> nv21[i] == 0
      invariant forall c: nat :: c < col ==> InPlane(v, row, c) && InPlane(u, row, c)
    {
      var pos := start + 2 * col;
      ghost var before := nv21[..];
      ok := PutSample(v, row, col, nv21, pos);
      if !ok {
        return;
      }
      ok := PutSample(u, row, col, nv21, pos + 1);
      if !ok {
        return;
      }
      PairWritten(before, start, pos, Sample(v, row, col), Sample(u, row, col));
      col := col + 1;
    }
    ok := true;
  }

  /** Writing a V, U pair at `pos` appends it to the bytes written from
      `start` and leaves every other byte as it was. */
  lemma PairWritten(before: seq<byte>, start: nat, pos: nat, a: byte, b: byte)
    requires start <= pos && pos + 1 < |before|
    ensures var after := before[pos := a][pos + 1 := b];
            after[..start] == before[..start]
            && after[start..pos + 2] == before[start..pos] + [a, b]
            && forall i :: pos + 2 <= i < |after| ==> after[i] == before[i]
  {
    var after := before[pos := a][pos + 1 := b];
    assert after[start..pos + 2] == before[start..pos] + [a, b];
  }
}
