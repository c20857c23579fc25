/** The raw-TCP frame unit the stream service writes for every frame
    (StreamService.kt, handleClient): a 12-byte header made of the capture
    timestamp as a big-endian Long and the payload length as a big-endian
    Int, followed by the payload itself. */
module Wire {
  import opened Kotlin

  /** 256^n. */
  function Pow256(n: nat): (p: nat)
    ensures p >= 1
  {
    if n == 0 then 1 else 256 * Pow256(n - 1)
  }

  lemma Pow256Widths()
    ensures Pow256(4) == 0x1_0000_0000
    ensures Pow256(8) == 0x1_0000_0000_0000_0000
  {
    assert Pow256(2) == 0x1_0000;
    assert Pow256(4) == 0x1_0000_0000;
  }

  /** The n-byte big-endian representation of x (ByteBuffer's default order). */
  function BigEndian(x: nat, n: nat): (r: seq<byte>)
    requires x < Pow256(n)
    ensures |r| == n
  {
    if n == 0 then [] else BigEndian(x / 256, n - 1) + [(x % 256) as byte]
  }

  /** The unsigned value of big-endian bytes. */
  function FromBigEndian(s: seq<byte>): (v: nat)
    ensures v < Pow256(|s|)
  {
    if s == [] then 0 else FromBigEndian(s[..|s| - 1]) * 256 + s[|s| - 1] as int
  }

  lemma {:induction false} BigEndianRoundTrip(x: nat, n: nat)
    requires x < Pow256(n)
    ensures FromBigEndian(BigEndian(x, n)) == x
  {
    if n > 0 {
      var r := BigEndian(x, n);
      assert r[..n - 1] == BigEndian(x / 256, n - 1);
      BigEndianRoundTrip(x / 256, n - 1);
    }
  }

  /** Two's-complement bit pattern of a signed value of the given width. */
  function ToUnsigned(x: int, n: nat): (u: nat)
    requires -(Pow256(n) / 2) as int <= x < Pow256(n) / 2
    ensures u < Pow256(n)
    ensures x >= 0 <==> u < Pow256(n) / 2
  {
    if x < 0 then x + Pow256(n) else x
  }

  /** Signed reading of a two's-complement bit pattern. */
  function ToSigned(u: nat, n: nat): int
    requires u < Pow256(n)
  {
    if u < Pow256(n) / 2 then u else u - Pow256(n)
  }

  lemma SignedRoundTrip(x: int, n: nat)
    requires -(Pow256(n) / 2) as int <= x < Pow256(n) / 2
    ensures ToSigned(ToUnsigned(x, n), n) == x
  {
  }

  const HeaderSize: nat := 12

  /** `ByteBuffer.allocate(12).putLong(pts).putInt(size)`. */
  function EncodeHeader(pts: Int64, size: Int32): (h: seq<byte>)
    ensures |h| == HeaderSize
  {
    Pow256Widths();
    BigEndian(ToUnsigned(pts, 8), 8) + BigEndian(ToUnsigned(size, 4), 4)
  }

  /** The header a receiver reads: bytes 0-7 as a signed Long, 8-11 as a signed Int. */
  function DecodeHeader(h: seq<byte>): (pair: (int, int))
    requires |h| == HeaderSize
  {
    (ToSigned(FromBigEndian(h[..8]), 8), ToSigned(FromBigEndian(h[8..]), 4))
  }

  lemma HeaderRoundTrip(pts: Int64, size: Int32)
    ensures DecodeHeader(EncodeHeader(pts, size)) == (pts, size)
  {
    Pow256Widths();
    var h := EncodeHeader(pts, size);
    assert h[..8] == BigEndian(ToUnsigned(pts, 8), 8);
    assert h[8..] == BigEndian(ToUnsigned(size, 4), 4);
    BigEndianRoundTrip(ToUnsigned(pts, 8), 8);
    BigEndianRoundTrip(ToUnsigned(size, 4), 4);
    SignedRoundTrip(pts, 8);
    SignedRoundTrip(size, 4);
  }

  /** One frame as sent to a client: its timestamp and its payload. */
  datatype Unit = Unit(pts: Int64, payload: Bytes)

  /** The bytes written for one frame: header, then the payload. */
  function EncodeUnit(u: Unit): (r: seq<byte>)
    ensures |r| == HeaderSize + |u.payload|
    ensures r[HeaderSize..] == u.payload
  {
    EncodeHeader(u.pts, |u.payload|) + u.payload
  }

  /** The bytes written for a run of frames, in order. */
  function Encode(units: seq<Unit>): seq<byte>
  {
    if units == [] then [] else EncodeUnit(units[0]) + Encode(units[1..])
  }

  lemma {:induction false} EncodeAppend(units: seq<Unit>, u: Unit)
    ensures Encode(units + [u]) == Encode(units) + EncodeUnit(u)
  {
    if units == [] {
      assert units + [u] == [u];
    } else {
      assert (units + [u])[1..] == units[1..] + [u];
      EncodeAppend(units[1..], u);
    }
  }

  lemma {:induction false} EncodeConcat(a: seq<Unit>, b: seq<Unit>)
    ensures Encode(a + b) == Encode(a) + Encode(b)
    decreases |a|
  {
    if a != [] {
      assert (a + b)[0] == a[0] && (a + b)[1..] == a[1..] + b;
      EncodeConcat(a[1..], b);
      assert Encode(a + b) == EncodeUnit(a[0]) + (Encode(a[1..]) + Encode(b));
    } else {
      assert a + b == b;
    }
  }

  /** A receiver's reading of the byte stream: a header, then exactly as
      many payload bytes as the header's length field says, repeated.
      None when the stream ends inside a unit or a length is negative. */
  function Decode(s: seq<byte>): Option<seq<Unit>>
    decreases |s|
  {
    if s == [] then Some([])
    else if |s| < HeaderSize then None
    else
      var (pts, len) := DecodeHeader(s[..HeaderSize]);
      if len < 0 || |s| < HeaderSize + len then None
      else
        match Decode(s[HeaderSize + len..])
        case None => None
        case Some(rest) =>
          var payload := s[HeaderSize..HeaderSize + len];
          Pow256Widths();
          if -0x8000_0000_0000_0000 <= pts < 0x8000_0000_0000_0000 && |payload| < 0x8000_0000
          then Some([Unit(pts, payload)] + rest)
          else None
  }

  /** Everything the server writes reads back as exactly the frames it sent:
      each header's length field equals the number of payload bytes after it. */
  lemma {:induction false} DecodeEncode(units: seq<Unit>)
    ensures Decode(Encode(units)) == Some(units)
  {
    if units != [] {
      var u := units[0];
      var s := Encode(units);
      var e := EncodeUnit(u);
      assert s == e + Encode(units[1..]);
      assert s[..HeaderSize] == EncodeHeader(u.pts, |u.payload|);
      HeaderRoundTrip(u.pts, |u.payload|);
      assert s[HeaderSize..HeaderSize + |u.payload|] == u.payload;
      assert s[HeaderSize + |u.payload|..] == Encode(units[1..]);
      DecodeEncode(units[1..]);
      assert [u] + units[1..] == units;
    }
  }
}
