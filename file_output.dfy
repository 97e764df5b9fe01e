/**
 * RestFract/Output/FileOutput.cs, buffered mode: a 24-bit Windows bitmap built in memory.
 * The image is a 14-byte BITMAPFILEHEADER and a 40-byte BITMAPINFOHEADER followed by the
 * rows of pixels, bottom row first, three bytes a pixel (blue, green, red), each row padded
 * to a multiple of four bytes. BitConverter.GetBytes on an int gives its four bytes least
 * significant first, which is EncodeInt32.
 */
module BmpOutput {
  import opened Binary
  import Colors

  /** The length of a row: three bytes a pixel, rounded up to a multiple of four. */
  function Pitch(width: nat): (p: nat)
    ensures p % 4 == 0 && 3 * width <= p < 3 * width + 4
  {
    var p := width * 3;
    if p % 4 != 0 then p + (4 - p % 4) else p
  }

  /** The size of the file: 54 header bytes and height rows. */
  function FileSize(width: nat, height: nat): (n: nat)
    ensures n >= 54
  {
    54 + Pitch(width) * height
  }

  function Zeros(n: nat): (r: seq<Byte>)
    ensures |r| == n && forall i :: 0 <= i < n ==> r[i] == 0
  {
    seq(n, _ => 0)
  }

  /**
   * The 54 header bytes in the order SetInitDraw writes them: the signature "BM", the file
   * size, four reserved zero bytes, the offset of the pixels (54), the size of the info
   * header (40), width, height, one plane and 24 bits a pixel as two-byte values, and 24
   * zero bytes (no compression, image size, resolutions and palette counts left at 0).
   */
  function Header(width: nat, height: nat): (h: seq<Byte>)
    ensures |h| == 54
  {
    FileHeader(FileSize(width, height)) + InfoHeader(width, height)
  }

  /** BITMAPFILEHEADER: "BM", the file size, four reserved bytes and the pixel offset 54. */
  function FileHeader(filesize: int): (h: seq<Byte>)
    ensures |h| == 14
  {
    [66, 77] + EncodeInt32(filesize) + Zeros(4) + EncodeInt32(54)
  }

  /** BITMAPINFOHEADER: its size 40, width, height, 1 plane, 24 bits a pixel, then zeros. */
  function InfoHeader(width: int, height: int): (h: seq<Byte>)
    ensures |h| == 40
  {
    EncodeInt32(40) + EncodeInt32(width) + EncodeInt32(height) + [1] + Zeros(1) + [24] + Zeros(1) + Zeros(24)
  }

  /** Reading the header back field by field gives the values it was built from. */
  lemma HeaderFields(width: nat, height: nat)
    requires InInt32(FileSize(width, height)) && InInt32(width) && InInt32(height)
    ensures var h := Header(width, height);
      h[0] == 66 && h[1] == 77 &&
      DecodeInt32(h[2..6]) == FileSize(width, height) && h[6..10] == Zeros(4) &&
      DecodeInt32(h[10..14]) == 54 && DecodeInt32(h[14..18]) == 40 &&
      DecodeInt32(h[18..22]) == width && DecodeInt32(h[22..26]) == height &&
      h[26..30] == [1, 0, 24, 0] && h[30..] == Zeros(24)
  {
    var h := Header(width, height);
    var f, i := FileHeader(FileSize(width, height)), InfoHeader(width, height);
    assert h[..14] == f && h[14..] == i;
    FileHeaderFields(FileSize(width, height));
    InfoHeaderFields(width, height);
    assert h[2..6] == f[2..6] && h[6..10] == f[6..10] && h[10..14] == f[10..14];
    assert h[14..18] == i[..4] && h[18..22] == i[4..8] && h[22..26] == i[8..12];
    assert h[26..30] == i[12..16] && h[30..] == i[16..];
  }

  lemma FileHeaderFields(filesize: int)
    requires InInt32(filesize)
    ensures var h := FileHeader(filesize);
      h[0] == 66 && h[1] == 77 && DecodeInt32(h[2..6]) == filesize && h[6..10] == Zeros(4) &&
      DecodeInt32(h[10..14]) == 54
  {
    var h := FileHeader(filesize);
    assert h[2..6] == EncodeInt32(filesize);
    assert h[10..14] == EncodeInt32(54);
    Int32RoundTrip(filesize);
    Int32RoundTrip(54);
  }

  lemma InfoHeaderFields(width: int, height: int)
    requires InInt32(width) && InInt32(height)
    ensures var h := InfoHeader(width, height);
      DecodeInt32(h[..4]) == 40 && DecodeInt32(h[4..8]) == width && DecodeInt32(h[8..12]) == height &&
      h[12..16] == [1, 0, 24, 0] && h[16..] == Zeros(24)
  {
    var h := InfoHeader(width, height);
    assert h[..4] == EncodeInt32(40);
    assert h[4..8] == EncodeInt32(width);
    assert h[8..12] == EncodeInt32(height);
    Int32RoundTrip(40);
    Int32RoundTrip(width);
    Int32RoundTrip(height);
  }

  /** Where SetPoint writes the pixel (x, y): row height - 1 - y, column 3x, after pos. */
  function Offset(pos: int, pitch: int, height: int, x: int, y: int): int {
    pos + (height - 1 - y) * pitch + x * 3
  }

  lemma MulMonotone(a: int, b: int, p: int)
    requires a <= b && 0 <= p
    ensures a * p <= b * p
  {
    assert b * p - a * p == (b - a) * p;
  }

  /**
   * A pixel of the image lies inside the pixel data, [54, filesize). Rows are stored
   * bottom-up: a pixel on a lower row (larger y) comes before every pixel of a higher row.
   */
  lemma PixelInside(width: nat, height: nat, x: int, y: int)
    requires 0 <= x < width && 0 <= y < height
    ensures var o := Offset(54, Pitch(width), height, x, y);
      54 <= o && o + 3 <= FileSize(width, height)
  {
    var p := Pitch(width);
    MulMonotone(0, height - 1 - y, p);
    MulMonotone(height - y, height, p);
    assert (height - 1 - y) * p + p == (height - y) * p;
  }

  /** Two different pixels of the image never share a byte, and lower rows come first. */
  lemma PixelsApart(width: nat, height: nat, x1: int, y1: int, x2: int, y2: int)
    requires 0 <= x1 < width && 0 <= y1 < height && 0 <= x2 < width && 0 <= y2 < height
    requires x1 != x2 || y1 != y2
    ensures var o1, o2 := Offset(54, Pitch(width), height, x1, y1), Offset(54, Pitch(width), height, x2, y2);
      o1 + 3 <= o2 || o2 + 3 <= o1
    ensures y1 < y2 ==> Offset(54, Pitch(width), height, x2, y2) + 3 <= Offset(54, Pitch(width), height, x1, y1)
  {
    var p := Pitch(width);
    if y1 < y2 {
      RowsApart(height, p, y1, y2);
    } else if y2 < y1 {
      RowsApart(height, p, y2, y1);
    }
  }

  /** A row above another starts at least a whole pitch later. */
  lemma RowsApart(height: int, p: nat, ya: int, yb: int)
    requires ya < yb
    ensures (height - 1 - yb) * p + p <= (height - 1 - ya) * p
  {
    MulMonotone(height - yb, height - 1 - ya, p);
    assert (height - 1 - yb) * p + p == (height - yb) * p;
  }

  /**
   * NextLine flushes an empty slot as the pixel (-1, -1): its three bytes are the last
   * three of the pixel data, the end of the top row, inside the buffer.
   */
  lemma EmptySlotLandsOnTopRow(width: nat, height: nat)
    ensures Offset(54, Pitch(width), height, -1, -1) == FileSize(width, height) - 3
  {
    assert (height - 1 - -1) * Pitch(width) == Pitch(width) * height;
  }

  /** (byte)Math.Floor(v * 255) for a component in [0, 1]. */
  function Channel(v: real): (b: Byte)
    requires 0.0 <= v <= 1.0
    ensures b as real <= v * 255.0 < b as real + 1.0
  {
    (v * 255.0).Floor
  }

  /** The three bytes of a pixel: blue, green, red. */
  function PixelBytes(c: Colors.ColorValue): seq<Byte>
    requires Colors.Valid(c)
  {
    [Channel(c.b), Channel(c.g), Channel(c.r)]
  }

  /**
   * The bytes bs stored one by one from offset o, stopping at the first index outside the
   * buffer, where the store throws.
   */
  function Stored(content: seq<Byte>, o: int, bs: seq<Byte>): (r: seq<Byte>)
    ensures |r| == |content|
    ensures 0 <= o && o + |bs| <= |content| ==> r == content[..o] + bs + content[o + |bs|..]
    decreases |bs|
  {
    if bs == [] || o < 0 || o >= |content| then content
    else Stored(content[o := bs[0]], o + 1, bs[1..])
  }

  /** Why a store did not complete. */
  datatype Outcome = Written | NullReference | IndexOutOfRange

  class FileOutput {
    var width: int
    var height: int
    var buffered: bool
    var buf: array?<Byte>
    var filesize: int
    var pos: int
    var pitch: int

    /** The state SetInitDraw leaves in buffered mode. */
    predicate Ready()
      reads this
    {
      buffered && buf != null && 0 <= width && 0 <= height && pitch == Pitch(width) &&
      filesize == FileSize(width, height) && pos == 54 && buf.Length == filesize + 10
    }

    /** A writer for an image of the given size, unbuffered, with no buffer yet. */
    constructor (w: int, h: int)
      ensures width == w && height == h && !buffered && buf == null
    {
      width, height := w, h;
      buffered := false;
      buf := null;
    }

    /** setSize. */
    method SetSize(w: int, h: int)
      modifies this`width, this`height
      ensures width == w && height == h
    {
      width, height := w, h;
    }

    /** setBuffer. */
    method SetBuffer(b: bool)
      modifies this`buffered
      ensures buffered == b
    {
      buffered := b;
    }

    /**
     * SetInitDraw in buffered mode: a zeroed buffer of filesize + 10 bytes whose first 54
     * are the header.
     */
    method SetInitDraw()
      requires buffered ==> 0 <= width && 0 <= height && FileSize(width, height) + 10 < TwoTo31
      modifies this
      ensures width == old(width) && height == old(height) && buffered == old(buffered)
      ensures buffered ==> Ready() && fresh(buf) && buf[..] == Header(width, height) + Zeros(filesize + 10 - 54)
    {
      if buffered {
        pitch := width * 3;
        if pitch % 4 != 0 {
          pitch := pitch + (4 - pitch % 4);
        }
        filesize := 54 + pitch * height;
        assert pitch == Pitch(width);
        var n := filesize + 10;
        var b := new Byte[n](_ => 0);
        for i := 0 to 57
          modifies b
          invariant b[..] == Zeros(n)
        {
          b[i] := 0;
        }
        var p := WriteFileHeader(b, filesize);
        assert b[..14] == FileHeader(filesize);
        p := WriteInfoHeader(b, p, width, height);
        assert b[..] == Header(width, height) + Zeros(n - 54);
        pos := 54;
        filesize := 54 + pitch * height;
        buf := b;
      }
    }

    /** The first part of SetInitDraw's header writes, up to the pixel offset. */
    static method WriteFileHeader(b: array<Byte>, filesize: int) returns (p: int)
      requires 64 <= b.Length && b[..] == Zeros(b.Length)
      modifies b
      ensures p == 14 && b[..] == FileHeader(filesize) + Zeros(b.Length - 14)
    {
      ghost var n := b.Length;
      ghost var w: seq<Byte> := [];
      b[0] := 66;
      PutByteOnZeros(w, n, 66);
      w := w + [66];
      b[1] := 77;
      PutByteOnZeros(w, n - 1, 77);
      w := w + [77];
      p := 2;
      p := CopyBytes(b, p, EncodeInt32(filesize), w, n - |w|);
      w := w + EncodeInt32(filesize);
      ZerosSplit(w, n - |w|, 4);
      p := p + 4;
      w := w + Zeros(4);
      p := CopyBytes(b, p, EncodeInt32(54), w, n - |w|);
      w := w + EncodeInt32(54);
      assert w == FileHeader(filesize);
    }

    /** The rest of SetInitDraw's header writes, from the info header's size on. */
    static method WriteInfoHeader(b: array<Byte>, p0: int, width: int, height: int) returns (p: int)
      requires 64 <= b.Length && p0 == 14
      requires b[..] == b[..14] + Zeros(b.Length - 14)
      modifies b
      ensures b[..] == old(b[..14]) + InfoHeader(width, height) + Zeros(b.Length - 54)
    {
      ghost var n := b.Length;
      ghost var w: seq<Byte> := b[..14];
      p := p0;
      p := CopyBytes(b, p, EncodeInt32(40), w, n - |w|);
      w := w + EncodeInt32(40);
      p := CopyBytes(b, p, EncodeInt32(width), w, n - |w|);
      w := w + EncodeInt32(width);
      p := CopyBytes(b, p, EncodeInt32(height), w, n - |w|);
      w := w + EncodeInt32(height);
      b[p] := 1;
      PutByteOnZeros(w, n - |w|, 1);
      w := w + [1];
      ZerosSplit(w, n - |w|, 1);
      p := p + 1;
      w := w + Zeros(1);
      p := p + 1;
      b[p] := 24;
      PutByteOnZeros(w, n - |w|, 24);
      w := w + [24];
      ZerosSplit(w, n - |w|, 1);
      p := p + 1;
      w := w + Zeros(1);
      p := p + 1;
      ZerosSplit(w, n - |w|, 24);
      w := w + Zeros(24);
      assert w == old(b[..14]) + InfoHeader(width, height);
    }

    /**
     * One foreach loop of SetInitDraw: the bytes bs copied into b from p on, the index
     * moved past them. The buffer holds the written prefix w and zeros after it.
     */
    static method CopyBytes(b: array<Byte>, p: int, bs: seq<Byte>, ghost w: seq<Byte>, ghost m: nat) returns (q: int)
      requires p == |w| && b[..] == w + Zeros(m) && |bs| <= m
      modifies b
      ensures q == p + |bs| && b[..] == (w + bs) + Zeros(m - |bs|)
    {
      q := p;
      var k := 0;
      while k < |bs|
        invariant 0 <= k <= |bs| && q == p + k
        invariant b[..] == (w + bs[..k]) + Zeros(m - k)
      {
        b[q] := bs[k];
        assert bs[..k + 1] == bs[..k] + [bs[k]];
        PutByteOnZeros(w + bs[..k], m - k, bs[k]);
        q := q + 1;
        k := k + 1;
      }
      assert bs[..k] == bs;
    }

    /**
     * SetPoint: the pixel's blue, green and red stored at its offset. Without a buffer the
     * store throws at once; a store outside the buffer throws, leaving the bytes before it
     * written. On a prepared buffer a pixel of the image is written whole, and nothing else.
     */
    method SetPoint(flags: int, x: int, y: int, c: Colors.ColorValue) returns (outcome: Outcome)
      requires Colors.Valid(c)
      modifies buf
      ensures !buffered ==> outcome == Written && (buf != null ==> buf[..] == old(buf[..]))
      ensures buffered && buf == null ==> outcome == NullReference
      ensures buffered && buf != null ==>
        var o := Offset(pos, pitch, height, x, y);
        buf[..] == Stored(old(buf[..]), o, PixelBytes(c)) &&
        outcome == (if 0 <= o && o + 3 <= buf.Length then Written else IndexOutOfRange)
      ensures Ready() && 0 <= x < width && 0 <= y < height ==>
        var o := Offset(54, Pitch(width), height, x, y);
        outcome == Written && 54 <= o && o + 3 <= filesize &&
        buf[..] == old(buf[..])[..o] + PixelBytes(c) + old(buf[..])[o + 3..]
    {
      if !buffered {
        return Written;
      }
      if buf == null {
        return NullReference;
      }
      var o := pos + (height - 1 - y) * pitch + x * 3;
      assert o == Offset(pos, pitch, height, x, y);
      if Ready() && 0 <= x < width && 0 <= y < height {
        PixelInside(width, height, x, y);
        assert o == Offset(54, Pitch(width), height, x, y);
      }
      outcome := StorePixel(buf, o, PixelBytes(c));
    }

    /** The three stores of SetPoint, each throwing when its index is outside the buffer. */
    static method StorePixel(b: array<Byte>, o: int, bs: seq<Byte>) returns (outcome: Outcome)
      requires |bs| == 3
      modifies b
      ensures b[..] == Stored(old(b[..]), o, bs)
      ensures outcome == (if 0 <= o && o + 3 <= b.Length then Written else IndexOutOfRange)
    {
      ghost var s0 := b[..];
      if !(0 <= o < b.Length) {
        return IndexOutOfRange;
      }
      b[o] := bs[0];
      ghost var s1: seq<Byte> := s0[o := bs[0]];
      assert b[..] == s1;
      assert Stored(s0, o, bs) == Stored(s1, o + 1, bs[1..]);
      if !(0 <= o + 1 < b.Length) {
        return IndexOutOfRange;
      }
      b[o + 1] := bs[1];
      ghost var s2: seq<Byte> := s1[o + 1 := bs[1]];
      assert b[..] == s2;
      assert Stored(s1, o + 1, bs[1..]) == Stored(s2, o + 2, bs[2..]);
      if !(0 <= o + 2 < b.Length) {
        return IndexOutOfRange;
      }
      b[o + 2] := bs[2];
      ghost var s3: seq<Byte> := s2[o + 2 := bs[2]];
      assert b[..] == s3;
      assert Stored(s2, o + 2, bs[2..]) == Stored(s3, o + 3, []);
      outcome := Written;
    }
  }

  /** Storing v just after the written prefix w of a zeroed tail extends the prefix. */
  lemma PutByteOnZeros(w: seq<Byte>, m: nat, v: Byte)
    requires m > 0
    ensures (w + Zeros(m))[|w| := v] == (w + [v]) + Zeros(m - 1)
  {
  }

  /** Skipping k zero bytes of the tail moves them into the prefix. */
  lemma ZerosSplit(w: seq<Byte>, m: nat, k: nat)
    requires k <= m
    ensures w + Zeros(m) == (w + Zeros(k)) + Zeros(m - k)
  {
  }
}
