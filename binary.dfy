/**
 * The primitive encodings System.IO.BinaryWriter and BinaryReader use on the distributed
 * wire: little-endian two's-complement Int32 and IEEE 754 binary64 doubles (section 3.4 of
 * IEEE 754-2008), the latter as opaque 64-bit words.
 */
module Binary {

  type Byte = b: int | 0 <= b < 256

  /** 256^k, the number of values k bytes can hold. */
  function Pow256(k: nat): (r: nat)
    ensures r >= 1
  {
    if k == 0 then 1 else 256 * Pow256(k - 1)
  }

  /** The k little-endian bytes of the unsigned value u. */
  function EncodeLE(u: nat, k: nat): (r: seq<Byte>)
    requires u < Pow256(k)
    ensures |r| == k
  {
    if k == 0 then [] else [u % 256] + EncodeLE(u / 256, k - 1)
  }

  /** The unsigned value of little-endian bytes. */
  function DecodeLE(b: seq<Byte>): (r: nat)
    ensures r < Pow256(|b|)
  {
    if b == [] then 0 else b[0] + 256 * DecodeLE(b[1..])
  }

  lemma {:induction false} DecodeEncodeLE(u: nat, k: nat)
    requires u < Pow256(k)
    ensures DecodeLE(EncodeLE(u, k)) == u
  {
    if k > 0 {
      var r := EncodeLE(u, k);
      assert r[1..] == EncodeLE(u / 256, k - 1);
      DecodeEncodeLE(u / 256, k - 1);
    }
  }

  lemma {:induction false} EncodeDecodeLE(b: seq<Byte>)
    ensures EncodeLE(DecodeLE(b), |b|) == b
  {
    if b != [] {
      var u := DecodeLE(b);
      assert u % 256 == b[0] && u / 256 == DecodeLE(b[1..]);
      EncodeDecodeLE(b[1..]);
    }
  }

  const TwoTo32: int := 0x1_0000_0000
  const TwoTo31: int := 0x8000_0000

  /** The values of a C# int. */
  predicate InInt32(v: int) {
    -TwoTo31 <= v < TwoTo31
  }

  /** The C# int with the same low 32 bits as v: unchecked arithmetic wraps to it. */
  function Wrap32(v: int): (r: int)
    ensures InInt32(r) && (r - v) % TwoTo32 == 0
    ensures InInt32(v) ==> r == v
  {
    var u := v % TwoTo32;
    if u >= TwoTo31 then u - TwoTo32 else u
  }

  lemma Pow256Four()
    ensures Pow256(4) == TwoTo32
  {
    assert Pow256(1) == 256;
    assert Pow256(2) == 65536;
  }

  /** BinaryWriter.Write(int): four bytes, least significant first. */
  function EncodeInt32(v: int): (r: seq<Byte>)
    ensures |r| == 4
  {
    Pow256Four();
    EncodeLE(v % TwoTo32, 4)
  }

  /** BinaryReader.ReadInt32 on four bytes. */
  function DecodeInt32(b: seq<Byte>): (r: int)
    requires |b| == 4
    ensures InInt32(r)
  {
    Wrap32(DecodeLE(b))
  }

  /** An int survives the trip through the wire; a wider value arrives wrapped to 32 bits. */
  lemma Int32RoundTrip(v: int)
    ensures DecodeInt32(EncodeInt32(v)) == Wrap32(v)
    ensures InInt32(v) ==> DecodeInt32(EncodeInt32(v)) == v
  {
    Pow256Four();
    DecodeEncodeLE(v % TwoTo32, 4);
  }

  /** Every four bytes are the encoding of the int they decode to. */
  lemma Int32BytesRoundTrip(b: seq<Byte>)
    requires |b| == 4
    ensures EncodeInt32(DecodeInt32(b)) == b
  {
    Pow256Four();
    EncodeDecodeLE(b);
    var u := DecodeLE(b);
    assert DecodeInt32(b) % TwoTo32 == u;
  }

  /** A boolean written as the int 1 or 0, as the server writes c_active and c_isin. */
  function EncodeBool(v: bool): (r: seq<Byte>)
    ensures |r| == 4
  {
    EncodeInt32(if v then 1 else 0)
  }

  /** A boolean read back as "the int is not zero", as the client reads it. */
  function DecodeBool(b: seq<Byte>): bool
    requires |b| == 4
  {
    DecodeInt32(b) != 0
  }

  lemma BoolRoundTrip(v: bool)
    ensures DecodeBool(EncodeBool(v)) == v
  {
    Int32RoundTrip(if v then 1 else 0);
  }

  const TwoTo64: int := 0x1_0000_0000_0000_0000

  /** The bit pattern of a binary64 double. */
  type Word64 = w: int | 0 <= w < TwoTo64

  /**
   * How a double is represented: the bit pattern of the double nearest to a real, and the real
   * value of a bit pattern. The arithmetic of IEEE 754 is not part of this model; the codec is
   * correct for whatever pair is given.
   */
  datatype Binary64 = Binary64(toBits: real -> Word64, fromBits: Word64 -> real)

  /** A real that is exactly some double, so it survives rounding to its bit pattern. */
  predicate Exact(f: Binary64, r: real) {
    f.fromBits(f.toBits(r)) == r
  }

  lemma Pow256Eight()
    ensures Pow256(8) == TwoTo64
  {
    Pow256Four();
    assert Pow256(8) == Pow256(4) * Pow256(4) by {
      assert Pow256(5) == 256 * Pow256(4);
      assert Pow256(6) == 256 * 256 * Pow256(4);
    }
  }

  /** BinaryWriter.Write(double): the eight bytes of the bit pattern, least significant first. */
  function EncodeDouble(f: Binary64, v: real): (r: seq<Byte>)
    ensures |r| == 8
  {
    Pow256Eight();
    EncodeLE(f.toBits(v), 8)
  }

  /** BinaryReader.ReadDouble on eight bytes. */
  function DecodeDouble(f: Binary64, b: seq<Byte>): real
    requires |b| == 8
  {
    Pow256Eight();
    f.fromBits(DecodeLE(b))
  }

  /** A double survives the trip through the wire. */
  lemma DoubleRoundTrip(f: Binary64, v: real)
    requires Exact(f, v)
    ensures DecodeDouble(f, EncodeDouble(f, v)) == v
  {
    Pow256Eight();
    DecodeEncodeLE(f.toBits(v), 8);
  }

  /** Eight bytes whose bit pattern is the one its double is written as come back unchanged. */
  lemma DoubleBytesRoundTrip(f: Binary64, b: seq<Byte>)
    requires |b| == 8
    requires f.toBits(DecodeDouble(f, b)) == DecodeLE(b)
    ensures EncodeDouble(f, DecodeDouble(f, b)) == b
  {
    Pow256Eight();
    EncodeDecodeLE(b);
  }
}
