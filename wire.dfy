/**
 * The fixed-layout records of the distributed engine
 * (RestFract.Generators.Distributed/DistributedCalculatorFactory.cs and
 * DistributedCalculatorServer.cs): the 40-byte point record the client sends and the
 * 8 + 112·L-byte result record the server answers with, for L layers.
 */
module Wire {
  import opened Binary
  import opened ComplexMath
  import opened Layers
  import opened Calculators

  const PointSize := 40
  const LayerSize := 112

  /** The size of one result record for L layers: two ints, then per layer four ints and
      twelve doubles. */
  function ResultSize(L: nat): (r: nat)
    ensures r == 8 + 112 * L
  {
    2 * 4 + L * (4 * 4 + 12 * 8)
  }

  function EncodeComplex(f: Binary64, z: Complex): (r: seq<Byte>)
    ensures |r| == 16
  {
    EncodeDouble(f, z.re) + EncodeDouble(f, z.im)
  }

  function DecodeComplex(f: Binary64, b: seq<Byte>): Complex
    requires |b| == 16
  {
    Complex(DecodeDouble(f, b[..8]), DecodeDouble(f, b[8..]))
  }

  predicate ExactComplex(f: Binary64, z: Complex) {
    Exact(f, z.re) && Exact(f, z.im)
  }

  lemma ComplexRoundTrip(f: Binary64, z: Complex)
    requires ExactComplex(f, z)
    ensures DecodeComplex(f, EncodeComplex(f, z)) == z
  {
    var b := EncodeComplex(f, z);
    assert b[..8] == EncodeDouble(f, z.re) && b[8..] == EncodeDouble(f, z.im);
    DoubleRoundTrip(f, z.re);
    DoubleRoundTrip(f, z.im);
  }

  /** AddPoint on the client: px, py, x.re, x.im, c.re, c.im. */
  function EncodePoint(f: Binary64, p: QueuedPoint): (r: seq<Byte>)
    ensures |r| == PointSize
  {
    EncodeInt32(p.px) + EncodeInt32(p.py) + EncodeComplex(f, p.x) + EncodeComplex(f, p.c)
  }

  /** One pass of the server's decode loop. */
  function DecodePoint(f: Binary64, b: seq<Byte>): (r: QueuedPoint)
    requires |b| == PointSize
    ensures InInt32(r.px) && InInt32(r.py)
  {
    QueuedPoint(DecodeInt32(b[..4]), DecodeInt32(b[4..8]), DecodeComplex(f, b[8..24]), DecodeComplex(f, b[24..]))
  }

  /** A point whose coordinates are ints and whose values are doubles. */
  predicate WirePoint(f: Binary64, p: QueuedPoint) {
    InInt32(p.px) && InInt32(p.py) && ExactComplex(f, p.x) && ExactComplex(f, p.c)
  }

  /** The server decodes exactly the point the client submitted. */
  lemma PointRoundTrip(f: Binary64, p: QueuedPoint)
    requires WirePoint(f, p)
    ensures DecodePoint(f, EncodePoint(f, p)) == p
  {
    var b := EncodePoint(f, p);
    assert b[..4] == EncodeInt32(p.px) && b[4..8] == EncodeInt32(p.py);
    assert b[8..24] == EncodeComplex(f, p.x) && b[24..] == EncodeComplex(f, p.c);
    Int32RoundTrip(p.px);
    Int32RoundTrip(p.py);
    ComplexRoundTrip(f, p.x);
    ComplexRoundTrip(f, p.c);
  }

  /** One layer of a result record: old2x, oldx, x, resx, calc, cmean, cvarsx, cvariance as
      doubles, then active and isin as 1 or 0, n and resn. */
  function EncodeLayer(f: Binary64, s: LayerState): (r: seq<Byte>)
    ensures |r| == LayerSize
  {
    EncodeComplex(f, s.old2x) + EncodeComplex(f, s.oldx) + EncodeComplex(f, s.x) + EncodeComplex(f, s.resx) +
    EncodeDouble(f, s.calcValue) + EncodeDouble(f, s.cmean) + EncodeDouble(f, s.cvarsx) + EncodeDouble(f, s.cvariance) +
    EncodeBool(s.active) + EncodeBool(s.isin) + EncodeInt32(s.n) + EncodeInt32(s.resn)
  }

  /** What the client reads back into the state fields of a cloned template layer. */
  function DecodeLayer(f: Binary64, b: seq<Byte>): (r: LayerState)
    requires |b| == LayerSize
    ensures InInt32(r.n) && InInt32(r.resn)
  {
    LayerState(
      active := DecodeBool(b[96..100]),
      isin := DecodeBool(b[100..104]),
      old2x := DecodeComplex(f, b[..16]),
      oldx := DecodeComplex(f, b[16..32]),
      x := DecodeComplex(f, b[32..48]),
      n := DecodeInt32(b[104..108]),
      calcValue := DecodeDouble(f, b[64..72]),
      cmean := DecodeDouble(f, b[72..80]),
      cvarsx := DecodeDouble(f, b[80..88]),
      cvariance := DecodeDouble(f, b[88..96]),
      resx := DecodeComplex(f, b[48..64]),
      resn := DecodeInt32(b[108..]))
  }

  /** A layer state every transported field of which the wire carries exactly. */
  predicate WireState(f: Binary64, s: LayerState) {
    ExactComplex(f, s.old2x) && ExactComplex(f, s.oldx) && ExactComplex(f, s.x) && ExactComplex(f, s.resx) &&
    Exact(f, s.calcValue) && Exact(f, s.cmean) && Exact(f, s.cvarsx) && Exact(f, s.cvariance) &&
    InInt32(s.n) && InInt32(s.resn)
  }

  /** Server encoding followed by client decoding gives back every transported field. */
  lemma LayerRoundTrip(f: Binary64, s: LayerState)
    requires WireState(f, s)
    ensures DecodeLayer(f, EncodeLayer(f, s)) == s
  {
    var b := EncodeLayer(f, s);
    assert b[..16] == EncodeComplex(f, s.old2x);
    assert b[16..32] == EncodeComplex(f, s.oldx);
    assert b[32..48] == EncodeComplex(f, s.x);
    assert b[48..64] == EncodeComplex(f, s.resx);
    assert b[64..72] == EncodeDouble(f, s.calcValue);
    assert b[72..80] == EncodeDouble(f, s.cmean);
    assert b[80..88] == EncodeDouble(f, s.cvarsx);
    assert b[88..96] == EncodeDouble(f, s.cvariance);
    assert b[96..100] == EncodeBool(s.active);
    assert b[100..104] == EncodeBool(s.isin);
    assert b[104..108] == EncodeInt32(s.n);
    assert b[108..] == EncodeInt32(s.resn);
    ComplexRoundTrip(f, s.old2x);
    ComplexRoundTrip(f, s.oldx);
    ComplexRoundTrip(f, s.x);
    ComplexRoundTrip(f, s.resx);
    DoubleRoundTrip(f, s.calcValue);
    DoubleRoundTrip(f, s.cmean);
    DoubleRoundTrip(f, s.cvarsx);
    DoubleRoundTrip(f, s.cvariance);
    BoolRoundTrip(s.active);
    BoolRoundTrip(s.isin);
    Int32RoundTrip(s.n);
    Int32RoundTrip(s.resn);
  }

  /** The layers of one result record, in list order. */
  function EncodeLayers(f: Binary64, sts: seq<LayerState>): (r: seq<Byte>)
    ensures |r| == LayerSize * |sts|
  {
    if sts == [] then [] else EncodeLayers(f, sts[..|sts| - 1]) + EncodeLayer(f, sts[|sts| - 1])
  }

  /** L layers read one after the other. */
  function DecodeLayers(f: Binary64, b: seq<Byte>, L: nat): (r: seq<LayerState>)
    requires |b| == LayerSize * L
    ensures |r| == L
  {
    if L == 0 then [] else DecodeLayers(f, b[..LayerSize * (L - 1)], L - 1) + [DecodeLayer(f, b[LayerSize * (L - 1)..])]
  }

  lemma {:induction false} LayersRoundTrip(f: Binary64, sts: seq<LayerState>)
    requires forall i :: 0 <= i < |sts| ==> WireState(f, sts[i])
    ensures DecodeLayers(f, EncodeLayers(f, sts), |sts|) == sts
  {
    if sts != [] {
      var L := |sts|;
      var front := EncodeLayers(f, sts[..L - 1]);
      LayersRoundTrip(f, sts[..L - 1]);
      LayerRoundTrip(f, sts[L - 1]);
      LastLayerSplit(f, EncodeLayers(f, sts), front, sts[L - 1], L);
      Snoc(DecodeLayers(f, front, L - 1), sts[L - 1], sts);
    }
  }

  /** A non-empty sequence is its front followed by its last element. */
  lemma Snoc<T>(front: seq<T>, last: T, s: seq<T>)
    requires |s| > 0 && front == s[..|s| - 1] && last == s[|s| - 1]
    ensures front + [last] == s
  {
  }

  /** Decoding a record whose last 112 bytes are a layer's encoding ends with that layer. */
  lemma LastLayerSplit(f: Binary64, b: seq<Byte>, front: seq<Byte>, s: LayerState, L: nat)
    requires L > 0 && |front| == LayerSize * (L - 1) && b == front + EncodeLayer(f, s)
    requires DecodeLayer(f, EncodeLayer(f, s)) == s
    ensures DecodeLayers(f, b, L) == DecodeLayers(f, front, L - 1) + [s]
  {
    assert b[..LayerSize * (L - 1)] == front;
    assert b[LayerSize * (L - 1)..] == EncodeLayer(f, s);
  }

  /** One answer of the hosted calculator, as the server writes it: px, py, then the layers. */
  datatype ResultRecord = ResultRecord(px: int, py: int, layers: seq<LayerState>)

  function EncodeResult(f: Binary64, r: ResultRecord): (b: seq<Byte>)
    ensures |b| == ResultSize(|r.layers|)
  {
    EncodeInt32(r.px) + EncodeInt32(r.py) + EncodeLayers(f, r.layers)
  }

  /** What the client's GetPoint reads from one result record for L layers. */
  function DecodeResult(f: Binary64, b: seq<Byte>, L: nat): (r: ResultRecord)
    requires |b| == ResultSize(L)
    ensures |r.layers| == L
  {
    ResultRecord(DecodeInt32(b[..4]), DecodeInt32(b[4..8]), DecodeLayers(f, b[8..], L))
  }

  predicate WireResult(f: Binary64, r: ResultRecord) {
    InInt32(r.px) && InInt32(r.py) && forall i :: 0 <= i < |r.layers| ==> WireState(f, r.layers[i])
  }

  /** The client gets back the px, py and every transported layer field the server wrote. */
  lemma ResultRoundTrip(f: Binary64, r: ResultRecord)
    requires WireResult(f, r)
    ensures DecodeResult(f, EncodeResult(f, r), |r.layers|) == r
  {
    var b := EncodeResult(f, r);
    assert b[..4] == EncodeInt32(r.px) && b[4..8] == EncodeInt32(r.py);
    assert b[8..] == EncodeLayers(f, r.layers);
    Int32RoundTrip(r.px);
    Int32RoundTrip(r.py);
    LayersRoundTrip(f, r.layers);
  }

  /** The round trip, for bytes known to be a record's encoding. */
  lemma ResultDecodedFrom(f: Binary64, r: ResultRecord, b: seq<Byte>)
    requires WireResult(f, r) && b == EncodeResult(f, r)
    ensures DecodeResult(f, b, |r.layers|) == r
  {
    ResultRoundTrip(f, r);
  }

  /** A batch of point records, in submission order. */
  function EncodePoints(f: Binary64, ps: seq<QueuedPoint>): (r: seq<Byte>)
    ensures |r| == PointSize * |ps|
  {
    if ps == [] then [] else EncodePoints(f, ps[..|ps| - 1]) + EncodePoint(f, ps[|ps| - 1])
  }

  /** The n records of a buffer of n·40 bytes, in stream order. */
  function DecodePoints(f: Binary64, b: seq<Byte>, n: nat): (r: seq<QueuedPoint>)
    requires |b| == PointSize * n
    ensures |r| == n
  {
    if n == 0 then [] else DecodePoints(f, b[..PointSize * (n - 1)], n - 1) + [DecodePoint(f, b[PointSize * (n - 1)..])]
  }

  lemma {:induction false} PointsRoundTrip(f: Binary64, ps: seq<QueuedPoint>)
    requires forall i :: 0 <= i < |ps| ==> WirePoint(f, ps[i])
    ensures DecodePoints(f, EncodePoints(f, ps), |ps|) == ps
  {
    if ps != [] {
      var n := |ps|;
      var front := EncodePoints(f, ps[..n - 1]);
      PointsRoundTrip(f, ps[..n - 1]);
      PointRoundTrip(f, ps[n - 1]);
      LastPointSplit(f, EncodePoints(f, ps), front, ps[n - 1], n);
      Snoc(DecodePoints(f, front, n - 1), ps[n - 1], ps);
    }
  }

  /** Decoding a batch whose last 40 bytes are a point's encoding ends with that point. */
  lemma LastPointSplit(f: Binary64, b: seq<Byte>, front: seq<Byte>, p: QueuedPoint, n: nat)
    requires n > 0 && |front| == PointSize * (n - 1) && b == front + EncodePoint(f, p)
    requires DecodePoint(f, EncodePoint(f, p)) == p
    ensures DecodePoints(f, b, n) == DecodePoints(f, front, n - 1) + [p]
  {
    assert b[..PointSize * (n - 1)] == front;
    assert b[PointSize * (n - 1)..] == EncodePoint(f, p);
  }

  /** The blocks g(x) of the elements of xs, one after the other. */
  function Concat<T, U>(g: T -> seq<U>, xs: seq<T>): (r: seq<U>)
  {
    if xs == [] then [] else g(xs[0]) + Concat(g, xs[1..])
  }

  /** Blocks of R elements each make R elements per block. */
  lemma {:induction false} ConcatSize<T, U>(g: T -> seq<U>, xs: seq<T>, R: nat)
    requires forall i :: 0 <= i < |xs| ==> |g(xs[i])| == R
    ensures |Concat(g, xs)| == R * |xs|
  {
    if xs != [] {
      ConcatSize(g, xs[1..], R);
      MulSucc(R, |xs|);
    }
  }

  /** The blocks before element j, element j's block, and the blocks after it. */
  lemma {:induction false} ConcatSplit<T, U>(g: T -> seq<U>, xs: seq<T>, j: nat)
    requires j < |xs|
    ensures Concat(g, xs) == Concat(g, xs[..j]) + g(xs[j]) + Concat(g, xs[j + 1..])
  {
    if j > 0 {
      var t := xs[1..];
      ConcatSplit(g, t, j - 1);
      assert xs[..j][1..] == t[..j - 1] && t[j - 1] == xs[j] && t[j..] == xs[j + 1..];
    } else {
      assert xs[..0] == [];
    }
  }

  /** Element j's block follows the blocks of the elements before it. */
  lemma ConcatAt<T, U>(g: T -> seq<U>, xs: seq<T>, j: nat)
    requires j < |xs|
    ensures var o := |Concat(g, xs[..j])|;
      o + |g(xs[j])| <= |Concat(g, xs)| && Concat(g, xs)[o..o + |g(xs[j])|] == g(xs[j])
    ensures Concat(g, xs[..j + 1]) == Concat(g, xs[..j]) + g(xs[j])
  {
    ConcatSplit(g, xs, j);
    ConcatSplit(g, xs[..j + 1], j);
    assert xs[..j + 1][..j] == xs[..j] && xs[..j + 1][j + 1..] == [];
    var before, mid, after := Concat(g, xs[..j]), g(xs[j]), Concat(g, xs[j + 1..]);
    assert (before + mid + after)[|before|..|before| + |mid|] == mid;
  }

  /** EncodeResult as a function value. */
  function ResultEncoder(f: Binary64): (g: ResultRecord -> seq<Byte>)
    ensures forall r :: g(r) == EncodeResult(f, r)
  {
    (r: ResultRecord) => EncodeResult(f, r)
  }

  /** The answers to a batch, one record after the other. */
  function EncodeResults(f: Binary64, rs: seq<ResultRecord>): (b: seq<Byte>)
  {
    Concat(ResultEncoder(f), rs)
  }

  /** When every answer has L layers, the batch is ResultSize(L) bytes per answer. */
  lemma ResultsSize(f: Binary64, rs: seq<ResultRecord>, L: nat)
    requires forall i :: 0 <= i < |rs| ==> |rs[i].layers| == L
    ensures |EncodeResults(f, rs)| == ResultSize(L) * |rs|
  {
    ConcatSize(ResultEncoder(f), rs, ResultSize(L));
  }

  /** Answer j is the record that follows the records of the answers before it. */
  lemma ResultAt(f: Binary64, rs: seq<ResultRecord>, j: nat)
    requires j < |rs|
    ensures var b, o := EncodeResults(f, rs), |EncodeResults(f, rs[..j])|;
      o + |EncodeResult(f, rs[j])| <= |b| && b[o..o + |EncodeResult(f, rs[j])|] == EncodeResult(f, rs[j])
    ensures EncodeResults(f, rs[..j + 1]) == EncodeResults(f, rs[..j]) + EncodeResult(f, rs[j])
  {
    ConcatAt(ResultEncoder(f), rs, j);
  }

  lemma MulSucc(a: int, n: int)
    ensures a * n == a * (n - 1) + a
  {
  }
}
