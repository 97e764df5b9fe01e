/**
 * The client side of the distributed engine
 * (RestFract.Generators.Distributed/DistributedCalculatorFactory.cs): the connections to the
 * peers, the per-peer point buffers, the tags and fixed-layout records the client writes, and
 * how it reads the answers back.
 */
module DistributedClient {
  import opened Binary
  import opened ComplexMath
  import opened Flags
  import opened Layers
  import opened Calculators
  import opened Wire
  import opened Wrappers
  import opened Frames

  /** The positions i, in increasing order, at which ls[i] is the object p. */
  function IndicesOf(ls: seq<ProcessLayer>, p: ProcessLayer?): (r: seq<nat>)
    ensures forall k :: 0 <= k < |r| ==> r[k] < |ls| && ls[r[k]] == p
    ensures forall i :: 0 <= i < |ls| && ls[i] == p ==> i in r
    ensures forall k, l :: 0 <= k < l < |r| ==> r[k] < r[l]
  {
    if ls == [] then []
    else if ls[|ls| - 1] == p then IndicesOf(ls[..|ls| - 1], p) + [|ls| - 1]
    else IndicesOf(ls[..|ls| - 1], p)
  }

  /** With distinct layers, the default layer's position is sent once if it is in the list and
      not at all otherwise. */
  lemma {:induction false} IndicesOfDistinct(ls: seq<ProcessLayer>, p: ProcessLayer?)
    requires Distinct(ls)
    ensures p in ls ==> IndicesOf(ls, p) == [IndexIn(ls, p).value]
    ensures p !in ls ==> IndicesOf(ls, p) == []
  {
    if ls != [] {
      var front := ls[..|ls| - 1];
      IndicesOfDistinct(front, p);
      if ls[|ls| - 1] == p {
        assert p !in front;
      } else {
        assert p in ls <==> p in front;
      }
    }
  }

  /**
   * A TCP connection to a peer: what the client has written, the bytes the peer has answered
   * that are not read yet, and the most bytes one read delivers.
   */
  class Connection {
    var sent: seq<Unit>
    var incoming: seq<Byte>
    const chunk: Pos
    var open: bool

    constructor (incoming: seq<Byte>, chunk: Pos)
      ensures sent == [] && this.incoming == incoming && this.chunk == chunk && open
    {
      sent := [];
      this.incoming := incoming;
      this.chunk := chunk;
      open := true;
    }

    method Write(us: seq<Unit>)
      modifies this`sent
      ensures sent == old(sent) + us
    {
      sent := sent + us;
    }

    /** NetworkStream.Read: at most max bytes and at most one chunk; none once the peer has
        nothing more to send. */
    method Read(max: nat) returns (got: seq<Byte>)
      modifies this`incoming
      ensures |got| == Min(Min(max, chunk), |old(incoming)|)
      ensures old(incoming) == got + incoming
    {
      var k := Min(Min(max, chunk), |incoming|);
      got := incoming[..k];
      incoming := incoming[k..];
    }

    method Close()
      modifies this`open
      ensures !open
    {
      open := false;
    }
  }

  /**
   * The loop that reads until the buffer of n bytes is full. When the peer has sent fewer
   * bytes, every further read delivers nothing and the loop of the source never ends; the
   * model stops and reports that it is blocked.
   */
  method ReadFully(conn: Connection, n: nat) returns (buf: seq<Byte>, blocked: bool)
    modifies conn`incoming
    ensures blocked <==> |old(conn.incoming)| < n
    ensures !blocked ==> buf == old(conn.incoming)[..n] && conn.incoming == old(conn.incoming)[n..]
    ensures blocked ==> conn.incoming == []
  {
    buf := [];
    while |buf| != n
      invariant |buf| <= n
      invariant old(conn.incoming) == buf + conn.incoming
      decreases n - |buf|
    {
      var got := conn.Read(n - |buf|);
      if got == [] {
        return buf, true;
      }
      buf := buf + got;
    }
    blocked := false;
  }

  /**
   * A System.IO.MemoryStream: its bytes, its position, and whether it may grow. A stream made
   * with a capacity may grow and exposes its array to GetBuffer; one made over an array does
   * neither, so the one flag stands for both.
   */
  datatype MemStream = MemStream(data: seq<Byte>, pos: nat, expandable: bool)

  const EmptyStream := MemStream([], 0, true)

  /** Writing at the position: a stream over a fixed buffer refuses to grow. */
  function WriteTo(m: MemStream, bs: seq<Byte>): (r: Option<MemStream>)
    requires m.pos <= |m.data|
    ensures r.None? <==> !m.expandable && m.pos + |bs| > |m.data|
    ensures r.Some? ==> r.value.pos == m.pos + |bs| <= |r.value.data| && r.value.expandable == m.expandable
    ensures r.Some? ==> r.value.data[..m.pos] == m.data[..m.pos] && r.value.data[m.pos..m.pos + |bs|] == bs
    ensures m.expandable && m.pos == |m.data| ==> r == Some(MemStream(m.data + bs, |m.data| + |bs|, true))
  {
    if !m.expandable && m.pos + |bs| > |m.data| then None
    else if m.pos + |bs| >= |m.data| then
      assert m.pos == |m.data| ==> m.data[..m.pos] == m.data;
      Some(MemStream(m.data[..m.pos] + bs, m.pos + |bs|, m.expandable))
    else
      Some(MemStream(m.data[..m.pos] + bs + m.data[m.pos + |bs|..], m.pos + |bs|, m.expandable))
  }

  /** The bytes after a write that goes through: those before the position, the new bytes, then
      the old bytes past them. */
  lemma WriteToData(m: MemStream, bs: seq<Byte>)
    requires m.pos <= |m.data| && WriteTo(m, bs).Some?
    ensures WriteTo(m, bs).value.data == m.data[..m.pos] + bs + m.data[Min(m.pos + |bs|, |m.data|)..]
  {
  }

  /** Two writes in a row leave the stream as one write of both would. */
  lemma WriteToTwice(m: MemStream, a: seq<Byte>, b: seq<Byte>)
    requires m.pos <= |m.data| && WriteTo(m, a).Some?
    ensures WriteTo(WriteTo(m, a).value, b) == WriteTo(m, a + b)
  {
    var m1 := WriteTo(m, a).value;
    WriteToData(m, a);
    if WriteTo(m1, b).Some? {
      WriteToData(m1, b);
      WriteToData(m, a + b);
      SpliceTwice(m.data, m.pos, a, b);
    }
  }

  /** The bytes of the two writes, on sequences alone. */
  lemma SpliceTwice(d: seq<Byte>, p: nat, a: seq<Byte>, b: seq<Byte>)
    requires p <= |d|
    ensures var d1 := d[..p] + a + d[Min(p + |a|, |d|)..];
      d1[..p + |a|] + b + d1[Min(p + |a| + |b|, |d1|)..] == d[..p] + (a + b) + d[Min(p + |a| + |b|, |d|)..]
  {
    var d1 := d[..p] + a + d[Min(p + |a|, |d|)..];
    assert d1[..p + |a|] == d[..p] + a;
    if p + |a| + |b| < |d| {
      assert d1[p + |a| + |b|..] == d[p + |a| + |b|..];
    }
  }

  /** The chunks one after the other. */
  function Flatten(cs: seq<seq<Byte>>): (r: seq<Byte>)
    ensures cs != [] ==> r == cs[0] + Flatten(cs[1..])
  {
    if cs == [] then [] else cs[0] + Flatten(cs[1..])
  }

  /**
   * A run of separate writes, as a BinaryWriter makes one per value: the first that does not
   * fit raises, and the writes before it stay in the stream. The count says how many went
   * through.
   */
  function WriteChunks(m: MemStream, cs: seq<seq<Byte>>): (r: (MemStream, nat))
    requires m.pos <= |m.data|
    ensures r.1 <= |cs| && r.0.pos <= |r.0.data| && r.0.expandable == m.expandable
    ensures r.1 < |cs| ==> WriteTo(r.0, cs[r.1]).None?
    decreases |cs|
  {
    if cs == [] then (m, 0)
    else match WriteTo(m, cs[0])
      case None => (m, 0)
      case Some(m1) => var (m2, n) := WriteChunks(m1, cs[1..]); (m2, n + 1)
  }

  /** The writes that went through are one write of their bytes. */
  lemma {:induction false} WriteChunksPrefix(m: MemStream, cs: seq<seq<Byte>>)
    requires m.pos <= |m.data|
    ensures WriteTo(m, Flatten(cs[..WriteChunks(m, cs).1])) == Some(WriteChunks(m, cs).0)
    decreases |cs|
  {
    var (r, n) := WriteChunks(m, cs);
    if cs == [] || WriteTo(m, cs[0]).None? {
      assert n == 0 && r == m && cs[..n] == [];
      assert WriteTo(m, []).value.data == m.data;
    } else {
      var m1 := WriteTo(m, cs[0]).value;
      var (r1, n1) := WriteChunks(m1, cs[1..]);
      assert r == r1 && n == n1 + 1;
      WriteChunksPrefix(m1, cs[1..]);
      assert cs[..n][1..] == cs[1..][..n1];
      assert Flatten(cs[..n]) == cs[0] + Flatten(cs[1..][..n1]);
      WriteToTwice(m, cs[0], Flatten(cs[1..][..n1]));
    }
  }

  /** Every write goes through iff the bytes fit as one write, and then the stream is the same. */
  lemma {:induction false} WriteChunksWhole(m: MemStream, cs: seq<seq<Byte>>)
    requires m.pos <= |m.data|
    ensures WriteChunks(m, cs).1 == |cs| <==> WriteTo(m, Flatten(cs)).Some?
    ensures WriteChunks(m, cs).1 == |cs| ==> WriteTo(m, Flatten(cs)) == Some(WriteChunks(m, cs).0)
    decreases |cs|
  {
    if cs == [] {
      assert WriteTo(m, []).value.data == m.data;
    } else if WriteTo(m, cs[0]).None? {
      assert WriteTo(m, cs[0] + Flatten(cs[1..])).None?;
    } else {
      WriteChunksWhole(WriteTo(m, cs[0]).value, cs[1..]);
      WriteToTwice(m, cs[0], Flatten(cs[1..]));
    }
  }

  /** The capacity asked for a fresh point buffer: a negative one raises. */
  function Capacity(count: int, peers: nat): (r: int)
    requires peers > 0
    ensures InInt32(r)
  {
    Wrap32(Wrap32(Quot(Wrap32(count), peers) + 1) * PointSize)
  }

  /** C#'s int division, which truncates toward zero. */
  function Quot(a: int, b: int): (r: int)
    requires b > 0
    ensures a >= 0 ==> 0 <= a - r * b < b
    ensures a < 0 ==> 0 <= r * b - a < b
  {
    if a >= 0 then a / b else -((-a) / b)
  }

  /** A count that fits with room to spare asks for one record more than its share. */
  lemma CapacityExact(count: int, peers: nat)
    requires peers > 0 && 0 <= count < TwoTo31 && (count / peers + 1) * PointSize < TwoTo31
    ensures Capacity(count, peers) == (count / peers + 1) * PointSize > 0
  {
  }

  /** A count of -2 per peer or less, not far enough down to wrap, asks for a negative capacity. */
  lemma CapacityNegative(count: int, peers: nat)
    requires peers > 0 && -50_000_000 <= count <= -2 * peers
    ensures Capacity(count, peers) < 0
  {
    var q := Quot(count, peers);
    MulSign(q, peers);
  }

  lemma MulSign(q: int, p: int)
    requires p > 0
    ensures q >= -1 ==> q * p >= -p
    ensures q < 0 ==> q * p <= q
  {
    assert (q + 1) * p == q * p + p;
    assert q * p == q + q * (p - 1);
    if q >= -1 {
      assert (q + 1) * p >= 0;
    }
    if q < 0 {
      assert q * (p - 1) <= 0;
    }
  }

  /** One peer and a global-mode 8000 x 8000 drawing: the product wraps negative. */
  lemma CapacityWraps()
    ensures Capacity(8000 * 8000, 1) == -1_734_967_256
  {
  }

  /** A stream that still has bytes to read. */
  predicate Pending(m: MemStream) {
    m.pos != |m.data|
  }

  /** The first peer, from index i on, whose answer buffer still has bytes to read. */
  function FirstPending(ms: seq<MemStream>, i: nat): (r: Option<nat>)
    requires i <= |ms|
    ensures r.Some? ==> i <= r.value < |ms| && Pending(ms[r.value])
    ensures r.Some? ==> forall j :: i <= j < r.value ==> !Pending(ms[j])
    ensures r.None? ==> forall j :: i <= j < |ms| ==> !Pending(ms[j])
    decreases |ms| - i
  {
    if i == |ms| then None
    else if Pending(ms[i]) then Some(i)
    else FirstPending(ms, i + 1)
  }

  /** An exception the client lets escape. */
  datatype Fault =
    | DivideByZero      // AddPoint with no peers
    | NotExpandable     // writing past the end of an answer buffer
    | NotExposable      // GetBuffer on an answer buffer, which wraps an array it does not expose
    | BadLength         // Stream.Write asked for more bytes than the buffer holds
    | Overflow          // a negative array size
    | EndOfStream       // an answer record cut short
    | Blocked           // a read that never completes
    | NullReference     // the factory used after Dispose
    | NegativeCapacity  // a MemoryStream asked for a negative capacity

  predicate DistinctConnections(cs: seq<Connection>) {
    forall i, j :: 0 <= i < j < |cs| ==> cs[i] != cs[j]
  }

  /**
   * Writes the same frames to every connection of the list, in order; with firstOnly the pass
   * ends after the first connection, as when the step that follows each write raises.
   */
  method Broadcast(cs: seq<Connection>, us: seq<Unit>, firstOnly: bool)
    requires DistinctConnections(cs)
    modifies set c | c in cs
    ensures forall i :: 0 <= i < |cs| ==> cs[i].sent == old(cs[i].sent) + (if !firstOnly || i == 0 then us else [])
    ensures forall i :: 0 <= i < |cs| ==> cs[i].incoming == old(cs[i].incoming) && cs[i].open == old(cs[i].open)
  {
    var i := 0;
    while i < |cs|
      invariant 0 <= i <= |cs| && (firstOnly ==> i == 0)
      invariant forall j :: 0 <= j < i ==> cs[j].sent == old(cs[j].sent) + us
      invariant forall j :: i <= j < |cs| ==> cs[j].sent == old(cs[j].sent)
      invariant forall j :: 0 <= j < |cs| ==> cs[j].incoming == old(cs[j].incoming) && cs[j].open == old(cs[j].open)
    {
      cs[i].Write(us);
      if firstOnly {
        return;
      }
      i := i + 1;
    }
  }

  /** EndSend for one peer goes through: the buffer is a growable one, whose array GetBuffer
      exposes, it holds the records, the answer size is not negative, and the peer has answered
      with at least that many bytes. */
  predicate BatchOk(m: MemStream, count: int, L: nat, incoming: seq<Byte>) {
    var n := Wrap32(count * PointSize);
    m.expandable && 0 <= n <= |m.data| && 0 <= AnswerSize(count, L) <= |incoming|
  }

  /**
   * One peer after EndSend: its batch was written after what had been sent, its answer was
   * taken from what it had sent back and became its buffer, and its counter is 0.
   */
  predicate BatchDone(sent0: seq<Unit>, incoming0: seq<Byte>, m0: MemStream, count0: int, L: nat,
                      sent: seq<Unit>, incoming: seq<Byte>, m: MemStream, count: int)
  {
    BatchOk(m0, count0, L, incoming0) &&
    var a := AnswerSize(count0, L);
    sent == sent0 + BatchFrames(count0, m0.data[..Wrap32(count0 * PointSize)]) &&
    incoming == incoming0[a..] && m == MemStream(incoming0[..a], 0, false) && count == 0
  }

  /** The answer record at the read position of a buffer, when a whole one is left. */
  function NextAnswer(f: Binary64, m: MemStream, L: nat): (r: Option<ResultRecord>)
    ensures r.Some? <==> m.pos + ResultSize(L) <= |m.data|
    ensures r.Some? ==> |r.value.layers| == L
    ensures r.Some? ==> r.value == DecodeResult(f, m.data[m.pos..m.pos + ResultSize(L)], L)
  {
    if m.pos + ResultSize(L) <= |m.data| then Some(DecodeResult(f, m.data[m.pos..m.pos + ResultSize(L)], L))
    else None
  }

  /** The buffer once one record is read from it: a record cut short consumes the rest. */
  function AfterAnswer(m: MemStream, L: nat): (r: MemStream)
    requires m.pos <= |m.data|
    ensures r.data == m.data && r.pos <= |r.data| && (m.pos < |m.data| ==> m.pos < r.pos)
  {
    m.(pos := Min(m.pos + ResultSize(L), |m.data|))
  }

  /** The six values of a point record, each written by a BinaryWriter call of its own. */
  function PointChunks(f: Binary64, p: QueuedPoint): (r: seq<seq<Byte>>)
    ensures |r| == 6 && Flatten(r) == EncodePoint(f, p)
  {
    var r := [EncodeInt32(p.px), EncodeInt32(p.py), EncodeDouble(f, p.x.re), EncodeDouble(f, p.x.im),
              EncodeDouble(f, p.c.re), EncodeDouble(f, p.c.im)];
    assert Flatten(r[5..]) == r[5] && Flatten(r[4..]) == r[4] + r[5];
    assert Flatten(r[2..]) == EncodeComplex(f, p.x) + EncodeComplex(f, p.c) by {
      assert r[2..][1..] == r[3..] && r[3..][1..] == r[4..] && r[4..][1..] == r[5..];
    }
    assert r[..][1..] == r[1..] && r[1..][1..] == r[2..];
    r
  }

  /** The six writes of a point record go through iff the whole record fits, and then they leave
      the stream as one write of the record; a growable buffer always takes them. */
  lemma PointWriteWhole(f: Binary64, m: MemStream, p: QueuedPoint)
    requires m.pos <= |m.data|
    ensures var (r, n) := WriteChunks(m, PointChunks(f, p));
      (n == 6 <==> WriteTo(m, EncodePoint(f, p)).Some?) && (n == 6 ==> WriteTo(m, EncodePoint(f, p)) == Some(r))
    ensures m.expandable ==> WriteChunks(m, PointChunks(f, p)).1 == 6
  {
    WriteChunksWhole(m, PointChunks(f, p));
  }

  /** The writes of the chunks one by one, up to the first that raises. */
  method WriteValues(m: MemStream, cs: seq<seq<Byte>>) returns (r: MemStream, n: nat)
    requires m.pos <= |m.data|
    ensures (r, n) == WriteChunks(m, cs)
  {
    r, n := m, 0;
    while n < |cs|
      invariant n <= |cs| && r.pos <= |r.data|
      invariant WriteChunks(m, cs) == (WriteChunks(r, cs[n..]).0, WriteChunks(r, cs[n..]).1 + n)
    {
      var w := WriteTo(r, cs[n]);
      if w.None? {
        return;
      }
      assert cs[n..][1..] == cs[n + 1..];
      r, n := w.value, n + 1;
    }
  }

  class DistributedCalculator {
    const f: Binary64
    const clients: seq<Connection>
    var layerData: seq<ProcessLayer>
    var num: int
    var ms: array<MemStream>
    var count: array<int>
    var ccount: int

    constructor (f: Binary64, clients: seq<Connection>)
      requires DistinctConnections(clients)
      ensures this.f == f && this.clients == clients && num == 0 && layerData == []
      ensures fresh(ms) && fresh(count) && ms.Length == 0 && count.Length == 0
    {
      this.f := f;
      num := 0;
      this.clients := clients;
      layerData := [];
      ms := new MemStream[0];
      count := new int[0];
      ccount := 0;
    }

    /** InitData has set up one buffer and one counter per peer; the shard counter is 0. */
    predicate Valid()
      reads this, ms
    {
      ms.Length == |clients| && count.Length == |clients| && num == 0 && DistinctConnections(clients) &&
      forall i :: 0 <= i < ms.Length ==> ms[i].pos <= |ms[i].data|
    }

    /**
     * Sends every peer tag 0, the layer list, param and count, and starts an empty buffer and a
     * zero counter per peer. The capacity of a buffer is the same for every peer, so when it is
     * negative the first peer has been sent its frames and the next one nothing. The buffers are
     * created empty with the arrays rather than one per pass of the loop.
     */
    method InitData(layers: seq<ProcessLayer>, param: real, count: int) returns (err: Option<Fault>)
      requires DistinctConnections(clients) && num == 0
      modifies this`layerData, this`ms, this`count, this`ccount, set c | c in clients
      ensures Valid() && fresh(ms) && fresh(this.count)
      ensures layerData == layers && ccount == count
      ensures err.Some? <==> |clients| > 0 && Capacity(count, |clients|) < 0
      ensures err.Some? ==> err == Some(NegativeCapacity)
      ensures forall i :: 0 <= i < |clients| ==> ms[i] == EmptyStream && this.count[i] == 0
      ensures forall i :: 0 <= i < |clients| ==>
        clients[i].sent == old(clients[i].sent) + (if err.None? || i == 0 then InitFrames(old(Values(layers)), param, count) else [])
      ensures forall i :: 0 <= i < |clients| ==>
        clients[i].incoming == old(clients[i].incoming) && clients[i].open == old(clients[i].open)
    {
      var values := Values(layers);
      layerData := layers;
      ms := new MemStream[|clients|](_ => EmptyStream);
      this.count := new int[|clients|](_ => 0);
      ccount := count;
      var negative := |clients| > 0 && Capacity(count, |clients|) < 0;
      Broadcast(clients, InitFrames(values, param, count), negative);
      err := if negative then Some(NegativeCapacity) else None;
    }

    /**
     * Appends the 40-byte record of the point to the buffer of peer num % |clients|, one value
     * at a time. The shard counter is never advanced, so every point goes to peer 0. A value
     * that does not fit raises, and the values before it stay in the buffer; the counter goes up
     * only when the whole record is written.
     */
    method AddPoint(px: int, py: int, x: Complex, c: Complex) returns (err: Option<Fault>)
      requires Valid()
      modifies ms, count
      ensures Valid()
      ensures |clients| == 0 ==> err == Some(DivideByZero) && ms[..] == old(ms[..]) && count[..] == old(count[..])
      ensures |clients| > 0 ==>
        var (m, n) := WriteChunks(old(ms[0]), PointChunks(f, QueuedPoint(px, py, x, c)));
        ms[..] == old(ms[..])[0 := m] && (err.None? <==> n == 6) && (err.Some? ==> err == Some(NotExpandable)) &&
        count[..] == if n == 6 then old(count[..])[0 := Wrap32(old(count[0]) + 1)] else old(count[..])
    {
      if |clients| == 0 {
        return Some(DivideByZero);
      }
      var k := num % |clients|;
      var m, n := WriteValues(ms[k], PointChunks(f, QueuedPoint(px, py, x, c)));
      ms[k] := m;
      if n < 6 {
        return Some(NotExpandable);
      }
      count[k] := Wrap32(count[k] + 1);
      err := None;
    }

    /**
     * Reads the next answer from the first peer whose buffer has bytes left; false, (0, 0) and
     * no layers ([] stands for null) once every buffer is consumed.
     */
    method GetPoint() returns (ok: bool, px: int, py: int, layers: seq<ProcessLayer>, err: Option<Fault>)
      requires Valid()
      modifies ms
      ensures Valid() && count == old(count)
      ensures FirstPending(old(ms[..]), 0).None? ==>
        !ok && px == 0 && py == 0 && layers == [] && err.None? && ms[..] == old(ms[..])
      ensures FirstPending(old(ms[..]), 0).Some? ==>
        var k := FirstPending(old(ms[..]), 0).value;
        var rec := NextAnswer(f, old(ms[k]), |layerData|);
        ms[..] == old(ms[..])[k := AfterAnswer(old(ms[k]), |layerData|)] &&
        (ok <==> rec.Some?) && (err.None? <==> ok) && (!ok ==> err == Some(EndOfStream)) &&
        (ok ==> Answer(rec.value, px, py, layers))
    {
      var k := FindPending();
      if k.None? {
        return false, 0, 0, [], None;
      }
      ok, px, py, layers, err := ReadAnswer(k.value);
    }

    /** The scan over the peers in index order. */
    method FindPending() returns (k: Option<nat>)
      requires Valid()
      ensures k == FirstPending(ms[..], 0)
    {
      var i := 0;
      while i < ms.Length
        invariant 0 <= i <= ms.Length
        invariant FirstPending(ms[..], 0) == FirstPending(ms[..], i)
      {
        if Pending(ms[i]) {
          return Some(i);
        }
        i := i + 1;
      }
      return None;
    }

    /**
     * The layers read from one record: px, py, then per template layer a clone whose twelve
     * state fields are read from the record, its configuration and default flag kept.
     */
    ghost predicate Answer(rec: ResultRecord, px: int, py: int, layers: seq<ProcessLayer>)
      reads this, layerData, layers
    {
      px == rec.px && py == rec.py && |layers| == |layerData| == |rec.layers| &&
      forall j :: 0 <= j < |layers| ==>
        (layers[j].cfg == layerData[j].cfg && layers[j].isDefault == layerData[j].isDefault && layers[j].st == rec.layers[j])
    }

    /** Reads one record from the buffer of peer i; a record cut short raises EndOfStream and
        leaves the buffer consumed. */
    method ReadAnswer(i: nat) returns (ok: bool, px: int, py: int, layers: seq<ProcessLayer>, err: Option<Fault>)
      requires Valid() && i < ms.Length && Pending(ms[i])
      modifies ms
      ensures Valid() && count == old(count)
      ensures ms[..] == old(ms[..])[i := AfterAnswer(old(ms[i]), |layerData|)]
      ensures var rec := NextAnswer(f, old(ms[i]), |layerData|);
        (ok <==> rec.Some?) && (err.None? <==> ok) && (!ok ==> err == Some(EndOfStream)) &&
        (ok ==> Answer(rec.value, px, py, layers) && forall j :: 0 <= j < |layers| ==> fresh(layers[j]))
    {
      var L := |layerData|;
      var rec := NextAnswer(f, ms[i], L);
      ms[i] := AfterAnswer(ms[i], L);
      if rec.None? {
        return false, 0, 0, [], Some(EndOfStream);
      }
      layers := CloneWith(layerData, rec.value.layers);
      return true, rec.value.px, rec.value.py, layers, None;
    }

    /**
     * Sends every peer its batch (tag 3, the count, the records) and reads its whole answer,
     * which becomes that peer's buffer; the counters return to 0.
     */
    method EndSend() returns (err: Option<Fault>)
      requires Valid()
      modifies ms, count, set c | c in clients
      ensures Valid()
      ensures err.None? <==> forall i :: 0 <= i < |clients| ==>
        BatchOk(old(ms[i]), old(count[i]), |layerData|, old(clients[i].incoming))
      ensures err.None? ==> forall i :: 0 <= i < |clients| ==>
        BatchDone(old(clients[i].sent), old(clients[i].incoming), old(ms[i]), old(count[i]), |layerData|,
                  clients[i].sent, clients[i].incoming, ms[i], count[i])
      ensures 0 < |clients| && !old(ms[0]).expandable ==>
        err == Some(NotExposable) && clients[0].sent == old(clients[0].sent) && ms[0] == old(ms[0])
    {
      ghost var sent0 := seq(|clients|, j requires 0 <= j < |clients| reads clients => clients[j].sent);
      ghost var incoming0 := seq(|clients|, j requires 0 <= j < |clients| reads clients => clients[j].incoming);
      ghost var ms0 := ms[..];
      ghost var count0 := count[..];
      var i := 0;
      while i < |clients|
        invariant 0 <= i <= |clients| && Valid()
        invariant forall j :: 0 <= j < i ==>
          BatchDone(sent0[j], incoming0[j], ms0[j], count0[j], |layerData|, clients[j].sent, clients[j].incoming, ms[j], count[j])
        invariant forall j :: i <= j < |clients| ==>
          ms[j] == ms0[j] && count[j] == count0[j] && clients[j].incoming == incoming0[j] && clients[j].sent == sent0[j]
      {
        var e := SendBatch(i);
        if e.Some? {
          return e;
        }
        i := i + 1;
      }
      err := None;
    }

    /** EndSend for peer i. */
    method SendBatch(i: nat) returns (err: Option<Fault>)
      requires Valid() && i < |clients|
      modifies ms, count, clients[i]
      ensures Valid()
      ensures err.None? <==> BatchOk(old(ms[i]), old(count[i]), |layerData|, old(clients[i].incoming))
      ensures err.None? ==>
        BatchDone(old(clients[i].sent), old(clients[i].incoming), old(ms[i]), old(count[i]), |layerData|,
                  clients[i].sent, clients[i].incoming, ms[i], count[i])
      ensures forall j :: 0 <= j < ms.Length && j != i ==> ms[j] == old(ms[j]) && count[j] == old(count[j])
      ensures !old(ms[i]).expandable ==>
        err == Some(NotExposable) && clients[i].sent == old(clients[i].sent) && ms[i] == old(ms[i])
    {
      if !ms[i].expandable {
        return Some(NotExposable);
      }
      var s := clients[i];
      s.Write(Tag(PointsTag) + Raw(EncodeInt32(count[i])));
      var n := Wrap32(count[i] * PointSize);
      if n < 0 || n > |ms[i].data| {
        return Some(BadLength);
      }
      s.Write(Raw(ms[i].data[..n]));
      var a := AnswerSize(count[i], |layerData|);
      if a < 0 {
        return Some(Overflow);
      }
      var buf, blocked := ReadFully(s, a);
      if blocked {
        return Some(Blocked);
      }
      ms[i] := MemStream(buf, 0, false);
      count[i] := 0;
      err := None;
    }

    /**
     * Sends every peer tag 4 when final and 5 otherwise, and empties the buffers. The capacity
     * of the new buffers is the same for every peer, so when it is negative the first peer has
     * been sent its tag and no buffer is replaced.
     */
    method EndGet(final: bool) returns (err: Option<Fault>)
      requires Valid()
      modifies ms, set c | c in clients
      ensures Valid() && count == old(count)
      ensures err.Some? <==> |clients| > 0 && Capacity(ccount, |clients|) < 0
      ensures err.Some? ==> err == Some(NegativeCapacity) && ms[..] == old(ms[..])
      ensures err.None? ==> forall i :: 0 <= i < |clients| ==> ms[i] == EmptyStream
      ensures forall i :: 0 <= i < |clients| ==>
        clients[i].sent == old(clients[i].sent) + (if err.None? || i == 0 then Tag(EndGetTag(final)) else []) &&
        clients[i].incoming == old(clients[i].incoming)
    {
      var negative := |clients| > 0 && Capacity(ccount, |clients|) < 0;
      Broadcast(clients, Tag(if final then 4 else 5), negative);
      if negative {
        return Some(NegativeCapacity);
      }
      forall i | 0 <= i < ms.Length {
        ms[i] := EmptyStream;
      }
      err := None;
    }
  }

  /** DistributedCalculatorFactory: the peer connections, or none once disposed. */
  class DistributedFactory {
    const f: Binary64
    var clients: seq<Connection>
    var disposed: bool

    constructor (f: Binary64)
      ensures this.f == f && clients == [] && !disposed
    {
      this.f := f;
      clients := [];
      disposed := false;
    }

    /** A new connection joins the list; after Dispose the list is null. */
    method AddClient(conn: Connection) returns (err: Option<Fault>)
      requires conn !in clients
      modifies this`clients
      ensures disposed ==> err == Some(NullReference) && clients == old(clients)
      ensures !disposed ==> err.None? && clients == old(clients) + [conn]
    {
      if disposed {
        return Some(NullReference);
      }
      clients := clients + [conn];
      err := None;
    }

    /**
     * Sends every peer tag 1, the layer list, the fractal type, the formula and the position of
     * every layer that is the default layer, and makes a calculator over the peers.
     */
    method GenFractalCalc(layers: seq<ProcessLayer>, ft: FractalType, code: string, deflayer: ProcessLayer?)
      returns (calculator: DistributedCalculator?, err: Option<Fault>)
      requires DistinctConnections(clients)
      modifies set c | c in clients
      ensures disposed ==> err == Some(NullReference) && calculator == null
      ensures !disposed ==> err.None? && calculator != null && fresh(calculator) && calculator.clients == clients && calculator.f == f && calculator.num == 0
      ensures !disposed ==> forall i :: 0 <= i < |clients| ==>
        clients[i].sent == old(clients[i].sent) + ConfigureFrames(old(Values(layers)), ft, code, IndicesOf(layers, deflayer))
      ensures forall i :: 0 <= i < |clients| ==> clients[i].incoming == old(clients[i].incoming)
    {
      if disposed {
        return null, Some(NullReference);
      }
      Broadcast(clients, ConfigureFrames(Values(layers), ft, code, IndicesOf(layers, deflayer)), false);
      calculator := new DistributedCalculator(f, clients);
      err := None;
    }

    /** Sends every peer tag -1 and closes it, then drops the list; a second call does nothing. */
    method Dispose()
      requires DistinctConnections(clients)
      modifies this`disposed, set c | c in clients
      ensures disposed
      ensures !old(disposed) ==> forall i :: 0 <= i < |clients| ==>
        clients[i].sent == old(clients[i].sent) + Tag(QuitTag) && !clients[i].open
      ensures old(disposed) ==> forall i :: 0 <= i < |clients| ==>
        clients[i].sent == old(clients[i].sent) && clients[i].open == old(clients[i].open)
    {
      if disposed {
        return;
      }
      var i := 0;
      while i < |clients|
        invariant 0 <= i <= |clients|
        invariant forall j :: 0 <= j < i ==> clients[j].sent == old(clients[j].sent) + Tag(QuitTag) && !clients[j].open
        invariant forall j :: i <= j < |clients| ==> clients[j].sent == old(clients[j].sent)
      {
        clients[i].Write(Tag(QuitTag));
        clients[i].Close();
        i := i + 1;
      }
      disposed := true;
    }
  }
}
