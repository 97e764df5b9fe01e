/**
 * The distributed engine end to end: what a server session does with the frames the client
 * sends (RestFract.Generators.Distributed/DistributedCalculatorFactory.cs against
 * DistributedCalculatorServer.cs). Each client call arrives as the matching call on the hosted
 * calculator, and a batch of points comes back as one result record per point, which the
 * client decodes to the record the server wrote.
 */
module Protocol {
  import opened Binary
  import opened Layers
  import opened Calculators
  import opened Wire
  import opened Frames
  import opened Wrappers
  import opened DistributedServer
  import DistributedClient

  /** Raw bytes followed by anything are read back as exactly those bytes. */
  lemma ReadRaw(bs: seq<Byte>, rest: seq<Unit>)
    ensures ReadBytes(Raw(bs) + rest, |bs|) == Got(bs, rest)
  {
    var us := Raw(bs) + rest;
    assert us[..|bs|] == Raw(bs);
    var r := ReadBytes(us, |bs|);
    assert r.v == bs by {
      forall i | 0 <= i < |bs|
        ensures r.v[i] == bs[i]
      {
        assert us[i] == B(r.v[i]) && us[i] == B(bs[i]);
      }
    }
    assert r.rest == us[|bs|..] == rest;
  }

  /** A tag is read back as the int it was written as. */
  lemma ReadTag(t: int, rest: seq<Unit>)
    ensures ReadInt(Tag(t) + rest) == Got(Wrap32(t), rest)
  {
    ReadRaw(EncodeInt32(t), rest);
    Int32RoundTrip(t);
  }

  /** Serialised objects followed by anything are deserialised back as those objects. */
  lemma ReadObjectsBack(us: seq<Unit>, ps: seq<Payload>, rest: seq<Unit>)
    requires |us| == |ps| && forall i :: 0 <= i < |ps| ==> us[i] == Obj(ps[i])
    ensures ReadObjects(us + rest, |ps|) == Got(ps, rest)
  {
    var r := ReadObjects(us + rest, |ps|);
    assert r.Got?;
    assert r.v == ps;
    assert r.rest == rest;
  }

  /** One action of the session loop, for a tag that is not -1. */
  lemma ServeTag(f: Binary64, backend: Backend, s: SessionState, t: int, rest: seq<Unit>)
    requires InInt32(t) && t != QuitTag && s.input == Tag(t) + rest
    ensures var st := Action(f, backend, s.(input := rest), t);
      Serve(f, backend, s) == if st.Next? then Serve(f, backend, st.s) else (st.outcome, st.s)
  {
    ReadTag(t, rest);
  }

  /** Dispose's tag -1 ends the session normally, leaving what follows unread. */
  lemma QuitFinishes(f: Binary64, backend: Backend, s: SessionState, rest: seq<Unit>)
    ensures Serve(f, backend, s.(input := Tag(QuitTag) + rest)) == (Finished, s.(input := rest))
  {
    ReadTag(QuitTag, rest);
  }

  /** A tag other than -1, 0, 1, 3, 4 and 5 is skipped without effect. */
  lemma UnknownTagSkipped(f: Binary64, backend: Backend, s: SessionState, t: int, rest: seq<Unit>)
    requires InInt32(t) && t !in {QuitTag, InitTag, ConfigureTag, PointsTag, 4, 5}
    ensures Serve(f, backend, s.(input := Tag(t) + rest)) == Serve(f, backend, s.(input := rest))
  {
    ServeTag(f, backend, s.(input := Tag(t) + rest), t, rest);
  }

  /**
   * Configure with the default layer at exactly one position d: the server creates its
   * calculator with the same layers, type, formula and default layer, when its factory returns.
   */
  lemma ConfigureDelivered(f: Binary64, backend: Backend, s: SessionState, ls: seq<LayerValue>,
                           ft: Flags.FractalType, code: string, d: nat, rest: seq<Unit>)
    requires d < |ls| && !backend.throws(s.calls + [Generate(ls, ft, code, d)])
    ensures Serve(f, backend, s.(input := ConfigureFrames(ls, ft, code, [d]) + rest))
      == Serve(f, backend, s.(input := rest, calls := s.calls + [Generate(ls, ft, code, d)],
                              layerData := Some(ls), hasCalc := true))
  {
    var objs := [Obj(LayerList(ls)), Obj(Kind(ft)), Obj(Text(code)), Obj(IntValue(d))];
    assert IntObjects([d]) == [Obj(IntValue(d))];
    assert ConfigureFrames(ls, ft, code, [d]) + rest == Tag(ConfigureTag) + (objs + rest);
    ServeTag(f, backend, s.(input := ConfigureFrames(ls, ft, code, [d]) + rest), ConfigureTag, objs + rest);
    ConfigureRead(backend, s.(input := objs + rest), ls, ft, code, d, rest);
  }

  /** A server factory that raises in GenFractalCalc ends the session, with no new calculator made. */
  lemma ConfigureRaises(f: Binary64, backend: Backend, s: SessionState, ls: seq<LayerValue>,
                        ft: Flags.FractalType, code: string, d: nat, rest: seq<Unit>)
    requires d < |ls| && backend.throws(s.calls + [Generate(ls, ft, code, d)])
    ensures Serve(f, backend, s.(input := ConfigureFrames(ls, ft, code, [d]) + rest))
      == (Crash(Hosted), s.(input := rest, calls := s.calls + [Generate(ls, ft, code, d)], layerData := Some(ls)))
  {
    var objs := [Obj(LayerList(ls)), Obj(Kind(ft)), Obj(Text(code)), Obj(IntValue(d))];
    assert IntObjects([d]) == [Obj(IntValue(d))];
    assert ConfigureFrames(ls, ft, code, [d]) + rest == Tag(ConfigureTag) + (objs + rest);
    ServeTag(f, backend, s.(input := ConfigureFrames(ls, ft, code, [d]) + rest), ConfigureTag, objs + rest);
    ConfigureRead(backend, s.(input := objs + rest), ls, ft, code, d, rest);
  }

  /** Tag 1's four objects, read back, are handed to GenFractalCalc, which makes the calculator or raises. */
  lemma ConfigureRead(backend: Backend, s: SessionState, ls: seq<LayerValue>, ft: Flags.FractalType, code: string, d: nat, rest: seq<Unit>)
    requires d < |ls|
    requires s.input == [Obj(LayerList(ls)), Obj(Kind(ft)), Obj(Text(code)), Obj(IntValue(d))] + rest
    ensures var s2 := s.(input := rest, calls := s.calls + [Generate(ls, ft, code, d)], layerData := Some(ls));
      ConfigureStep(backend, s) == if backend.throws(s2.calls) then Stop(Crash(Hosted), s2) else Next(s2.(hasCalc := true))
  {
    ReadObjectsBack(s.input[..4], [LayerList(ls), Kind(ft), Text(code), IntValue(d)], rest);
    assert s.input[..4] + rest == s.input;
  }

  /** A serialised object where a tag is expected: the model cannot follow the stream further. */
  lemma ObjectForTag(f: Binary64, backend: Backend, s: SessionState)
    requires |s.input| > 0 && s.input[0].Obj?
    ensures Serve(f, backend, s) == (Unmodelled, s.(input := []))
  {
    assert !AllBytes(s.input) && (4 <= |s.input| ==> !AllBytes(s.input[..4])) by {
      if 4 <= |s.input| {
        assert s.input[..4][0] == s.input[0];
      }
    }
  }

  /**
   * A default layer that occurs at two positions sends a second index, which the server then
   * reads where it expects the next tag: the session can no longer follow the stream.
   */
  lemma ConfigureTwoIndicesDesync(f: Binary64, backend: Backend, s: SessionState, ls: seq<LayerValue>,
                                  ft: Flags.FractalType, code: string, idx: seq<nat>, rest: seq<Unit>)
    requires |idx| >= 2 && idx[0] < |ls| && !backend.throws(s.calls + [Generate(ls, ft, code, idx[0])])
    ensures Serve(f, backend, s.(input := ConfigureFrames(ls, ft, code, idx) + rest)).0 == Unmodelled
  {
    var d := idx[0];
    var extra := IntObjects(idx)[1..];
    assert IntObjects(idx) == [Obj(IntValue(d))] + extra;
    assert ConfigureFrames(ls, ft, code, idx) + rest == ConfigureFrames(ls, ft, code, [d]) + (extra + rest);
    ConfigureDelivered(f, backend, s, ls, ft, code, d, extra + rest);
    var s1 := s.(input := extra + rest, calls := s.calls + [Generate(ls, ft, code, d)],
                 layerData := Some(ls), hasCalc := true);
    assert s1.input[0] == Obj(IntValue(idx[1]));
    ObjectForTag(f, backend, s1);
  }

  /** InitData after Configure reaches the hosted calculator with the same arguments. */
  lemma InitDelivered(f: Binary64, backend: Backend, s: SessionState, ls: seq<LayerValue>,
                      param: real, count: int, rest: seq<Unit>)
    requires s.hasCalc && !backend.throws(s.calls + [InitData(ls, param, count)])
    ensures Serve(f, backend, s.(input := InitFrames(ls, param, count) + rest))
      == Serve(f, backend, s.(input := rest, calls := s.calls + [InitData(ls, param, count)], layerData := Some(ls)))
  {
    var objs := [Obj(LayerList(ls)), Obj(DoubleValue(param)), Obj(LongValue(count))];
    assert InitFrames(ls, param, count) + rest == Tag(InitTag) + (objs + rest);
    ServeTag(f, backend, s.(input := InitFrames(ls, param, count) + rest), InitTag, objs + rest);
    InitRead(backend, s.(input := objs + rest), ls, param, count, rest);
  }

  /** A hosted InitData that raises (an OpenCL calculator given a negative count, say) ends the session. */
  lemma InitRaises(f: Binary64, backend: Backend, s: SessionState, ls: seq<LayerValue>,
                   param: real, count: int, rest: seq<Unit>)
    requires s.hasCalc && backend.throws(s.calls + [InitData(ls, param, count)])
    ensures Serve(f, backend, s.(input := InitFrames(ls, param, count) + rest))
      == (Crash(Hosted), s.(input := rest, calls := s.calls + [InitData(ls, param, count)], layerData := Some(ls)))
  {
    var objs := [Obj(LayerList(ls)), Obj(DoubleValue(param)), Obj(LongValue(count))];
    assert InitFrames(ls, param, count) + rest == Tag(InitTag) + (objs + rest);
    ServeTag(f, backend, s.(input := InitFrames(ls, param, count) + rest), InitTag, objs + rest);
    InitRead(backend, s.(input := objs + rest), ls, param, count, rest);
  }

  /** Tag 0's three objects, read back, are the arguments of InitData. */
  lemma InitRead(backend: Backend, s: SessionState, ls: seq<LayerValue>, param: real, count: int, rest: seq<Unit>)
    requires s.input == [Obj(LayerList(ls)), Obj(DoubleValue(param)), Obj(LongValue(count))] + rest
    ensures var s2 := s.(input := rest, calls := s.calls + [InitData(ls, param, count)], layerData := Some(ls));
      InitStep(backend, s) == if !s.hasCalc then Stop(Crash(NullReference), s.(input := rest, layerData := Some(ls)))
        else if backend.throws(s2.calls) then Stop(Crash(Hosted), s2) else Next(s2)
  {
    ReadObjectsBack(s.input[..3], [LayerList(ls), DoubleValue(param), LongValue(count)], rest);
    assert s.input[..3] + rest == s.input;
  }

  /** InitData before any Configure finds no calculator on the server. */
  lemma InitBeforeConfigure(f: Binary64, backend: Backend, s: SessionState, ls: seq<LayerValue>,
                            param: real, count: int, rest: seq<Unit>)
    requires !s.hasCalc
    ensures Serve(f, backend, s.(input := InitFrames(ls, param, count) + rest))
      == (Crash(NullReference), s.(input := rest, layerData := Some(ls)))
  {
    var objs := [Obj(LayerList(ls)), Obj(DoubleValue(param)), Obj(LongValue(count))];
    assert InitFrames(ls, param, count) + rest == Tag(InitTag) + (objs + rest);
    ServeTag(f, backend, s.(input := InitFrames(ls, param, count) + rest), InitTag, objs + rest);
    InitRead(backend, s.(input := objs + rest), ls, param, count, rest);
  }

  /**
   * The client's EndGet(final) arrives as EndGet(!final): the client sends 4 for the last
   * batch and the server reads 4 as a batch that is not the last.
   */
  lemma EndGetInverted(f: Binary64, backend: Backend, s: SessionState, final: bool, rest: seq<Unit>)
    requires s.hasCalc && !backend.throws(s.calls + [EndGet(!final)])
    ensures Serve(f, backend, s.(input := Tag(EndGetTag(final)) + rest))
      == Serve(f, backend, s.(input := rest, calls := s.calls + [EndGet(!final)]))
  {
    ServeTag(f, backend, s.(input := Tag(EndGetTag(final)) + rest), EndGetTag(final), rest);
  }

  /** A hosted EndGet that raises ends the session before the next tag is read. */
  lemma EndGetRaises(f: Binary64, backend: Backend, s: SessionState, final: bool, rest: seq<Unit>)
    requires s.hasCalc && backend.throws(s.calls + [EndGet(!final)])
    ensures Serve(f, backend, s.(input := Tag(EndGetTag(final)) + rest))
      == (Crash(Hosted), s.(input := rest, calls := s.calls + [EndGet(!final)]))
  {
    ServeTag(f, backend, s.(input := Tag(EndGetTag(final)) + rest), EndGetTag(final), rest);
  }

  /** A GetPoint repeated j + 1 times is one GetPoint followed by j more. */
  lemma GetPointsShift(calls: seq<CalcCall>, j: nat)
    ensures calls + [GetPoint] + GetPoints(j) == calls + GetPoints(j + 1)
  {
    assert [GetPoint] + GetPoints(j) == GetPoints(j + 1);
  }

  /**
   * When the n GetPoint calls that fill a buffer of n records all answer, each with a record
   * of R bytes, the buffer holds those records in answer order.
   */
  lemma {:induction false} FillAll<T(!new)>(enc: T -> seq<Byte>, answer: seq<CalcCall> -> Option<T>, throws: seq<CalcCall> -> bool,
                                           calls: seq<CalcCall>, xs: seq<T>, R: nat)
    requires forall t :: 8 <= |enc(t)|
    requires forall j :: 0 <= j < |xs| ==> !throws(calls + GetPoints(j) + [GetPoint]) && answer(calls + GetPoints(j)) == Some(xs[j])
    requires forall j :: 0 <= j < |xs| ==> |enc(xs[j])| == R
    ensures FillAnswers(enc, answer, throws, calls, R * |xs|) == Filled(Concat(enc, xs), |xs|)
    decreases |xs|
  {
    if xs != [] {
      assert !throws(calls + [GetPoint]) && answer(calls) == Some(xs[0]) by {
        assert calls + GetPoints(0) == calls;
      }
      MulSucc(R, |xs|);
      var rest := FillAnswers(enc, answer, throws, calls + [GetPoint], R * (|xs| - 1));
      assert rest == Filled(Concat(enc, xs[1..]), |xs| - 1) by {
        forall j | 0 <= j < |xs| - 1
          ensures !throws(calls + [GetPoint] + GetPoints(j) + [GetPoint]) && answer(calls + [GetPoint] + GetPoints(j)) == Some(xs[1..][j])
        {
          GetPointsShift(calls, j);
        }
        FillAll(enc, answer, throws, calls + [GetPoint], xs[1..], R);
      }
    }
  }

  /** The answers of n GetPoint calls made one after another after the given calls. */
  function Answers(backend: Backend, calls: seq<CalcCall>, n: nat): (r: seq<ResultRecord>)
    requires forall j :: 0 <= j < n ==> backend.answer(calls + GetPoints(j)).Some?
    ensures |r| == n && forall j :: 0 <= j < n ==> r[j] == backend.answer(calls + GetPoints(j)).value
  {
    if n == 0 then [] else Answers(backend, calls, n - 1) + [backend.answer(calls + GetPoints(n - 1)).value]
  }

  /**
   * Points enough for their records to fit a C# int, a hosted calculator whose AddPoint,
   * EndSend and GetPoint calls of the batch all return, and answers enough to fill the buffer.
   */
  predicate BatchFits(backend: Backend, s: SessionState, ps: seq<QueuedPoint>) {
    s.layerData.Some? &&
    PointSize * |ps| < TwoTo31 && ResultSize(|s.layerData.value|) * |ps| < TwoTo31 &&
    (forall j :: 0 <= j < |ps| ==> !backend.throws(AddedThrough(s.calls, ps, j))) &&
    var c := s.calls + AddPoints(ps) + [EndSend];
    !backend.throws(c) &&
    forall j :: 0 <= j < |ps| ==>
      !backend.throws(c + GetPoints(j) + [GetPoint]) &&
      backend.answer(c + GetPoints(j)).Some? && |backend.answer(c + GetPoints(j)).value.layers| == |s.layerData.value|
  }

  /** The records of a batch divide evenly into its points. */
  lemma WholeBatch(n: nat)
    ensures (PointSize * n) / PointSize == n && (PointSize * n) % PointSize == 0
  {
  }

  /** Tag 3's count and records are read back as the batch the client wrote. */
  lemma BatchRead(f: Binary64, backend: Backend, s: SessionState, ps: seq<QueuedPoint>, rest: seq<Unit>)
    requires PointSize * |ps| < TwoTo31
    ensures PointsStep(f, backend, s.(input := Raw(EncodeInt32(|ps|)) + (Raw(EncodePoints(f, ps)) + rest)))
      == BatchStep(f, backend, s.(input := rest), |ps|, EncodePoints(f, ps))
  {
    var buf := EncodePoints(f, ps);
    ReadTag(|ps|, Raw(buf) + rest);
    ReadRaw(buf, rest);
  }

  /**
   * A batch the server has read whole: it adds every point the client submitted, in order,
   * ends the batch, and writes back one result record per point with the hosted calculator's
   * answers in the order they were asked for.
   */
  lemma BatchAnswered(f: Binary64, backend: Backend, s: SessionState, ps: seq<QueuedPoint>)
    requires s.hasCalc && BatchFits(backend, s, ps)
    requires forall i :: 0 <= i < |ps| ==> WirePoint(f, ps[i])
    ensures var c := s.calls + AddPoints(ps) + [EndSend];
      BatchStep(f, backend, s, |ps|, EncodePoints(f, ps))
      == Next(s.(calls := c + GetPoints(|ps|), output := s.output + EncodeResults(f, Answers(backend, c, |ps|))))
  {
    BatchDecoded(f, ps);
    BatchFilled(f, backend, s.calls + AddPoints(ps) + [EndSend], |ps|, |s.layerData.value|);
  }

  /**
   * A batch whose j-th AddPoint is the first to raise: the points before it and that one
   * reached the hosted calculator, EndSend did not, nothing was written back, and the
   * session ends.
   */
  lemma BatchRaises(f: Binary64, backend: Backend, s: SessionState, ps: seq<QueuedPoint>, j: nat)
    requires s.hasCalc && j < |ps|
    requires forall i :: 0 <= i < |ps| ==> WirePoint(f, ps[i])
    requires forall i :: 0 <= i < j ==> !backend.throws(AddedThrough(s.calls, ps, i))
    requires backend.throws(AddedThrough(s.calls, ps, j))
    ensures BatchStep(f, backend, s, |ps|, EncodePoints(f, ps))
      == Stop(Crash(Hosted), s.(calls := s.calls + AddPoints(ps[..j + 1])))
  {
    BatchDecoded(f, ps);
    var buf := EncodePoints(f, ps);
    assert DecodePoints(f, buf[..PointSize * (|buf| / PointSize)], |buf| / PointSize) == ps;
    assert FirstThrowFrom(backend.throws, s.calls, ps, 0) == Some(j);
  }

  /** The server splits the records of a batch back into the points the client encoded. */
  lemma BatchDecoded(f: Binary64, ps: seq<QueuedPoint>)
    requires forall i :: 0 <= i < |ps| ==> WirePoint(f, ps[i])
    ensures var buf := EncodePoints(f, ps);
      |buf| / PointSize == |ps| && |buf| % PointSize == 0 &&
      DecodePoints(f, buf[..PointSize * |ps|], |ps|) == ps
  {
    var buf := EncodePoints(f, ps);
    WholeBatch(|ps|);
    assert buf[..PointSize * |ps|] == buf;
    PointsRoundTrip(f, ps);
  }

  /** n answers of L layers each fill an answer buffer of n records. */
  lemma BatchFilled(f: Binary64, backend: Backend, c: seq<CalcCall>, n: nat, L: nat)
    requires ResultSize(L) * n < TwoTo31
    requires forall j :: 0 <= j < n ==>
      !backend.throws(c + GetPoints(j) + [GetPoint]) &&
      backend.answer(c + GetPoints(j)).Some? && |backend.answer(c + GetPoints(j)).value.layers| == L
    ensures FillAnswers(ResultEncoder(f), backend.answer, backend.throws, c, AnswerSize(n, L)) == Filled(EncodeResults(f, Answers(backend, c, n)), n)
  {
    var rs := Answers(backend, c, n);
    FillAll(ResultEncoder(f), backend.answer, backend.throws, c, rs, ResultSize(L));
  }

  /** The frames EndSend writes for a batch, as the session loop sees them. */
  lemma BatchDelivered(f: Binary64, backend: Backend, s: SessionState, ps: seq<QueuedPoint>, rest: seq<Unit>)
    requires s.hasCalc && BatchFits(backend, s, ps)
    requires forall i :: 0 <= i < |ps| ==> WirePoint(f, ps[i])
    ensures var c := s.calls + AddPoints(ps) + [EndSend];
      Serve(f, backend, s.(input := BatchFrames(|ps|, EncodePoints(f, ps)) + rest))
      == Serve(f, backend, s.(input := rest, calls := c + GetPoints(|ps|),
                              output := s.output + EncodeResults(f, Answers(backend, c, |ps|))))
  {
    var buf := EncodePoints(f, ps);
    var body := Raw(EncodeInt32(|ps|)) + (Raw(buf) + rest);
    assert BatchFrames(|ps|, buf) + rest == Tag(PointsTag) + body;
    ServeTag(f, backend, s.(input := BatchFrames(|ps|, buf) + rest), PointsTag, body);
    BatchRead(f, backend, s, ps, rest);
    BatchAnswered(f, backend, s.(input := rest), ps);
  }

  /** The answer buffer of a batch is exactly as long as the client expects. */
  lemma ResponseSize(f: Binary64, rs: seq<ResultRecord>, L: nat)
    requires forall i :: 0 <= i < |rs| ==> |rs[i].layers| == L
    requires ResultSize(L) * |rs| < TwoTo31
    ensures |EncodeResults(f, rs)| == AnswerSize(|rs|, L)
  {
    ResultsSize(f, rs, L);
  }

  /**
   * The client's j-th read from the answer buffer, made where the first j records end,
   * decodes to the j-th record the server wrote.
   */
  lemma AnswerDecoded(f: Binary64, rs: seq<ResultRecord>, L: nat, j: nat, m: DistributedClient.MemStream)
    requires j < |rs|
    requires forall i :: 0 <= i < |rs| ==> |rs[i].layers| == L && WireResult(f, rs[i])
    requires m.data == EncodeResults(f, rs) && m.pos == |EncodeResults(f, rs[..j])|
    ensures DistributedClient.NextAnswer(f, m, L) == Some(rs[j])
  {
    assert |rs[j].layers| == L && WireResult(f, rs[j]);
    assert m.pos + ResultSize(L) <= |m.data| by {
      ResultAt(f, rs, j);
    }
    var b := m.data[m.pos..m.pos + ResultSize(L)];
    assert DecodeResult(f, b, L) == rs[j] by {
      ResultAt(f, rs, j);
      ResultDecodedFrom(f, rs[j], b);
    }
    ReadDecodes(f, rs[j], L, m);
  }

  /** A read over whole bytes returns what those bytes decode to. */
  lemma ReadDecodes(f: Binary64, r: ResultRecord, L: nat, m: DistributedClient.MemStream)
    requires m.pos + ResultSize(L) <= |m.data|
    requires DecodeResult(f, m.data[m.pos..m.pos + ResultSize(L)], L) == r
    ensures DistributedClient.NextAnswer(f, m, L) == Some(r)
  {
  }

  /** After the j-th read, the client's stream stands where the first j + 1 records end. */
  lemma AnswerAdvances(f: Binary64, rs: seq<ResultRecord>, L: nat, j: nat, m: DistributedClient.MemStream)
    requires j < |rs|
    requires forall i :: 0 <= i < |rs| ==> |rs[i].layers| == L
    requires m.data == EncodeResults(f, rs) && m.pos == |EncodeResults(f, rs[..j])|
    ensures m.pos <= |m.data| && DistributedClient.AfterAnswer(m, L) == m.(pos := |EncodeResults(f, rs[..j + 1])|)
  {
    ResultAt(f, rs, j);
  }
}
