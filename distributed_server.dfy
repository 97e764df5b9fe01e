/**
 * The server side of the distributed engine
 * (RestFract.Generators.Distributed/DistributedCalculatorServer.cs): one session per
 * connection, which reads action tags, drives a hosted calculator, and answers each batch of
 * point records with one result record per point.
 *
 * The hosted calculator is whatever the server's factory makes; the model knows it only
 * through the calls the session makes on it (a trace of CalcCall values), whether a call
 * raises, and the answer it gives to a GetPoint after a given trace.
 */
module DistributedServer {
  import opened Binary
  import opened Layers
  import opened Calculators
  import opened Wire
  import opened Frames
  import opened Wrappers

  /**
   * The hosted factory and calculator: whether the last call of a trace raises (the session
   * catches only socket and I/O exceptions, so any other ends it), and the answer of a
   * GetPoint made after the given calls, or None when it returns false with a null layer list.
   */
  datatype Backend = Backend(throws: seq<CalcCall> -> bool, answer: seq<CalcCall> -> Option<ResultRecord>)

  /** What a read from the stream finds. */
  datatype Read<T> =
    | Got(v: T, rest: seq<Unit>)
    | Ended      // the peer closed the stream first
    | Mismatch   // a serialised object where bytes are expected, or bytes where an object is

  predicate AllBytes(us: seq<Unit>) {
    forall i :: 0 <= i < |us| ==> us[i].B?
  }

  function Bytes(us: seq<Unit>): (r: seq<Byte>)
    requires AllBytes(us)
    ensures |r| == |us| && Raw(r) == us
    ensures forall i :: 0 <= i < |us| ==> us[i] == B(r[i])
  {
    var r := seq(|us|, i requires 0 <= i < |us| => us[i].b);
    assert Raw(r) == us;
    r
  }

  /** Reading n raw bytes. */
  function ReadBytes(us: seq<Unit>, n: nat): (r: Read<seq<Byte>>)
    ensures r.Got? <==> n <= |us| && AllBytes(us[..n])
    ensures r.Got? ==> |r.v| == n && us == Raw(r.v) + r.rest
    ensures r.Ended? <==> |us| < n && AllBytes(us)
  {
    if n <= |us| then
      if AllBytes(us[..n]) then Got(Bytes(us[..n]), us[n..]) else Mismatch
    else if AllBytes(us) then Ended
    else Mismatch
  }

  /** BinaryReader.ReadInt32. */
  function ReadInt(us: seq<Unit>): (r: Read<int>)
    ensures r.Got? ==> |r.rest| == |us| - 4 && InInt32(r.v)
  {
    match ReadBytes(us, 4)
    case Got(b, rest) => Got(DecodeInt32(b), rest)
    case Ended => Ended
    case Mismatch => Mismatch
  }

  /** k successive BinaryFormatter.Deserialize calls. */
  function ReadObjects(us: seq<Unit>, k: nat): (r: Read<seq<Payload>>)
    ensures r.Got? ==> k <= |us| && |r.v| == k && r.rest == us[k..]
    ensures r.Got? ==> forall i :: 0 <= i < k ==> us[i] == Obj(r.v[i])
  {
    if k <= |us| && forall i :: 0 <= i < k ==> us[i].Obj? then
      Got(seq(k, i requires 0 <= i < k => us[i].p), us[k..])
    else if forall i :: 0 <= i < |us| && i < k ==> us[i].Obj? then Ended
    else Mismatch
  }

  /**
   * An exception that escapes the session loop. The loop catches only socket and I/O
   * exceptions, so one of these leaves the session's thread unhandled, which ends the whole
   * server process and every other session with it.
   */
  datatype Exception =
    | NullReference     // a call on the calculator before tag 1 created it, or on a null layer list
    | BadObject         // Deserialize found no object, or one of the wrong type
    | IndexOutOfRange   // the default layer's index is outside the layer list
    | Overflow          // an array of negative size
    | NotSupported      // writing past the end of the fixed answer buffer
    | Hosted            // raised by the hosted factory or calculator

  /** How a session ends. */
  datatype Outcome =
    | Finished          // tag -1
    | IoFailure         // an IOException (the stream ended inside a read), caught by the session
    | Crash(e: Exception)
    | Hang              // the read loop waits for bytes that never come
    | Unmodelled        // the model does not know the bytes of serialised objects

  /** What a session holds between two actions. */
  datatype SessionState = SessionState(
    input: seq<Unit>,          // what the peer sends that is not read yet
    output: seq<Byte>,         // what the session has written back
    calls: seq<CalcCall>,      // the calls made on the hosted factory and calculator
    layerData: Option<seq<LayerValue>>,
    hasCalc: bool)             // calc is not null

  /** A session only ever appends to what it has written and to the calls it has made. */
  predicate Extends(s: SessionState, t: SessionState) {
    s.output <= t.output && s.calls <= t.calls
  }

  /** One action: go on with the next tag, or end the session. */
  datatype Step = Next(s: SessionState) | Stop(outcome: Outcome, s: SessionState)

  function StepOf(stop: Option<Outcome>, s: SessionState): Step {
    if stop.None? then Next(s) else Stop(stop.value, s)
  }

  /**
   * Tag 1: the layer list, the fractal type, the formula and the default layer's index, then
   * GenFractalCalc; a factory that raises ends the session with the old calculator in place.
   */
  function ConfigureStep(backend: Backend, s: SessionState): (r: Step)
    ensures r.Next? ==> |r.s.input| <= |s.input|
    ensures Extends(s, r.s)
    ensures |r.s.calls| > |s.calls| ==>
      var k := |s.calls|;
      |r.s.calls| == k + 1 && r.s.calls[k].Generate? &&
      r.s.layerData == Some(r.s.calls[k].layers) && r.s.calls[k].deflayer < |r.s.calls[k].layers| &&
      (r.Next? <==> !backend.throws(r.s.calls)) && (r.Next? ==> r.s.hasCalc) &&
      (r.Stop? ==> r.outcome == Crash(Hosted) && r.s.hasCalc == s.hasCalc)
    ensures r.Next? ==> |r.s.calls| > |s.calls|
  {
    match ReadObjects(s.input, 4)
    case Ended => Stop(Crash(BadObject), s.(input := []))
    case Mismatch => Stop(Unmodelled, s.(input := []))
    case Got(ps, rest) =>
      if !(ps[0].LayerList? && ps[1].Kind? && ps[2].Text? && ps[3].IntValue?) then
        Stop(Crash(BadObject), s.(input := rest))
      else
        var ls, d := ps[0].layers, ps[3].i;
        var s1 := s.(input := rest, layerData := Some(ls));
        if d < 0 || d >= |ls| then Stop(Crash(IndexOutOfRange), s1)
        else
          var s2 := s1.(calls := s.calls + [Generate(ls, ps[1].ft, ps[2].s, d)]);
          if backend.throws(s2.calls) then Stop(Crash(Hosted), s2)
          else Next(s2.(hasCalc := true))
  }

  /** Tag 0: the layer list, param and count, handed to InitData, which may raise. */
  function InitStep(backend: Backend, s: SessionState): (r: Step)
    ensures r.Next? ==> |r.s.input| <= |s.input|
    ensures Extends(s, r.s)
    ensures !s.hasCalc ==> r.Stop? && r.s.calls == s.calls
    ensures |r.s.calls| > |s.calls| ==>
      var k := |s.calls|;
      |r.s.calls| == k + 1 && r.s.calls[k].InitData? && r.s.layerData == Some(r.s.calls[k].layers) &&
      (r.Next? <==> !backend.throws(r.s.calls)) && (r.Stop? ==> r.outcome == Crash(Hosted))
    ensures r.Next? ==> |r.s.calls| > |s.calls|
  {
    match ReadObjects(s.input, 3)
    case Ended => Stop(Crash(BadObject), s.(input := []))
    case Mismatch => Stop(Unmodelled, s.(input := []))
    case Got(ps, rest) =>
      if !(ps[0].LayerList? && ps[1].DoubleValue? && ps[2].LongValue?) then
        Stop(Crash(BadObject), s.(input := rest))
      else
        var s1 := s.(input := rest, layerData := Some(ps[0].layers));
        if !s.hasCalc then Stop(Crash(NullReference), s1)
        else
          var s2 := s1.(calls := s.calls + [InitData(ps[0].layers, ps[1].r, ps[2].l)]);
          if backend.throws(s2.calls) then Stop(Crash(Hosted), s2) else Next(s2)
  }

  /** Tags 4 and 5: EndGet, which may raise. */
  function EndGetStep(backend: Backend, s: SessionState, final: bool): Step {
    if !s.hasCalc then Stop(Crash(NullReference), s)
    else
      var s1 := s.(calls := s.calls + [EndGet(final)]);
      if backend.throws(s1.calls) then Stop(Crash(Hosted), s1) else Next(s1)
  }

  /** What filling the answer buffer of a batch gives: its bytes, or the exception that
      stopped it, with the number of GetPoint calls made either way. */
  datatype Fill = Filled(bytes: seq<Byte>, gets: nat) | Failed(e: Exception, gets: nat)

  /**
   * The encode loop: while the buffer has room, one GetPoint, which may raise, and its answer
   * written as a result record. Every write is all or nothing; the buffer cannot grow.
   */
  function FillAnswers<T(!new)>(enc: T -> seq<Byte>, answer: seq<CalcCall> -> Option<T>, throws: seq<CalcCall> -> bool,
                                calls: seq<CalcCall>, room: nat): (r: Fill)
    requires forall t :: 8 <= |enc(t)|
    ensures r.Filled? ==> |r.bytes| == room
    ensures r.Failed? ==> 1 <= r.gets && (r.e == Hosted <==> throws(calls + GetPoints(r.gets - 1) + [GetPoint]))
    decreases room
  {
    if room == 0 then Filled([], 0)
    else if throws(calls + [GetPoint]) then assert calls + GetPoints(0) == calls; Failed(Hosted, 1)
    else
      assert calls + GetPoints(0) == calls;
      var a := answer(calls);
      if room < 8 then Failed(NotSupported, 1)
      else if a.None? then Failed(NullReference, 1)
      else
        var b := enc(a.value);
        if room < |b| then Failed(NotSupported, 1)
        else
          var rest := FillAnswers(enc, answer, throws, calls + [GetPoint], room - |b|);
          assert rest.Failed? ==> calls + [GetPoint] + GetPoints(rest.gets - 1) == calls + GetPoints(rest.gets);
          After(b, 1, rest)
  }

  /** The calls of a batch once the AddPoint of its point i is made. */
  function AddedThrough(calls: seq<CalcCall>, ps: seq<QueuedPoint>, i: nat): (r: seq<CalcCall>)
    requires i < |ps|
    ensures calls <= r && |r| == |calls| + i + 1 && r[|r| - 1] == AddPoint(ps[i])
  {
    calls + AddPoints(ps[..i + 1])
  }

  /**
   * The AddPoint calls of a batch from point j on: the index of the first that raises, or None
   * when every one returns.
   */
  function FirstThrowFrom(throws: seq<CalcCall> -> bool, calls: seq<CalcCall>, ps: seq<QueuedPoint>, j: nat): (r: Option<nat>)
    requires j <= |ps|
    ensures r.Some? ==> j <= r.value < |ps| && throws(AddedThrough(calls, ps, r.value))
    ensures forall i :: j <= i < |ps| && (r.None? || i < r.value) ==> !throws(AddedThrough(calls, ps, i))
    decreases |ps| - j
  {
    if j == |ps| then None
    else if throws(AddedThrough(calls, ps, j)) then Some(j)
    else FirstThrowFrom(throws, calls, ps, j + 1)
  }

  /**
   * A batch once its count·40 bytes are read: an AddPoint per whole record, EndSend, then
   * the answers written to a buffer of count·(8 + 112·L) bytes, both sizes computed in
   * 32-bit arithmetic. A hosted call that raises ends the session where it is made.
   */
  function BatchStep(f: Binary64, backend: Backend, s: SessionState, count: int, buf: seq<Byte>): (r: Step)
    ensures Extends(s, r.s) && r.s.input == s.input
  {
    var k := |buf| / PointSize;
    if !s.hasCalc then
      Stop(if k == 0 && |buf| % PointSize != 0 then IoFailure else Crash(NullReference), s)
    else
      var ps := DecodePoints(f, buf[..PointSize * k], k);
      match FirstThrowFrom(backend.throws, s.calls, ps, 0)
      case Some(j) => Stop(Crash(Hosted), s.(calls := AddedThrough(s.calls, ps, j)))
      case None => SendStep(f, backend, s.(calls := s.calls + AddPoints(ps)), count, |buf| % PointSize == 0)
  }

  /**
   * The rest of a batch once every AddPoint returned: a partial record ends the stream,
   * otherwise EndSend, then the answers written back.
   */
  function SendStep(f: Binary64, backend: Backend, s: SessionState, count: int, whole: bool): (r: Step)
    ensures Extends(s, r.s) && r.s.input == s.input
  {
    if !whole then Stop(IoFailure, s)
    else
      var s2 := s.(calls := s.calls + [EndSend]);
      if backend.throws(s2.calls) then Stop(Crash(Hosted), s2)
      else if s.layerData.None? then Stop(Crash(NullReference), s2)
      else
        var size := AnswerSize(count, |s.layerData.value|);
        if size < 0 then Stop(Crash(Overflow), s2)
        else match FillAnswers(ResultEncoder(f), backend.answer, backend.throws, s2.calls, size)
          case Filled(bytes, g) => Next(s2.(calls := s2.calls + GetPoints(g), output := s.output + bytes))
          case Failed(e, g) => Stop(Crash(e), s2.(calls := s2.calls + GetPoints(g)))
  }

  /** A batch that goes through had a calculator, a layer list and whole records, and wrote
      exactly the answer size the client reads. */
  lemma BatchOutput(f: Binary64, backend: Backend, s: SessionState, count: int, buf: seq<Byte>)
    ensures var r := BatchStep(f, backend, s, count, buf);
      r.Next? ==>
        s.hasCalc && s.layerData.Some? && |buf| % PointSize == 0 &&
        |r.s.output| == |s.output| + AnswerSize(count, |s.layerData.value|)
  {
  }

  /** Tag 3: the count, then count·40 bytes of point records. */
  function PointsStep(f: Binary64, backend: Backend, s: SessionState): (r: Step)
    ensures r.Next? ==> |r.s.input| <= |s.input|
    ensures Extends(s, r.s)
  {
    match ReadInt(s.input)
    case Ended => Stop(IoFailure, s.(input := []))
    case Mismatch => Stop(Unmodelled, s.(input := []))
    case Got(count, r1) =>
      var n := Wrap32(count * PointSize);
      if n < 0 then Stop(Crash(Overflow), s.(input := r1))
      else match ReadBytes(r1, n)
        case Ended => Stop(Hang, s.(input := []))
        case Mismatch => Stop(Unmodelled, s.(input := []))
        case Got(buf, r2) => BatchStep(f, backend, s.(input := r2), count, buf)
  }

  /** The action of one tag; unknown tags are skipped. */
  function Action(f: Binary64, backend: Backend, s: SessionState, tag: int): (r: Step)
    ensures r.Next? ==> |r.s.input| <= |s.input|
    ensures Extends(s, r.s)
    ensures tag !in {ConfigureTag, InitTag, PointsTag, 4, 5} ==> r == Next(s)
  {
    if tag == ConfigureTag then ConfigureStep(backend, s)
    else if tag == InitTag then InitStep(backend, s)
    else if tag == PointsTag then PointsStep(f, backend, s)
    else if tag == 4 then EndGetStep(backend, s, false)
    else if tag == 5 then EndGetStep(backend, s, true)
    else Next(s)
  }

  /** The whole session: actions until tag -1, the end of the stream or an exception. */
  function Serve(f: Binary64, backend: Backend, s: SessionState): (r: (Outcome, SessionState))
    ensures Extends(s, r.1)
    decreases |s.input|
  {
    match ReadInt(s.input)
    case Ended => (IoFailure, s.(input := []))
    case Mismatch => (Unmodelled, s.(input := []))
    case Got(tag, rest) =>
      if tag == QuitTag then (Finished, s.(input := rest))
      else match Action(f, backend, s.(input := rest), tag)
        case Next(s1) => Serve(f, backend, s1)
        case Stop(o, s1) => (o, s1)
  }

  /** One client connection as the server's thread sees it. */
  class Session {
    const f: Binary64
    const backend: Backend
    /** The most bytes one Stream.Read delivers. */
    const chunk: Pos
    var input: seq<Unit>
    var output: seq<Byte>
    var calls: seq<CalcCall>
    var layerData: Option<seq<LayerValue>>
    var hasCalc: bool
    var open: bool

    constructor (f: Binary64, backend: Backend, chunk: Pos, input: seq<Unit>)
      ensures this.f == f && this.backend == backend && this.chunk == chunk
      ensures State() == SessionState(input, [], [], None, false) && open
    {
      this.f := f;
      this.backend := backend;
      this.chunk := chunk;
      this.input := input;
      output := [];
      calls := [];
      layerData := None;
      hasCalc := false;
      open := true;
    }

    function State(): SessionState
      reads this
    {
      SessionState(input, output, calls, layerData, hasCalc)
    }

    /**
     * The session loop. Whatever ends it except a read that never completes, the stream is
     * closed; nothing outside this session changes.
     */
    method MainThread() returns (outcome: Outcome)
      modifies this
      ensures (outcome, State()) == Serve(f, backend, old(State()))
      ensures open <==> outcome == Hang
    {
      while true
        invariant Serve(f, backend, State()) == Serve(f, backend, old(State()))
        decreases |input|
      {
        var t := ReadInt(input);
        if t.Ended? {
          input := [];
          outcome := IoFailure;
          break;
        }
        if t.Mismatch? {
          input := [];
          outcome := Unmodelled;
          break;
        }
        input := t.rest;
        if t.v == QuitTag {
          outcome := Finished;
          break;
        }
        var stop := Dispatch(t.v);
        if stop.Some? {
          outcome := stop.value;
          break;
        }
      }
      open := outcome == Hang;
    }

    method Dispatch(tag: int) returns (stop: Option<Outcome>)
      modifies this`input, this`output, this`calls, this`layerData, this`hasCalc
      ensures StepOf(stop, State()) == Action(f, backend, old(State()), tag)
    {
      if tag == ConfigureTag {
        stop := Configure();
      } else if tag == InitTag {
        stop := Init();
      } else if tag == PointsTag {
        stop := Points();
      } else if tag == 4 {
        stop := EndGet(false);
      } else if tag == 5 {
        stop := EndGet(true);
      } else {
        stop := None;
      }
    }

    method Configure() returns (stop: Option<Outcome>)
      modifies this`input, this`calls, this`layerData, this`hasCalc
      ensures StepOf(stop, State()) == ConfigureStep(backend, old(State()))
    {
      var objs := ReadObjects(input, 4);
      if objs.Ended? {
        input := [];
        return Some(Crash(BadObject));
      }
      if objs.Mismatch? {
        input := [];
        return Some(Unmodelled);
      }
      input := objs.rest;
      var ps := objs.v;
      if !(ps[0].LayerList? && ps[1].Kind? && ps[2].Text? && ps[3].IntValue?) {
        return Some(Crash(BadObject));
      }
      layerData := Some(ps[0].layers);
      var d := ps[3].i;
      if d < 0 || d >= |ps[0].layers| {
        return Some(Crash(IndexOutOfRange));
      }
      calls := calls + [Generate(ps[0].layers, ps[1].ft, ps[2].s, d)];
      if backend.throws(calls) {
        return Some(Crash(Hosted));
      }
      hasCalc := true;
      stop := None;
    }

    method Init() returns (stop: Option<Outcome>)
      modifies this`input, this`calls, this`layerData
      ensures StepOf(stop, State()) == InitStep(backend, old(State()))
    {
      var objs := ReadObjects(input, 3);
      if objs.Ended? {
        input := [];
        return Some(Crash(BadObject));
      }
      if objs.Mismatch? {
        input := [];
        return Some(Unmodelled);
      }
      input := objs.rest;
      var ps := objs.v;
      if !(ps[0].LayerList? && ps[1].DoubleValue? && ps[2].LongValue?) {
        return Some(Crash(BadObject));
      }
      layerData := Some(ps[0].layers);
      if !hasCalc {
        return Some(Crash(NullReference));
      }
      calls := calls + [InitData(ps[0].layers, ps[1].r, ps[2].l)];
      if backend.throws(calls) {
        return Some(Crash(Hosted));
      }
      stop := None;
    }

    method EndGet(final: bool) returns (stop: Option<Outcome>)
      modifies this`calls
      ensures StepOf(stop, State()) == EndGetStep(backend, old(State()), final)
    {
      if !hasCalc {
        return Some(Crash(NullReference));
      }
      calls := calls + [CalcCall.EndGet(final)];
      if backend.throws(calls) {
        return Some(Crash(Hosted));
      }
      stop := None;
    }

    method Points() returns (stop: Option<Outcome>)
      modifies this`input, this`output, this`calls
      ensures StepOf(stop, State()) == PointsStep(f, backend, old(State()))
    {
      var t := ReadInt(input);
      if t.Ended? {
        input := [];
        return Some(IoFailure);
      }
      if t.Mismatch? {
        input := [];
        return Some(Unmodelled);
      }
      input := t.rest;
      var count := t.v;
      var n := Wrap32(count * PointSize);
      if n < 0 {
        return Some(Crash(Overflow));
      }
      var got := ReadBlock(n);
      if got.Ended? {
        return Some(Hang);
      }
      if got.Mismatch? {
        return Some(Unmodelled);
      }
      stop := Batch(count, got.v);
    }

    method Batch(count: int, buf: seq<Byte>) returns (stop: Option<Outcome>)
      modifies this`output, this`calls
      ensures StepOf(stop, State()) == BatchStep(f, backend, old(State()), count, buf)
    {
      stop := AddRecords(buf);
      if stop.Some? {
        return;
      }
      if !hasCalc {
        return Some(Crash(NullReference));
      }
      calls := calls + [EndSend];
      if backend.throws(calls) {
        return Some(Crash(Hosted));
      }
      if layerData.None? {
        return Some(Crash(NullReference));
      }
      var size := AnswerSize(count, |layerData.value|);
      if size < 0 {
        return Some(Crash(Overflow));
      }
      var fill := WriteAnswers(size);
      if fill.Failed? {
        return Some(Crash(fill.e));
      }
      output := output + fill.bytes;
      stop := None;
    }

    /** The read loop: Stream.Read until n bytes are in; a read that delivers nothing would
        repeat forever. */
    method ReadBlock(n: nat) returns (r: Read<seq<Byte>>)
      modifies this`input
      ensures r == ReadBytes(old(input), n)
      ensures input == if r.Got? then r.rest else []
    {
      var rest := input;
      var buf: seq<Byte> := [];
      while |buf| != n
        invariant input == old(input)
        invariant |buf| <= n && |buf| <= |input| && rest == input[|buf|..]
        invariant forall i :: 0 <= i < |buf| ==> input[i] == B(buf[i])
        decreases n - |buf|
      {
        var k := Min(Min(n - |buf|, chunk), |rest|);
        if k == 0 {
          input := [];
          return Ended;
        }
        if !AllBytes(rest[..k]) {
          input := [];
          return Mismatch;
        }
        buf := buf + Bytes(rest[..k]);
        rest := rest[k..];
      }
      assert Bytes(input[..n]) == buf;
      input := rest;
      r := Got(buf, rest);
    }

    /**
     * The decode loop with its AddPoint calls. Decoding a record changes nothing, so the
     * records are decoded first and then handed over in order until an AddPoint raises; a
     * partial last record counts only when every AddPoint returned.
     */
    method AddRecords(buf: seq<Byte>) returns (stop: Option<Outcome>)
      modifies this`calls
      ensures !hasCalc ==> calls == old(calls)
      ensures !hasCalc ==> stop == if |buf| >= PointSize then Some(Crash(NullReference))
        else if |buf| % PointSize != 0 then Some(IoFailure) else None
      ensures hasCalc ==> var k := |buf| / PointSize; var ps := DecodePoints(f, buf[..PointSize * k], k);
        var t := FirstThrowFrom(backend.throws, old(calls), ps, 0);
        (t.Some? ==> calls == AddedThrough(old(calls), ps, t.value) && stop == Some(Crash(Hosted))) &&
        (t.None? ==> calls == old(calls) + AddPoints(ps) &&
                     stop == if |buf| % PointSize != 0 then Some(IoFailure) else None)
    {
      var added;
      added, stop := DecodeRecords(f, buf, hasCalc);
      if hasCalc {
        var raised;
        calls, raised := AddAll(backend.throws, calls, added);
        if raised {
          stop := Some(Crash(Hosted));
        }
      }
    }

    /** The encode loop over an answer buffer of size bytes. */
    method WriteAnswers(size: nat) returns (r: Fill)
      modifies this`calls
      ensures r == FillAnswers(ResultEncoder(f), backend.answer, backend.throws, old(calls), size)
      ensures calls == old(calls) + GetPoints(r.gets)
    {
      r := FillLoop(ResultEncoder(f), backend.answer, backend.throws, calls, size);
      calls := calls + GetPoints(r.gets);
    }
  }

  /** AddPoint on each decoded point in order, until one raises. */
  method AddAll(throws: seq<CalcCall> -> bool, calls0: seq<CalcCall>, ps: seq<QueuedPoint>) returns (calls: seq<CalcCall>, raised: bool)
    ensures var t := FirstThrowFrom(throws, calls0, ps, 0);
      raised == t.Some? && calls == if t.Some? then AddedThrough(calls0, ps, t.value) else calls0 + AddPoints(ps)
  {
    calls, raised := calls0, false;
    var i := 0;
    assert ps[..0] == [];
    while i < |ps|
      invariant 0 <= i <= |ps|
      invariant calls == calls0 + AddPoints(ps[..i])
      invariant FirstThrowFrom(throws, calls0, ps, 0) == FirstThrowFrom(throws, calls0, ps, i)
    {
      assert ps[..i + 1][..i] == ps[..i];
      calls := calls + [AddPoint(ps[i])];
      assert calls == AddedThrough(calls0, ps, i);
      if throws(calls) {
        return calls, true;
      }
      i := i + 1;
    }
    assert ps[..i] == ps;
  }

  /**
   * The encode loop: a GetPoint on the hosted calculator, then its answer written into the
   * answer buffer, until the buffer is full.
   */
  method FillLoop<T(!new)>(enc: T -> seq<Byte>, answer: seq<CalcCall> -> Option<T>, throws: seq<CalcCall> -> bool, calls0: seq<CalcCall>, size: nat) returns (r: Fill)
    requires forall t :: 8 <= |enc(t)|
    ensures r == FillAnswers(enc, answer, throws, calls0, size)
  {
    var out: seq<Byte> := [];
    var gets := 0;
    assert calls0 + GetPoints(0) == calls0;
    var whole := FillAnswers(enc, answer, throws, calls0, size);
    assert whole.Filled? ==> [] + whole.bytes == whole.bytes;
    while |out| != size
      invariant FillInv(enc, answer, throws, calls0, size, out, gets)
      decreases size - |out|
    {
      var stop, next := FillStep(enc, answer, throws, calls0, size, out, gets);
      if stop.Some? {
        return stop.value;
      }
      out, gets := next, gets + 1;
    }
    r := Filled(out, gets);
  }

  /** The invariant of FillLoop: out and gets are what the fill made so far. */
  predicate FillInv<T(!new)>(enc: T -> seq<Byte>, answer: seq<CalcCall> -> Option<T>, throws: seq<CalcCall> -> bool, calls0: seq<CalcCall>, size: nat, out: seq<Byte>, gets: nat)
    requires forall t :: 8 <= |enc(t)|
  {
    |out| <= size &&
    FillAnswers(enc, answer, throws, calls0, size) == After(out, gets, FillAnswers(enc, answer, throws, calls0 + GetPoints(gets), size - |out|))
  }

  /** One pass of the encode loop: a GetPoint, then either the whole fill fails or a record is written. */
  method FillStep<T(!new)>(enc: T -> seq<Byte>, answer: seq<CalcCall> -> Option<T>, throws: seq<CalcCall> -> bool, calls0: seq<CalcCall>, size: nat, out: seq<Byte>, gets: nat)
    returns (stop: Option<Fill>, next: seq<Byte>)
    requires forall t :: 8 <= |enc(t)|
    requires FillInv(enc, answer, throws, calls0, size, out, gets) && |out| < size
    ensures stop.Some? ==> stop.value == FillAnswers(enc, answer, throws, calls0, size)
    ensures stop.None? ==> |out| < |next| && FillInv(enc, answer, throws, calls0, size, next, gets + 1)
  {
    next := out;
    if throws(calls0 + GetPoints(gets) + [GetPoint]) {
      FillStops(enc, answer, throws, calls0, size, out, gets);
      return Some(Failed(Hosted, gets + 1)), next;
    }
    var a := answer(calls0 + GetPoints(gets));
    if size - |out| < 8 {
      FillStops(enc, answer, throws, calls0, size, out, gets);
      return Some(Failed(NotSupported, gets + 1)), next;
    }
    if a.None? {
      FillStops(enc, answer, throws, calls0, size, out, gets);
      return Some(Failed(NullReference, gets + 1)), next;
    }
    var b := enc(a.value);
    if size - |out| < |b| {
      FillStops(enc, answer, throws, calls0, size, out, gets);
      return Some(Failed(NotSupported, gets + 1)), next;
    }
    FillAdvance(enc, answer, throws, calls0, size, out, gets);
    next := out + b;
    stop := None;
  }

  /**
   * The decode loop: a point record per 40 bytes until the position reaches the end; a
   * record cut short ends the stream inside a read, and without a calculator the first
   * whole record's AddPoint raises NullReference.
   */
  method DecodeRecords(f: Binary64, buf: seq<Byte>, hasCalc: bool) returns (added: seq<QueuedPoint>, stop: Option<Outcome>)
    ensures !hasCalc ==> stop == if |buf| >= PointSize then Some(Crash(NullReference))
      else if |buf| % PointSize != 0 then Some(IoFailure) else None
    ensures hasCalc ==> stop == if |buf| % PointSize != 0 then Some(IoFailure) else None
    ensures hasCalc ==> var k := |buf| / PointSize; added == DecodePoints(f, buf[..PointSize * k], k)
  {
    var pos, j := 0, 0;
    added := [];
    while pos != |buf|
      invariant pos == PointSize * j <= |buf|
      invariant added == DecodePoints(f, buf[..pos], j)
      invariant !hasCalc ==> j == 0
    {
      if |buf| - pos < PointSize {
        stop := Some(IoFailure);
        break;
      }
      var p := DecodePoint(f, buf[pos..pos + PointSize]);
      if !hasCalc {
        stop := Some(Crash(NullReference));
        break;
      }
      DecodeNext(f, buf, j);
      added := added + [p];
      pos, j := pos + PointSize, j + 1;
    }
    if pos == |buf| {
      stop := None;
    }
    if hasCalc {
      WholeRecords(|buf|, j);
      assert PointSize * (|buf| / PointSize) == pos;
    }
  }

  /** A fill that follows bytes already written and calls already made. */
  function After(out: seq<Byte>, gets: nat, r: Fill): Fill {
    match r
    case Filled(bs, g) => Filled(out + bs, gets + g)
    case Failed(e, g) => Failed(e, gets + g)
  }

  /** The loop invariant of FillLoop survives one whole record. */
  lemma FillAdvance<T(!new)>(enc: T -> seq<Byte>, answer: seq<CalcCall> -> Option<T>, throws: seq<CalcCall> -> bool, calls0: seq<CalcCall>, size: nat, out: seq<Byte>, gets: nat)
    requires forall t :: 8 <= |enc(t)|
    requires |out| <= size
    requires FillAnswers(enc, answer, throws, calls0, size) == After(out, gets, FillAnswers(enc, answer, throws, calls0 + GetPoints(gets), size - |out|))
    requires !throws(calls0 + GetPoints(gets) + [GetPoint])
    requires 8 <= size - |out| && answer(calls0 + GetPoints(gets)).Some?
    requires |enc(answer(calls0 + GetPoints(gets)).value)| <= size - |out|
    ensures var b := enc(answer(calls0 + GetPoints(gets)).value);
      FillAnswers(enc, answer, throws, calls0, size) == After(out + b, gets + 1, FillAnswers(enc, answer, throws, calls0 + GetPoints(gets + 1), size - |out + b|))
  {
    var calls := calls0 + GetPoints(gets);
    var b := enc(answer(calls).value);
    assert calls0 + GetPoints(gets + 1) == calls + [GetPoint];
    AfterAfter(out, b, gets, FillAnswers(enc, answer, throws, calls + [GetPoint], size - |out| - |b|));
  }

  /** Where FillLoop stops with an exception: the whole loop fails there, after gets + 1 calls. */
  lemma FillStops<T(!new)>(enc: T -> seq<Byte>, answer: seq<CalcCall> -> Option<T>, throws: seq<CalcCall> -> bool, calls0: seq<CalcCall>, size: nat, out: seq<Byte>, gets: nat)
    requires forall t :: 8 <= |enc(t)|
    requires |out| < size
    requires FillAnswers(enc, answer, throws, calls0, size) == After(out, gets, FillAnswers(enc, answer, throws, calls0 + GetPoints(gets), size - |out|))
    ensures throws(calls0 + GetPoints(gets) + [GetPoint]) ==> FillAnswers(enc, answer, throws, calls0, size) == Failed(Hosted, gets + 1)
    ensures !throws(calls0 + GetPoints(gets) + [GetPoint]) ==> var a := answer(calls0 + GetPoints(gets));
      (size - |out| < 8 ==> FillAnswers(enc, answer, throws, calls0, size) == Failed(NotSupported, gets + 1)) &&
      (8 <= size - |out| && a.None? ==> FillAnswers(enc, answer, throws, calls0, size) == Failed(NullReference, gets + 1)) &&
      (8 <= size - |out| && a.Some? && size - |out| < |enc(a.value)| ==>
        FillAnswers(enc, answer, throws, calls0, size) == Failed(NotSupported, gets + 1))
  {
  }

  lemma AfterAfter(out: seq<Byte>, b: seq<Byte>, gets: nat, r: Fill)
    ensures After(out, gets, After(b, 1, r)) == After(out + b, gets + 1, r)
  {
    if r.Filled? {
      assert out + (b + r.bytes) == out + b + r.bytes;
    }
  }

  /** The decode loop's step: the records of the first j + 1 points extend those of the first j. */
  lemma DecodeNext(f: Binary64, buf: seq<Byte>, j: nat)
    requires PointSize * (j + 1) <= |buf|
    ensures DecodePoints(f, buf[..PointSize * (j + 1)], j + 1)
      == DecodePoints(f, buf[..PointSize * j], j) + [DecodePoint(f, buf[PointSize * j..PointSize * (j + 1)])]
  {
    var b := buf[..PointSize * (j + 1)];
    assert b[..PointSize * j] == buf[..PointSize * j];
    assert b[PointSize * j..] == buf[PointSize * j..PointSize * (j + 1)];
  }


  /** A length in [40·j, 40·j + 40) holds j whole point records. */
  lemma WholeRecords(a: nat, j: nat)
    requires PointSize * j <= a < PointSize * j + PointSize
    ensures a / PointSize == j && (a % PointSize == 0 <==> a == PointSize * j)
  {
  }
}
