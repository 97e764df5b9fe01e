/**
 * What travels on a connection of the distributed engine
 * (RestFract.Generators.Distributed/DistributedCalculatorFactory.cs and
 * DistributedCalculatorServer.cs): int tags written by BinaryWriter, objects written by
 * BinaryFormatter, and the raw bytes of the fixed-layout records, with the frames the client
 * sends for each of its calls.
 */
module Frames {
  import opened Binary
  import opened Flags
  import opened Layers
  import opened Wire

  /** What BinaryFormatter writes on a connection; the bytes it uses are not modelled. */
  datatype Payload =
    | LayerList(layers: seq<LayerValue>)
    | Kind(ft: FractalType)
    | Text(s: string)
    | IntValue(i: int)
    | DoubleValue(r: real)
    | LongValue(l: int)

  /** One element of a TCP stream: a byte, or a whole object written by BinaryFormatter. */
  datatype Unit = B(b: Byte) | Obj(p: Payload)

  function Raw(bs: seq<Byte>): (r: seq<Unit>)
    ensures |r| == |bs| && forall i :: 0 <= i < |bs| ==> r[i] == B(bs[i])
  {
    if bs == [] then [] else Raw(bs[..|bs| - 1]) + [B(bs[|bs| - 1])]
  }

  /** The smaller of a and b. */
  function Min(a: int, b: int): int {
    if a <= b then a else b
  }

  /** A positive number of bytes. */
  type Pos = n: int | n > 0 witness 1

  /** An action tag: an int written by BinaryWriter. */
  function Tag(t: int): (r: seq<Unit>)
    ensures |r| == 4
  {
    Raw(EncodeInt32(t))
  }

  const InitTag := 0
  const ConfigureTag := 1
  const PointsTag := 3
  const QuitTag := -1

  /** The tag EndGet sends: 4 for the last batch of a drawing, 5 otherwise. */
  function EndGetTag(final: bool): int {
    if final then 4 else 5
  }

  /** What InitData sends every peer. */
  function InitFrames(layers: seq<LayerValue>, param: real, count: int): (r: seq<Unit>)
    ensures |r| == 7 && r[..4] == Tag(InitTag)
    ensures r[4..] == [Obj(LayerList(layers)), Obj(DoubleValue(param)), Obj(LongValue(count))]
  {
    Tag(InitTag) + [Obj(LayerList(layers)), Obj(DoubleValue(param)), Obj(LongValue(count))]
  }

  /** The positions serialised after the formula: each index whose layer is the default layer. */
  function IntObjects(idx: seq<nat>): (r: seq<Unit>)
    ensures |r| == |idx| && forall i :: 0 <= i < |idx| ==> r[i] == Obj(IntValue(idx[i]))
  {
    if idx == [] then [] else IntObjects(idx[..|idx| - 1]) + [Obj(IntValue(idx[|idx| - 1]))]
  }

  /** What GenFractalCalc sends every peer. */
  function ConfigureFrames(layers: seq<LayerValue>, ft: FractalType, code: string, idx: seq<nat>): (r: seq<Unit>)
    ensures |r| == 7 + |idx| && r[..4] == Tag(ConfigureTag)
    ensures r[4..7] == [Obj(LayerList(layers)), Obj(Kind(ft)), Obj(Text(code))] && r[7..] == IntObjects(idx)
  {
    Tag(ConfigureTag) + [Obj(LayerList(layers)), Obj(Kind(ft)), Obj(Text(code))] + IntObjects(idx)
  }

  /** What EndSend sends one peer: tag 3, the number of points, then their records. */
  function BatchFrames(count: int, records: seq<Byte>): (r: seq<Unit>)
    ensures |r| == 8 + |records| && r[..4] == Tag(PointsTag)
    ensures r[4..8] == Raw(EncodeInt32(count)) && r[8..] == Raw(records)
  {
    Tag(PointsTag) + Raw(EncodeInt32(count)) + Raw(records)
  }

  /** The number of answer bytes EndSend waits for, computed in 32-bit arithmetic. */
  function AnswerSize(count: int, L: nat): (r: int)
    ensures InInt32(r)
    ensures InInt32(count * ResultSize(L)) ==> r == count * ResultSize(L)
    ensures 0 <= count && TwoTo31 <= count * ResultSize(L) < TwoTo32 ==> r < 0
  {
    Wrap32(count * ResultSize(L))
  }
}
