/**
 * What every engine shares: the ICalculator call shape (RestFract/Generators/ICalculator.cs),
 * the points that are queued between AddPoint and GetPoint, and the calls a driver makes on
 * an engine, recorded as a trace.
 */
module Calculators {
  import opened ComplexMath
  import opened Flags
  import opened Layers

  /** A submitted point: pixel coordinates, start value and constant. */
  datatype QueuedPoint = QueuedPoint(px: int, py: int, x: Complex, c: Complex)

  /**
   * One call on an engine: GenFractalCalc on its factory (with the values of the layer list
   * and the position of the default layer in it), then the five ICalculator methods.
   */
  datatype CalcCall =
    | Generate(layers: seq<LayerValue>, ft: FractalType, code: string, deflayer: nat)
    | InitData(layers: seq<LayerValue>, param: real, count: int)
    | AddPoint(p: QueuedPoint)
    | EndSend
    | GetPoint
    | EndGet(final: bool)

  /** The AddPoint calls of a batch of points, in order. */
  function AddPoints(ps: seq<QueuedPoint>): (r: seq<CalcCall>)
    ensures |r| == |ps| && forall i :: 0 <= i < |ps| ==> r[i] == AddPoint(ps[i])
  {
    if ps == [] then [] else AddPoints(ps[..|ps| - 1]) + [AddPoint(ps[|ps| - 1])]
  }

  /** n GetPoint calls. */
  function GetPoints(n: nat): (r: seq<CalcCall>)
    ensures |r| == n && forall i :: 0 <= i < n ==> r[i] == GetPoint
  {
    if n == 0 then [] else GetPoints(n - 1) + [GetPoint]
  }
}
