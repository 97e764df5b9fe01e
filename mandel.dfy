/**
 * RestFract/Mandel.cs: the drawing driver. It keeps the view (centre, radius, the Mandelbrot
 * view saved while a Julia set is shown), the list of processing layers, and the calculator
 * it regenerates through its factory when something changed. Draw submits every pixel to the
 * calculator, row by row or all at once, loads each answer into the processing layers and
 * hands the pixel to PutPoint, which the colouring subclass implements.
 *
 * The calls Draw makes on the output, on the factory and on the calculator, and the PutPoint
 * hook, are recorded in order as a trace. What the calculator answers is a parameter.
 */
module Drawing {
  import opened ComplexMath
  import opened Flags
  import opened Layers
  import opened Calculators
  import opened Wrappers
  import Binary

  /** MandelType: how the start value and the constant of a pixel are chosen. */
  datatype MandelType = MANDEL | JULIA | INVJULIA

  /** One GetPoint answer: the pixel and the values of the processing layers for it. */
  datatype Answer = Answer(px: int, py: int, layers: seq<LayerValue>)

  /**
   * A call Draw makes: on the calculator or its factory (Calc), on the output (InitDraw,
   * NextLine, EndDraw), or the PutPoint hook with the layer values loaded for the pixel.
   */
  datatype DrawCall =
    | Calc(call: CalcCall)
    | InitDraw
    | Paint(flags: int, px: int, py: int, layers: seq<LayerValue>)
    | NextLine(flags: int, y: int)
    | EndDraw

  /**
   * How Draw ends: it draws, or it leaves after InitDraw on a null reference, or it leaves
   * after InitDraw because the factory threw while generating the calculator.
   */
  datatype DrawOutcome = Drawn | NullReference | GenFailed

  /** The fields the Type setter works on. */
  datatype View = View(cent: Complex, radius: real, saveCent: Complex, saveRadius: real, mtype: MandelType, julia: Complex)

  /**
   * The Type setter. Leaving MANDEL saves the view, takes its centre as the Julia constant
   * and shows the whole plane (centre 0, radius 2); coming back to MANDEL restores the saved
   * view.
   */
  function Retype(v: View, t: MandelType): (r: View)
    ensures r.mtype == t
    ensures v.mtype == MANDEL && t != MANDEL ==>
      r == View(Zero, 2.0, v.cent, v.radius, t, v.cent)
    ensures v.mtype != MANDEL && t == MANDEL ==>
      r == v.(cent := v.saveCent, radius := v.saveRadius, mtype := t)
    ensures (v.mtype == MANDEL) == (t == MANDEL) ==> r == v.(mtype := t)
  {
    var a := if v.mtype == MANDEL && t != MANDEL
      then v.(saveCent := v.cent, saveRadius := v.radius, julia := v.cent, cent := Zero, radius := 2.0)
      else v;
    var b := if v.mtype != MANDEL && t == MANDEL then a.(cent := a.saveCent, radius := a.saveRadius) else a;
    b.(mtype := t)
  }

  /** MANDEL to a Julia type and back leaves the Mandelbrot view as it was. */
  lemma JuliaAndBack(v: View, t: MandelType)
    requires v.mtype == MANDEL && t != MANDEL
    ensures var r := Retype(Retype(v, t), MANDEL);
      r.cent == v.cent && r.radius == v.radius && r.mtype == MANDEL && r.julia == v.cent
  {
  }

  /** C#'s n / 2 on an int, which truncates toward zero. */
  function Half(n: int): (h: int)
    ensures n >= 0 ==> 0 <= h && h + h <= n < h + h + 2
    ensures n < 0 ==> h <= 0 && h + h >= n > h + h - 2
  {
    if n >= 0 then n / 2 else -((-n) / 2)
  }

  /** A count that runs no loop when negative. */
  function Nat(n: int): nat {
    if n < 0 then 0 else n
  }

  /** The geometry of one Draw call. */
  datatype Frame = Frame(cent: Complex, radius: real, width: int, height: int, mtype: MandelType, julia: Complex)

  /**
   * The distance between neighbouring pixels, radius / (width / 2). The infinity IEEE
   * arithmetic gives for a width below 2 is not modelled (0 instead).
   */
  function Spacing(f: Frame): real {
    var d := Half(f.width);
    if d == 0 then 0.0 else f.radius / d as real
  }

  /** c_begin: the plane position of pixel (0, 0). */
  function Corner(f: Frame): Complex {
    Complex(f.cent.re - f.radius, f.cent.im - Spacing(f) * Half(f.height) as real)
  }

  /**
   * The point submitted for pixel (x, y): (pos, pos) for MANDEL, (julia, pos) for INVJULIA
   * and (pos, julia) for JULIA, where pos is the pixel's position in the plane.
   */
  function PointAt(f: Frame, x: int, y: int): QueuedPoint {
    var pos := Complex(Corner(f).re + x as real * Spacing(f), Corner(f).im + y as real * Spacing(f));
    match f.mtype
    case MANDEL => QueuedPoint(x, y, pos, pos)
    case INVJULIA => QueuedPoint(x, y, f.julia, pos)
    case JULIA => QueuedPoint(x, y, pos, f.julia)
  }

  /** The AddPoint calls for pixels 0 .. n-1 of row y. */
  function Sends(f: Frame, y: int, n: nat): seq<DrawCall> {
    if n == 0 then [] else Sends(f, y, n - 1) + [Calc(AddPoint(PointAt(f, n - 1, y)))]
  }

  /** For each answer, the GetPoint call and the PutPoint hook with the loaded layers. */
  function Gets(row: seq<Answer>): seq<DrawCall> {
    if row == [] then []
    else Gets(row[..|row| - 1]) + [Calc(GetPoint), Paint(1, row[|row| - 1].px, row[|row| - 1].py, row[|row| - 1].layers)]
  }

  /**
   * The point of pixel (x, y) is (pos, pos) for MANDEL, (julia, pos) for INVJULIA and
   * (pos, julia) for JULIA, where pos is x and y spacings away from the corner.
   */
  lemma PointAtMapping(f: Frame, x: int, y: int)
    ensures var q := PointAt(f, x, y);
      var pos := Complex(Corner(f).re + x as real * Spacing(f), Corner(f).im + y as real * Spacing(f));
      q.px == x && q.py == y &&
      (f.mtype == MANDEL ==> q.x == pos && q.c == pos) &&
      (f.mtype == INVJULIA ==> q.x == f.julia && q.c == pos) &&
      (f.mtype == JULIA ==> q.x == pos && q.c == f.julia)
  {
  }

  /** Row y submits pixels 0 .. n-1 in order, each once. */
  lemma {:induction false} SendsInOrder(f: Frame, y: int, n: nat)
    ensures var r := Sends(f, y, n);
      |r| == n && forall x :: 0 <= x < n ==> r[x] == Calc(AddPoint(PointAt(f, x, y)))
  {
    if n > 0 {
      SendsInOrder(f, y, n - 1);
    }
  }

  /** Each answer is fetched, then painted with the values it carries, in order. */
  lemma {:induction false} GetsInOrder(row: seq<Answer>)
    ensures var r := Gets(row);
      |r| == 2 * |row| &&
      forall i :: 0 <= i < |row| ==>
        r[2 * i] == Calc(GetPoint) && r[2 * i + 1] == Paint(1, row[i].px, row[i].py, row[i].layers)
  {
    if row != [] {
      GetsInOrder(row[..|row| - 1]);
    }
  }

  /**
   * One row in line mode: its AddPoints, EndSend, its GetPoints, then EndGet, final only on
   * the last row, and NextLine(1, y + 1).
   */
  function LineRow(f: Frame, row: seq<Answer>, y: int): seq<DrawCall> {
    Sends(f, y, Nat(f.width)) + [Calc(EndSend)] + Gets(row) + [Calc(EndGet(y == f.height - 1)), NextLine(1, y + 1)]
  }

  /** Rows 0 .. k-1 in line mode. */
  function LineRows(f: Frame, rows: seq<seq<Answer>>, k: nat): seq<DrawCall>
    requires k <= |rows|
  {
    if k == 0 then [] else LineRows(f, rows, k - 1) + LineRow(f, rows[k - 1], k - 1)
  }

  /** The AddPoints of rows 0 .. k-1. */
  function SendRows(f: Frame, k: nat): seq<DrawCall> {
    if k == 0 then [] else SendRows(f, k - 1) + Sends(f, k - 1, Nat(f.width))
  }

  /** The GetPoints of rows 0 .. k-1 in global mode, each row closed by NextLine(0, y + 1). */
  function ReceiveRows(rows: seq<seq<Answer>>, k: nat): seq<DrawCall>
    requires k <= |rows|
  {
    if k == 0 then [] else ReceiveRows(rows, k - 1) + Gets(rows[k - 1]) + [NextLine(0, k)]
  }

  /** Global mode: every AddPoint, one EndSend, every GetPoint, one final EndGet. */
  function GlobalRows(f: Frame, rows: seq<seq<Answer>>): seq<DrawCall> {
    SendRows(f, |rows|) + [Calc(EndSend)] + ReceiveRows(rows, |rows|) + [Calc(EndGet(true))]
  }

  /** The layer values after the answers of rows 0 .. k-1 are loaded: the last answer's, if any. */
  function Loaded(rows: seq<seq<Answer>>, k: nat, v0: seq<LayerValue>): seq<LayerValue>
    requires k <= |rows|
  {
    if k == 0 then v0
    else if rows[k - 1] == [] then Loaded(rows, k - 1, v0)
    else rows[k - 1][|rows[k - 1]| - 1].layers
  }

  /** One answer per pixel, each carrying a value for every processing layer. */
  predicate Fits(rows: seq<seq<Answer>>, width: nat, count: nat) {
    forall y :: 0 <= y < |rows| ==>
      |rows[y]| == width && forall x :: 0 <= x < |rows[y]| ==> |rows[y][x].layers| == count
  }

  /** The position of the first layer value whose c_default is set. */
  function FirstDefault(vals: seq<LayerValue>): Option<nat> {
    if vals == [] then None
    else if vals[0].isDefault then Some(0)
    else
      var r := FirstDefault(vals[1..]);
      if r.None? then None else Some(r.value + 1)
  }

  /** FirstDefault finds the first default layer, and finds none only when there is none. */
  lemma {:induction false} FirstDefaultIsFirst(vals: seq<LayerValue>)
    ensures var r := FirstDefault(vals);
      (r.Some? ==>
        r.value < |vals| && vals[r.value].isDefault && forall j :: 0 <= j < r.value ==> !vals[j].isDefault) &&
      (r.None? <==> forall j :: 0 <= j < |vals| ==> !vals[j].isDefault)
  {
    if vals != [] && !vals[0].isDefault {
      var tail := vals[1..];
      FirstDefaultIsFirst(tail);
      assert forall j :: 1 <= j < |vals| ==> vals[j] == tail[j - 1];
    }
  }

  /** The calls the counting lemmas count. */
  datatype Kind = FinalEndGet | Submit | Fetch

  predicate Is(c: DrawCall, k: Kind) {
    match k
    case FinalEndGet => c == Calc(EndGet(true))
    case Submit => c.Calc? && c.call.AddPoint?
    case Fetch => c == Calc(GetPoint)
  }

  /** The number of calls of kind k in a trace. */
  function Count(t: seq<DrawCall>, k: Kind): nat {
    if t == [] then 0
    else Count(t[..|t| - 1], k) + (if Is(t[|t| - 1], k) then 1 else 0)
  }

  lemma {:induction false} CountAppend(a: seq<DrawCall>, b: seq<DrawCall>, k: Kind)
    ensures Count(a + b, k) == Count(a, k) + Count(b, k)
    decreases |b|
  {
    if b != [] {
      var ab := a + b;
      assert ab[..|ab| - 1] == a + b[..|b| - 1];
      assert ab[|ab| - 1] == b[|b| - 1];
      CountAppend(a, b[..|b| - 1], k);
    } else {
      assert a + b == a;
    }
  }

  lemma CountOne(c: DrawCall, k: Kind)
    ensures Count([c], k) == if Is(c, k) then 1 else 0
  {
    assert [c][..0] == [];
  }

  lemma {:induction false} SendsCount(f: Frame, y: int, n: nat, k: Kind)
    ensures Count(Sends(f, y, n), k) == if k == Submit then n else 0
  {
    if n > 0 {
      var c := Calc(AddPoint(PointAt(f, n - 1, y)));
      CountAppend(Sends(f, y, n - 1), [c], k);
      SendsCount(f, y, n - 1, k);
      CountOne(c, k);
    }
  }

  lemma {:induction false} GetsCount(row: seq<Answer>, k: Kind)
    ensures Count(Gets(row), k) == if k == Fetch then |row| else 0
  {
    if row != [] {
      var last := row[|row| - 1];
      var p := Paint(1, last.px, last.py, last.layers);
      GetsCount(row[..|row| - 1], k);
      CountAppend(Gets(row[..|row| - 1]), [Calc(GetPoint), p], k);
      CountAppend([Calc(GetPoint)], [p], k);
      CountOne(Calc(GetPoint), k);
      CountOne(p, k);
    }
  }

  /** A row in line mode submits and fetches each of its pixels once. */
  lemma LineRowCount(f: Frame, row: seq<Answer>, y: int, k: Kind)
    ensures Count(LineRow(f, row, y), k) ==
      match k
      case FinalEndGet => if y == f.height - 1 then 1 else 0
      case Submit => Nat(f.width)
      case Fetch => |row|
  {
    var s := Sends(f, y, Nat(f.width));
    var e := Calc(EndGet(y == f.height - 1));
    SendsCount(f, y, Nat(f.width), k);
    GetsCount(row, k);
    CountOne(Calc(EndSend), k);
    CountOne(e, k);
    CountOne(NextLine(1, y + 1), k);
    CountAppend(s, [Calc(EndSend)], k);
    CountAppend(s + [Calc(EndSend)], Gets(row), k);
    CountAppend(s + [Calc(EndSend)] + Gets(row), [e, NextLine(1, y + 1)], k);
    CountAppend([e], [NextLine(1, y + 1)], k);
  }

  /** w added up j times. */
  function Area(j: nat, w: nat): nat {
    if j == 0 then 0 else Area(j - 1, w) + w
  }

  lemma {:induction false} AreaIsProduct(j: nat, w: nat)
    ensures Area(j, w) == j * w
  {
    if j > 0 {
      AreaIsProduct(j - 1, w);
      assert (j - 1) * w + w == j * w;
    }
  }

  /**
   * Line mode over the first j rows: a row's worth of AddPoints and of GetPoints per row,
   * and a final EndGet only once the last row is reached, then exactly one.
   */
  lemma {:induction false} LineRowsCount(f: Frame, rows: seq<seq<Answer>>, j: nat, k: Kind)
    requires j <= |rows| == Nat(f.height) && forall y :: 0 <= y < |rows| ==> |rows[y]| == Nat(f.width)
    ensures Count(LineRows(f, rows, j), k) ==
      if k == FinalEndGet then (if j == |rows| && j > 0 then 1 else 0) else Area(j, Nat(f.width))
  {
    if j > 0 {
      LineRowsCount(f, rows, j - 1, k);
      LineRowCount(f, rows[j - 1], j - 1, k);
      CountAppend(LineRows(f, rows, j - 1), LineRow(f, rows[j - 1], j - 1), k);
    }
  }

  /**
   * Line mode: width * height AddPoints and as many GetPoints, and exactly one final
   * EndGet, in the last row's calls.
   */
  lemma LineModeCount(f: Frame, rows: seq<seq<Answer>>)
    requires |rows| == Nat(f.height) && forall y :: 0 <= y < |rows| ==> |rows[y]| == Nat(f.width)
    ensures var t := LineRows(f, rows, |rows|);
      Count(t, FinalEndGet) == (if |rows| > 0 then 1 else 0) &&
      Count(t, Submit) == Count(t, Fetch) == Nat(f.height) * Nat(f.width)
  {
    LineRowsCount(f, rows, |rows|, FinalEndGet);
    LineRowsCount(f, rows, |rows|, Submit);
    LineRowsCount(f, rows, |rows|, Fetch);
    AreaIsProduct(|rows|, Nat(f.width));
  }

  lemma {:induction false} SendRowsCount(f: Frame, j: nat, k: Kind)
    ensures Count(SendRows(f, j), k) == if k == Submit then Area(j, Nat(f.width)) else 0
  {
    if j > 0 {
      SendRowsCount(f, j - 1, k);
      SendsCount(f, j - 1, Nat(f.width), k);
      CountAppend(SendRows(f, j - 1), Sends(f, j - 1, Nat(f.width)), k);
    }
  }

  lemma {:induction false} ReceiveRowsCount(rows: seq<seq<Answer>>, j: nat, width: nat, k: Kind)
    requires j <= |rows| && forall y :: 0 <= y < |rows| ==> |rows[y]| == width
    ensures Count(ReceiveRows(rows, j), k) == if k == Fetch then Area(j, width) else 0
  {
    if j > 0 {
      ReceiveRowsCount(rows, j - 1, width, k);
      GetsCount(rows[j - 1], k);
      CountOne(NextLine(0, j), k);
      CountAppend(ReceiveRows(rows, j - 1), Gets(rows[j - 1]), k);
      CountAppend(ReceiveRows(rows, j - 1) + Gets(rows[j - 1]), [NextLine(0, j)], k);
    }
  }

  /**
   * Global mode: width * height AddPoints, then (after one EndSend) width * height
   * GetPoints, and exactly one final EndGet, the last call.
   */
  lemma GlobalRowsCount(f: Frame, rows: seq<seq<Answer>>, k: Kind)
    requires forall y :: 0 <= y < |rows| ==> |rows[y]| == Nat(f.width)
    ensures var t := GlobalRows(f, rows);
      t[|t| - 1] == Calc(EndGet(true)) &&
      Count(t, k) == match k
        case FinalEndGet => 1
        case Submit => |rows| * Nat(f.width)
        case Fetch => |rows| * Nat(f.width)
  {
    var s := SendRows(f, |rows|);
    var g := ReceiveRows(rows, |rows|);
    SendRowsCount(f, |rows|, k);
    ReceiveRowsCount(rows, |rows|, Nat(f.width), k);
    AreaIsProduct(|rows|, Nat(f.width));
    CountOne(Calc(EndSend), k);
    CountOne(Calc(EndGet(true)), k);
    CountAppend(s, [Calc(EndSend)], k);
    CountAppend(s + [Calc(EndSend)], g, k);
    CountAppend(s + [Calc(EndSend)] + g, [Calc(EndGet(true))], k);
  }

  /** Copies answer values into the processing layers, as LoadFrom does for each index. */
  method LoadAll(ls: seq<ProcessLayer>, vals: seq<LayerValue>)
    requires |vals| == |ls| && Layers.Distinct(ls)
    modifies set p | p in ls
    ensures Values(ls) == vals
  {
    for i := 0 to |ls|
      invariant forall j :: 0 <= j < i ==> LayerValue(ls[j].cfg, ls[j].isDefault, ls[j].st) == vals[j]
    {
      ls[i].cfg := vals[i].cfg;
      ls[i].isDefault := vals[i].isDefault;
      ls[i].st := vals[i].st;
    }
    ValuesAt(ls);
  }

  /** The search for the first default layer in Draw's regeneration step. */
  method FindDefault(ls: seq<ProcessLayer>, ghost vals: seq<LayerValue>) returns (i: nat)
    requires vals == Values(ls)
    ensures i <= |ls| && FirstDefault(vals) == if i < |ls| then Some(i) else None
  {
    ValuesAt(ls);
    FirstDefaultIsFirst(vals);
    i := 0;
    while i < |ls|
      invariant i <= |ls|
      invariant forall j :: 0 <= j < i ==> !ls[j].isDefault
    {
      if ls[i].isDefault {
        break;
      }
      i := i + 1;
    }
  }

  /** The AddPoint calls of row y. */
  method SendRow(f: Frame, y: int) returns (calls: seq<DrawCall>)
    ensures calls == Sends(f, y, Nat(f.width))
  {
    calls := [];
    for x := 0 to Nat(f.width)
      invariant calls == Sends(f, y, x)
    {
      calls := calls + [Calc(AddPoint(PointAt(f, x, y)))];
    }
  }

  /** The GetPoint calls of one row, each answer loaded into the layers and painted. */
  method ReceiveRow(ls: seq<ProcessLayer>, row: seq<Answer>) returns (calls: seq<DrawCall>)
    requires Layers.Distinct(ls) && forall x :: 0 <= x < |row| ==> |row[x].layers| == |ls|
    modifies set p | p in ls
    ensures calls == Gets(row)
    ensures Values(ls) == if row == [] then old(Values(ls)) else row[|row| - 1].layers
  {
    calls := [];
    for x := 0 to |row|
      invariant calls == Gets(row[..x])
      invariant x == 0 ==> Values(ls) == old(Values(ls))
      invariant x > 0 ==> Values(ls) == row[x - 1].layers
    {
      LoadAll(ls, row[x].layers);
      calls := calls + [Calc(GetPoint), Paint(1, row[x].px, row[x].py, row[x].layers)];
      assert row[..x + 1][..x] == row[..x];
    }
    assert row[..|row|] == row;
  }

  /** Line mode: each row submitted, sent, fetched and closed in turn. */
  method DrawLines(ls: seq<ProcessLayer>, f: Frame, rows: seq<seq<Answer>>) returns (calls: seq<DrawCall>)
    requires Layers.Distinct(ls) && Fits(rows, Nat(f.width), |ls|)
    modifies set p | p in ls
    ensures calls == LineRows(f, rows, |rows|)
    ensures Values(ls) == Loaded(rows, |rows|, old(Values(ls)))
  {
    calls := [];
    ghost var v0 := Values(ls);
    for y := 0 to |rows|
      invariant calls == LineRows(f, rows, y)
      invariant Values(ls) == Loaded(rows, y, v0)
    {
      var sent := SendRow(f, y);
      var got := ReceiveRow(ls, rows[y]);
      calls := calls + (sent + [Calc(EndSend)] + got + [Calc(EndGet(y == f.height - 1)), NextLine(1, y + 1)]);
    }
  }

  /** The AddPoint calls of rows 0 .. height-1, all submitted before anything is fetched. */
  method SendAll(f: Frame, height: nat) returns (calls: seq<DrawCall>)
    ensures calls == SendRows(f, height)
  {
    calls := [];
    for y := 0 to height
      invariant calls == SendRows(f, y)
    {
      var row := SendRow(f, y);
      calls := calls + row;
    }
  }

  /** The GetPoint calls of every row in global mode, each row closed by NextLine(0, y + 1). */
  method ReceiveAll(ls: seq<ProcessLayer>, rows: seq<seq<Answer>>) returns (calls: seq<DrawCall>)
    requires Layers.Distinct(ls)
    requires forall y :: 0 <= y < |rows| ==> forall x :: 0 <= x < |rows[y]| ==> |rows[y][x].layers| == |ls|
    modifies set p | p in ls
    ensures calls == ReceiveRows(rows, |rows|)
    ensures Values(ls) == Loaded(rows, |rows|, old(Values(ls)))
  {
    calls := [];
    ghost var v0 := Values(ls);
    for y := 0 to |rows|
      invariant calls == ReceiveRows(rows, y)
      invariant Values(ls) == Loaded(rows, y, v0)
    {
      var row := ReceiveRow(ls, rows[y]);
      calls := calls + row + [NextLine(0, y + 1)];
    }
  }

  /** The submitting and fetching part of Draw, line by line or all at once. */
  method DrawRows(ls: seq<ProcessLayer>, f: Frame, rows: seq<seq<Answer>>, line: bool) returns (calls: seq<DrawCall>)
    requires Layers.Distinct(ls) && Fits(rows, Nat(f.width), |ls|)
    modifies set p | p in ls
    ensures calls == if line then LineRows(f, rows, |rows|) else GlobalRows(f, rows)
    ensures Values(ls) == Loaded(rows, |rows|, old(Values(ls)))
  {
    if line {
      calls := DrawLines(ls, f, rows);
    } else {
      var sent := SendAll(f, |rows|);
      var got := ReceiveAll(ls, rows);
      calls := sent + [Calc(EndSend)] + got + [Calc(EndGet(true))];
    }
  }

  /** What Draw reads of the driver besides its layers. */
  datatype Settings = Settings(
    cent: Complex, radius: real, mtype: MandelType, julia: Complex,
    fractal: FractalType, param: real, lineProcess: bool, formula: string,
    stale: bool, hasCalc: bool, hasFactory: bool)

  /**
   * The default layer Draw regenerates the calculator from: the first one, when the driver
   * is stale; none otherwise.
   */
  function Generation(s: Settings, vals: seq<LayerValue>): Option<nat> {
    if s.stale then FirstDefault(vals) else None
  }

  /** Only a stale driver with a default layer regenerates, and from the first default layer. */
  lemma GenerationFirstDefault(s: Settings, vals: seq<LayerValue>)
    ensures var g := Generation(s, vals);
      (g.Some? <==> s.stale && exists i :: 0 <= i < |vals| && vals[i].isDefault) &&
      (g.Some? ==>
        g.value < |vals| && vals[g.value].isDefault && forall j :: 0 <= j < g.value ==> !vals[j].isDefault)
  {
    FirstDefaultIsFirst(vals);
  }

  /** The count InitData receives: the width in line mode, the int product width * height otherwise. */
  function PointCount(line: bool, width: int, height: int): (n: int)
    ensures line ==> n == width
    ensures !line && Binary.InInt32(width * height) ==> n == width * height
    ensures !line ==> Binary.InInt32(n)
  {
    if line then width else Binary.Wrap32(width * height)
  }

  /**
   * The calls Draw makes and how it ends, for settings s and layer values vals. The
   * calculator is regenerated, from the first default layer, only when the driver is stale
   * and some layer is default; a missing factory then, or a missing calculator at InitData,
   * ends the drawing with a null reference after InitDraw. genFails is whether the factory
   * throws when asked for the calculator (a compile error, an unknown fractal type); the
   * drawing then ends after that call.
   */
  function DrawTrace(s: Settings, vals: seq<LayerValue>, width: int, height: int, rows: seq<seq<Answer>>, genFails: bool): (r: (seq<DrawCall>, DrawOutcome))
    requires |rows| == Nat(height)
  {
    var g := Generation(s, vals);
    if g.Some? && !s.hasFactory then ([InitDraw], NullReference)
    else if g.Some? && genFails then ([InitDraw, Calc(Generate(vals, s.fractal, s.formula, g.value))], GenFailed)
    else if g.None? && !s.hasCalc then ([InitDraw], NullReference)
    else
      var gen := if g.Some? then [Calc(Generate(vals, s.fractal, s.formula, g.value))] else [];
      var f := Frame(s.cent, s.radius, width, height, s.mtype, s.julia);
      (Rendering(f, s.param, s.lineProcess, vals, rows, gen), Drawn)
  }

  /** A drawing past the regeneration step, whose calls are gen: InitData, the rows, EndDraw. */
  function Rendering(f: Frame, param: real, line: bool, vals: seq<LayerValue>, rows: seq<seq<Answer>>, gen: seq<DrawCall>): seq<DrawCall>
    requires |rows| == Nat(f.height)
  {
    var body := if line then LineRows(f, rows, |rows|) else GlobalRows(f, rows);
    [InitDraw] + gen + [Calc(InitData(vals, param, PointCount(line, f.width, f.height)))] + body + [EndDraw]
  }

  /**
   * Draw either stops right after InitDraw with a null reference, exactly when the factory
   * or the calculator it needs is missing, or stops after the failed Generate call, exactly
   * when the factory throws, or runs from InitDraw to EndDraw.
   */
  lemma DrawTraceShape(s: Settings, vals: seq<LayerValue>, width: int, height: int, rows: seq<seq<Answer>>, genFails: bool)
    requires |rows| == Nat(height)
    ensures var r := DrawTrace(s, vals, width, height, rows, genFails);
      var g := Generation(s, vals);
      (r.1 == NullReference <==> r.0 == [InitDraw]) &&
      (r.1 == GenFailed <==> g.Some? && s.hasFactory && genFails) &&
      (r.1 == GenFailed ==> r.0 == [InitDraw, Calc(Generate(vals, s.fractal, s.formula, g.value))]) &&
      (r.1 == Drawn <==> (g.Some? && s.hasFactory && !genFails) || (g.None? && s.hasCalc)) &&
      (r.1 == Drawn ==> |r.0| > 2 && r.0[0] == InitDraw && r.0[|r.0| - 1] == EndDraw)
  {
  }

  /** Draw past the regeneration step, whose calls are gen: InitData, the rows, EndDraw. */
  method Render(ls: seq<ProcessLayer>, f: Frame, param: real, line: bool, rows: seq<seq<Answer>>, gen: seq<DrawCall>)
    returns (calls: seq<DrawCall>)
    requires Layers.Distinct(ls) && |rows| == Nat(f.height) && Fits(rows, Nat(f.width), |ls|)
    modifies set p | p in ls
    ensures calls == Rendering(f, param, line, old(Values(ls)), rows, gen)
    ensures Values(ls) == Loaded(rows, |rows|, old(Values(ls)))
  {
    var init := Calc(InitData(Values(ls), param, PointCount(line, f.width, f.height)));
    var body := DrawRows(ls, f, rows, line);
    calls := [InitDraw] + gen + [init] + body + [EndDraw];
  }

  /** Without the factory or the calculator it needs, Draw stops after InitDraw. */
  lemma DrawTraceRefused(s: Settings, vals: seq<LayerValue>, width: int, height: int, rows: seq<seq<Answer>>, genFails: bool)
    requires |rows| == Nat(height)
    requires var g := Generation(s, vals);
      (g.Some? && !s.hasFactory) || (g.None? && !s.hasCalc)
    ensures DrawTrace(s, vals, width, height, rows, genFails) == ([InitDraw], NullReference)
  {
  }

  /** Once the regeneration step has succeeded with calls gen, Draw renders. */
  lemma DrawTraceDrawn(s: Settings, vals: seq<LayerValue>, width: int, height: int, rows: seq<seq<Answer>>, genFails: bool, gen: seq<DrawCall>)
    requires |rows| == Nat(height)
    requires var g := Generation(s, vals);
      !(g.Some? && !s.hasFactory) && !(g.Some? && genFails) && !(g.None? && !s.hasCalc) &&
      gen == if g.Some? then [Calc(Generate(vals, s.fractal, s.formula, g.value))] else []
    ensures DrawTrace(s, vals, width, height, rows, genFails) ==
      (Rendering(Frame(s.cent, s.radius, width, height, s.mtype, s.julia), s.param, s.lineProcess, vals, rows, gen), Drawn)
  {
  }

  class Mandel {
    var cent: Complex
    var radius: real
    var saveCent: Complex
    var saveRadius: real
    var mtype: MandelType
    var julia: Complex
    var layerData: seq<ProcessLayer>
    var layerDataHash: int
    /** The hash code of the layer list object, fixed when the list is created. */
    const listHash: int
    var fractal: FractalType
    var param: real
    var lineProcess: bool
    var processNum: int
    var formula: string
    var hasChanged: bool
    /** Whether c_calc holds a calculator, and whether c_factory holds a factory. */
    var hasCalc: bool
    var hasFactory: bool
    /** The calls Draw has made so far. */
    var trace: seq<DrawCall>

    predicate Valid()
      reads this
    {
      Layers.Distinct(layerData)
    }

    function GetView(): (v: View)
      reads this
      ensures v.cent == cent && v.radius == radius && v.mtype == mtype && v.julia == julia
    {
      View(cent, radius, saveCent, saveRadius, mtype, julia)
    }

    /**
     * A new driver: centre 0, radius 2, MANDEL, no layers, no calculator, marked changed.
     * listHash is the hash code the runtime gives the new layer list.
     */
    constructor (listHash: int, hasFactory: bool)
      ensures Valid() && GetView() == View(Zero, 2.0, Zero, 2.0, MANDEL, Zero)
      ensures layerData == [] && layerDataHash == 0 && this.listHash == listHash
      ensures fractal == FRACTAL_MANDEL && param == 0.0 && lineProcess && processNum == 1 && formula == ""
      ensures hasChanged && !hasCalc && this.hasFactory == hasFactory && trace == []
    {
      cent, radius, saveCent, saveRadius := Zero, 2.0, Zero, 2.0;
      mtype, julia := MANDEL, Zero;
      layerData, layerDataHash := [], 0;
      this.listHash := listHash;
      fractal, param, lineProcess, processNum, formula := FRACTAL_MANDEL, 0.0, true, 1, "";
      hasChanged, hasCalc, this.hasFactory := true, false, hasFactory;
      trace := [];
    }

    /** setBounds. */
    method SetBounds(center: Complex, r: real)
      modifies this`cent, this`radius
      ensures cent == center && radius == r
    {
      cent, radius := center, r;
    }

    /** The Factory setter: a new factory drops the calculator and marks the driver changed. */
    method SetFactory(present: bool)
      modifies this`hasFactory, this`hasChanged, this`hasCalc
      ensures hasFactory == present && hasChanged && !hasCalc
    {
      hasFactory := present;
      hasChanged := true;
      hasCalc := false;
    }

    /** The Type setter. */
    method SetType(t: MandelType)
      modifies this`cent, this`radius, this`saveCent, this`saveRadius, this`mtype, this`julia, this`hasChanged
      ensures GetView() == Retype(old(GetView()), t) && hasChanged
    {
      hasChanged := true;
      if mtype == MANDEL && t != MANDEL {
        saveCent := cent;
        saveRadius := radius;
        julia := cent;
        cent := Zero;
        radius := 2.0;
      }
      if mtype != MANDEL && t == MANDEL {
        cent := saveCent;
        radius := saveRadius;
      }
      mtype := t;
    }

    /** The JuliaCenter setter. */
    method SetJuliaCenter(c: Complex)
      modifies this`julia
      ensures julia == c
    {
      julia := c;
    }

    /** The ProcessType setter: line by line or all at once. */
    method SetProcessType(line: bool)
      modifies this`lineProcess
      ensures lineProcess == line
    {
      lineProcess := line;
    }

    /** The Fractal setter marks the driver changed. */
    method SetFractal(ft: FractalType)
      modifies this`fractal, this`hasChanged
      ensures fractal == ft && hasChanged
    {
      fractal := ft;
      hasChanged := true;
    }

    /** The FractalParam setter; the calculator is kept. */
    method SetFractalParam(p: real)
      modifies this`param
      ensures param == p
    {
      param := p;
    }

    /** setProcessNum: refused, nothing changes. */
    method SetProcessNum(n: int) returns (accepted: bool)
      ensures !accepted
    {
      accepted := false;
    }

    /** setFunction: the formula is stored, the driver marked changed, and true returned. */
    method SetFunction(code: string) returns (accepted: bool)
      modifies this`formula, this`hasChanged
      ensures accepted && formula == code && hasChanged
    {
      formula := code;
      hasChanged := true;
      accepted := true;
    }

    /** Whether Draw regenerates the calculator. */
    predicate Stale()
      reads this
    {
      hasChanged || layerDataHash != listHash || !hasCalc
    }

    function Snapshot(): (s: Settings)
      reads this
      ensures s.stale == Stale() && s.hasCalc == hasCalc && s.hasFactory == hasFactory
    {
      Settings(cent, radius, mtype, julia, fractal, param, lineProcess, formula, Stale(), hasCalc, hasFactory)
    }

    /**
     * Draw: the calls of DrawTrace, where genFails is whether the factory throws when asked
     * for the calculator. A driver that gets past the regeneration step is fresh afterwards;
     * one that does not keeps its flags. The processing layers hold the values of the last
     * answer loaded.
     */
    method Draw(width: int, height: int, rows: seq<seq<Answer>>, genFails: bool) returns (outcome: DrawOutcome)
      requires Valid() && |rows| == Nat(height) && Fits(rows, Nat(width), |layerData|)
      modifies this`trace, this`hasChanged, this`layerDataHash, this`hasCalc, set p | p in layerData
      ensures var e := DrawTrace(old(Snapshot()), old(Values(layerData)), width, height, rows, genFails);
        trace == old(trace) + e.0 && outcome == e.1
      ensures outcome == Drawn ==> !Stale()
      ensures outcome == GenFailed ==>
        hasChanged == old(hasChanged) && layerDataHash == old(layerDataHash) && hasCalc == old(hasCalc)
      ensures Values(layerData) == if outcome == Drawn then Loaded(rows, |rows|, old(Values(layerData))) else old(Values(layerData))
    {
      ghost var s0 := Snapshot();
      var ls := layerData;
      ghost var v0 := Values(ls);
      var failed, thrown, gen := Regenerate(v0, genFails);
      assert Values(ls) == v0;
      if thrown {
        trace := trace + [InitDraw] + gen;
        return GenFailed;
      }
      if failed || !hasCalc {
        DrawTraceRefused(s0, v0, width, height, rows, genFails);
        trace := trace + [InitDraw];
        return NullReference;
      }
      Finish(s0, v0, width, height, rows, genFails, gen);
      return Drawn;
    }

    /** Draw after a successful regeneration step that made the calls gen. */
    method Finish(ghost s0: Settings, ghost v0: seq<LayerValue>, width: int, height: int, rows: seq<seq<Answer>>, ghost genFails: bool, gen: seq<DrawCall>)
      requires Valid() && |rows| == Nat(height) && Fits(rows, Nat(width), |layerData|) && v0 == Values(layerData)
      requires s0.cent == cent && s0.radius == radius && s0.mtype == mtype && s0.julia == julia
      requires s0.param == param && s0.lineProcess == lineProcess
      requires var g := Generation(s0, v0);
        !(g.Some? && !s0.hasFactory) && !(g.Some? && genFails) && !(g.None? && !s0.hasCalc) &&
        gen == if g.Some? then [Calc(Generate(v0, s0.fractal, s0.formula, g.value))] else []
      modifies this`trace, set p | p in layerData
      ensures trace == old(trace) + DrawTrace(s0, v0, width, height, rows, genFails).0
      ensures Values(layerData) == Loaded(rows, |rows|, v0)
    {
      var f := Frame(cent, radius, width, height, mtype, julia);
      var calls := Render(layerData, f, param, lineProcess, rows, gen);
      DrawTraceDrawn(s0, v0, width, height, rows, genFails, gen);
      trace := trace + calls;
    }

    /**
     * The regeneration step of Draw, returning the Generate call it makes. A missing factory
     * (failed) or a factory that throws (thrown) stops it before anything changes.
     */
    method Regenerate(ghost vals: seq<LayerValue>, genFails: bool) returns (failed: bool, thrown: bool, calls: seq<DrawCall>)
      requires vals == Values(layerData)
      modifies this`hasChanged, this`layerDataHash, this`hasCalc
      ensures var g := Generation(old(Snapshot()), vals);
        (failed <==> g.Some? && !hasFactory) &&
        (thrown <==> g.Some? && hasFactory && genFails) &&
        (failed || thrown ==> hasChanged == old(hasChanged) && layerDataHash == old(layerDataHash) && hasCalc == old(hasCalc)) &&
        (thrown ==> calls == [Calc(Generate(vals, fractal, formula, g.value))]) &&
        (!failed && !thrown ==>
          calls == (if g.Some? then [Calc(Generate(vals, fractal, formula, g.value))] else []) &&
          hasCalc == (old(hasCalc) || g.Some?) &&
          (old(Stale()) ==> !hasChanged && layerDataHash == listHash) &&
          (!old(Stale()) ==> hasChanged == old(hasChanged) && layerDataHash == old(layerDataHash)))
    {
      failed, thrown, calls := false, false, [];
      if hasChanged || layerDataHash != listHash || !hasCalc {
        var i := FindDefault(layerData, vals);
        if i < |layerData| {
          if !hasFactory {
            return true, false, [];
          }
          calls := [Calc(Generate(Values(layerData), fractal, formula, i))];
          if genFails {
            return false, true, calls;
          }
          hasCalc := true;
        }
        hasChanged := false;
        layerDataHash := listHash;
      }
    }
  }
}
