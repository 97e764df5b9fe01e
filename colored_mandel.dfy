/**
 * RestFract/ColoredMandel.cs: the colouring driver. It keeps a list of colour layers, each
 * naming the processing layer it reads and the gradient it maps through, and the colours of
 * inside and outside points. PutPoint turns the processing layers' values for a pixel into
 * one output point per painting colour layer, after a base point in the inside or the
 * outside colour.
 *
 * The ColorLayer struct of RestFract/ColorLayer.cs is a datatype: its plain fields (`Style`),
 * the processing layer it shares with the driver, and the gradient object. The calls
 * PutPoint makes on its output are returned, in order.
 */
module Coloring {
  import opened ComplexMath
  import opened Flags
  import opened Layers
  import opened Wrappers
  import Colors
  import Gradients
  import Drawing

  /** c_type, c_dataused, c_interp, the three extras, c_param1, c_param2, c_value,
      c_saturation, c_alpha and c_cycle of a ColorLayer. */
  datatype Style = Style(
    ltype: LayerType,
    dataused: DataUsed,
    interp: Interp,
    valueextr: LayerExtra,
    saturationextr: LayerExtra,
    alphaextr: LayerExtra,
    param1: real,
    param2: real,
    value: real,
    saturation: real,
    alpha: real,
    cycle: real)

  /** A ColorLayer: its style, the processing layer it reads (c_calcdata), its gradient (c_gr). */
  datatype ColorLayer = ColorLayer(style: Style, calcdata: ProcessLayer, gr: Gradients.DictGradientMap)

  /** An IMandelOutput.PutPoint call. */
  datatype Emitted = Emitted(layernum: int, flags: int, x: int, y: int, c: Colors.ColorValue)

  /** Math.PI, written as the decimal of the binary64 value nearest to pi. */
  const Pi: real := 3.141592653589793

  // ---------------------------------------------------------------------------------------
  // What PutPoint reads, as values
  // ---------------------------------------------------------------------------------------

  /** What a gradient object holds. */
  datatype Ramp = Ramp(points: map<real, Colors.ColorValue>, gtype: Gradients.GradientType, shift: real)

  /** What PutPoint reads of one colour layer: its style, its processing layer, its gradient. */
  datatype Shot = Shot(style: Style, data: LayerValue, ramp: Ramp)

  function ShotOf(l: ColorLayer): Shot
    reads l.calcdata, l.gr
  {
    Shot(l.style, LayerValue(l.calcdata.cfg, l.calcdata.isDefault, l.calcdata.st),
         Ramp(l.gr.points, l.gr.gtype, l.gr.shift))
  }

  /** The values of a list of colour layers. */
  function Shots(ls: seq<ColorLayer>): (r: seq<Shot>)
    reads (set l | l in ls :: l.calcdata), (set l | l in ls :: l.gr)
    ensures |r| == |ls|
  {
    if ls == [] then [] else Shots(ls[..|ls| - 1]) + [ShotOf(ls[|ls| - 1])]
  }

  lemma {:induction false} ShotsAt(ls: seq<ColorLayer>)
    ensures forall i :: 0 <= i < |ls| ==> Shots(ls)[i] == ShotOf(ls[i])
  {
    if ls != [] {
      ShotsAt(ls[..|ls| - 1]);
    }
  }

  /** The processing layers a list of colour layers reads. */
  function Refs(ls: seq<ColorLayer>): (r: seq<ProcessLayer>)
    ensures |r| == |ls| && forall i :: 0 <= i < |ls| ==> r[i] == ls[i].calcdata
  {
    if ls == [] then [] else Refs(ls[..|ls| - 1]) + [ls[|ls| - 1].calcdata]
  }

  /** Every gradient holds its stops at 0 and 1. */
  predicate Stopped(shots: seq<Shot>) {
    forall i :: 0 <= i < |shots| ==> Gradients.Stops(shots[i].ramp.points)
  }

  // ---------------------------------------------------------------------------------------
  // The colour of one layer
  // ---------------------------------------------------------------------------------------

  /** The point is inside when some colour layer reads a default layer that found it inside. */
  predicate Inside(shots: seq<Shot>) {
    exists i :: 0 <= i < |shots| && shots[i].data.isDefault && shots[i].data.st.isin
  }

  /** Whether a layer of type t paints an inside or an outside point. */
  predicate Paints(t: LayerType, inside: bool) {
    (inside && HasFlag(t, LAYER_INSIDE)) || (!inside && HasFlag(t, LAYER_OUTSIDE))
  }

  /** The eleven values of c_dataused the coloring switch recognises. */
  const DataKinds := {USE_ITER, USE_VALUE, USE_X_REAL, USE_X_IMAG, USE_X_ARG, USE_X_ABS,
                      USE_RES_REAL, USE_RES_IMAG, USE_RES_ARG, USE_RES_ABS, USE_RES_N}

  /** The datum a layer maps (bv) and the range it maps from (min, max). */
  datatype Range = Range(bv: real, min: real, max: real)

  /**
   * The switch on c_dataused. A value that is not exactly one of the eleven members (a
   * combination of flags, or none) leaves bv = -1 and min = max = 0.
   */
  function Datum(m: MathLib, s: Style, d: LayerValue): (r: Range)
    ensures s.dataused == USE_ITER || s.dataused == USE_RES_N ==>
      r.min == 0.0 && r.max == d.cfg.nlimit as real
    ensures s.dataused == USE_X_ARG || s.dataused == USE_RES_ARG ==>
      r.min == 0.0 && r.max == Pi
    ensures s.dataused in {USE_VALUE, USE_X_REAL, USE_X_IMAG, USE_X_ABS, USE_RES_REAL, USE_RES_IMAG, USE_RES_ABS} ==>
      r.min == s.param1 && r.max == s.param2
    ensures s.dataused !in DataKinds ==> r == Range(-1.0, 0.0, 0.0)
  {
    var du := s.dataused;
    if du == USE_ITER then Range(d.st.n as real, 0.0, d.cfg.nlimit as real)
    else if du == USE_VALUE then Range(d.st.calcValue, s.param1, s.param2)
    else if du == USE_X_REAL then Range(d.st.x.re, s.param1, s.param2)
    else if du == USE_X_IMAG then Range(d.st.x.im, s.param1, s.param2)
    else if du == USE_X_ARG then Range(m.phase(d.st.x), 0.0, Pi)
    else if du == USE_X_ABS then Range(m.magnitude(d.st.x), s.param1, s.param2)
    else if du == USE_RES_REAL then Range(d.st.resx.re, s.param1, s.param2)
    else if du == USE_RES_IMAG then Range(d.st.resx.im, s.param1, s.param2)
    else if du == USE_RES_ARG then Range(m.phase(d.st.resx), 0.0, Pi)
    else if du == USE_RES_ABS then Range(m.magnitude(d.st.resx), s.param1, s.param2)
    else if du == USE_RES_N then Range(d.st.resn as real, 0.0, d.cfg.nlimit as real)
    else Range(-1.0, 0.0, 0.0)
  }

  /**
   * The datum after the cycle-1 clamp: into [min, max] when min < max, into [max, min]
   * otherwise; a datum already in range, or any datum when the cycle is not 1, is kept.
   */
  function Clamped(bv: real, min: real, max: real, cycle: real): (r: real)
    ensures cycle == 1.0 && min < max ==> min <= r <= max
    ensures cycle == 1.0 && max <= min ==> max <= r <= min
    ensures cycle == 1.0 && (min <= bv <= max || max <= bv <= min) ==> r == bv
    ensures cycle != 1.0 ==> r == bv
  {
    if cycle != 1.0 then bv
    else if min < max then (if bv < min then min else if bv > max then max else bv)
    else (if bv > min then min else if bv < max then max else bv)
  }

  /** a / b; the infinity or NaN IEEE arithmetic gives for b = 0 is not modelled (0 instead). */
  function Ratio(a: real, b: real): real {
    if b == 0.0 then 0.0 else a / b
  }

  /**
   * The gradient position of a datum: 0 at min, 1 at max, otherwise the interpolated
   * fraction times the cycle, logarithmic or exponential only when min is not 0.
   */
  function Fraction(m: MathLib, interp: Interp, cycle: real, bv: real, min: real, max: real): real {
    if bv == min then 0.0
    else if bv == max then 1.0
    else if min != 0.0 && interp == INTERP_LOG then
      Colors.Mul(Ratio(m.log(bv) - m.log(min), m.log(max) - m.log(min)), cycle)
    else if min != 0.0 && interp == INTERP_EXP then
      Colors.Mul(Ratio(m.exp(bv) - m.exp(min), m.exp(max) - m.exp(min)), cycle)
    else Colors.Mul(Ratio(bv - min, max - min), cycle)
  }

  /**
   * An outside layer's alpha, saturation or value factor x after its extra: a positive x is
   * scaled up with the iteration count (INC) or down (DEC), linearly or logarithmically.
   */
  function Adjust(m: MathLib, extr: LayerExtra, x: real, iter: real, nlimit: real): real {
    var k := if HasFlag(extr, EXTRA_LOG) then Ratio(m.log(iter), m.log(nlimit)) else Ratio(iter, nlimit);
    if x <= 0.0 then x
    else if HasFlag(extr, EXTRA_INC) then Colors.Mul(k, x)
    else if HasFlag(extr, EXTRA_DEC) then x - Colors.Mul(k, x)
    else x
  }

  /** The gradient colour of a layer's datum, before blending. */
  ghost function Base(m: MathLib, sh: Shot): (c: Colors.ColorValue)
    requires Gradients.Stops(sh.ramp.points)
    ensures Colors.Valid(c)
  {
    var s := sh.style;
    var r := Datum(m, s, sh.data);
    var value := Fraction(m, s.interp, s.cycle, Clamped(r.bv, r.min, r.max, s.cycle), r.min, r.max);
    Gradients.Lookup(sh.ramp.points, sh.ramp.gtype, sh.ramp.shift, value, s.cycle != 1.0)
  }

  /**
   * The colour a painting layer emits. An inside point blends by (alpha, value, saturation)
   * in that argument order, an outside point by (alpha, saturation, value) after the extras.
   */
  ghost function Shade(m: MathLib, sh: Shot, inside: bool): (c: Colors.ColorValue)
    requires Gradients.Stops(sh.ramp.points)
    ensures Colors.Valid(c)
  {
    var s := sh.style;
    var c := Base(m, sh);
    if inside then Colors.BlendSelf(c, s.alpha, s.value, s.saturation)
    else
      var iter, nl := sh.data.st.n as real, sh.data.cfg.nlimit as real;
      Colors.BlendSelf(c, Adjust(m, s.alphaextr, s.alpha, iter, nl),
                       Adjust(m, s.saturationextr, s.saturation, iter, nl),
                       Adjust(m, s.valueextr, s.value, iter, nl))
  }

  // ---------------------------------------------------------------------------------------
  // The points of a pixel
  // ---------------------------------------------------------------------------------------

  /** The layer types of a list of colour layers. */
  function Types(shots: seq<Shot>): (r: seq<LayerType>)
    ensures |r| == |shots| && forall i :: 0 <= i < |shots| ==> r[i] == shots[i].style.ltype
  {
    if shots == [] then [] else Types(shots[..|shots| - 1]) + [shots[|shots| - 1].style.ltype]
  }

  /** The shade of every colour layer, whether it paints or not. */
  ghost function Shades(m: MathLib, shots: seq<Shot>, inside: bool): (r: seq<Colors.ColorValue>)
    requires Stopped(shots)
    ensures |r| == |shots|
  {
    seq(|shots|, i requires 0 <= i < |shots| => Shade(m, shots[i], inside))
  }

  /**
   * The points the first k colour layers emit, given their types and shades: layer j + 1,
   * in shade j, for each painting layer j.
   */
  function Layered(types: seq<LayerType>, cols: seq<Colors.ColorValue>, inside: bool, flags: int, x: int, y: int, k: nat): seq<Emitted>
    requires k <= |types| && |cols| == |types|
  {
    if k == 0 then []
    else
      var tail := if Paints(types[k - 1], inside) then [Emitted(k, flags, x, y, cols[k - 1])] else [];
      Layered(types, cols, inside, flags, x, y, k - 1) + tail
  }

  /**
   * The points of a pixel given the colour layers' types and shades: the base point, in
   * the inside or outside colour, then the painting layers.
   */
  function Painting(types: seq<LayerType>, cols: seq<Colors.ColorValue>, inside: bool,
                    inscol: Colors.ColorValue, outcol: Colors.ColorValue, flags: int, x: int, y: int): seq<Emitted>
    requires |cols| == |types|
  {
    [Emitted(0, flags, x, y, if inside then inscol else outcol)] +
    Layered(types, cols, inside, flags, x, y, |types|)
  }

  /** All the points PutPoint emits for a pixel, from what it reads of the colour layers. */
  ghost function Painted(m: MathLib, shots: seq<Shot>, inscol: Colors.ColorValue, outcol: Colors.ColorValue,
                         flags: int, x: int, y: int): seq<Emitted>
    requires Stopped(shots)
  {
    var inside := Inside(shots);
    Painting(Types(shots), Shades(m, shots, inside), inside, inscol, outcol, flags, x, y)
  }

  /**
   * Every point the first k layers emit comes from a painting layer, numbered from 1, in
   * increasing layer order, in that layer's shade.
   */
  lemma {:induction false} LayeredSound(types: seq<LayerType>, cols: seq<Colors.ColorValue>, inside: bool,
                                        flags: int, x: int, y: int, k: nat)
    requires k <= |types| && |cols| == |types|
    ensures var r := Layered(types, cols, inside, flags, x, y, k);
      |r| <= k &&
      (forall i :: 0 <= i < |r| ==>
        1 <= r[i].layernum <= k && r[i].flags == flags && r[i].x == x && r[i].y == y &&
        Paints(types[r[i].layernum - 1], inside) && r[i].c == cols[r[i].layernum - 1]) &&
      (forall i, j :: 0 <= i < j < |r| ==> r[i].layernum < r[j].layernum)
  {
    if k > 0 {
      LayeredSound(types, cols, inside, flags, x, y, k - 1);
    }
  }

  /** Some point of r carries layer number n. */
  predicate Numbered(r: seq<Emitted>, n: int) {
    exists i :: 0 <= i < |r| && r[i].layernum == n
  }

  /** Every painting layer among the first k emits a point. */
  lemma {:induction false} LayeredComplete(types: seq<LayerType>, cols: seq<Colors.ColorValue>, inside: bool,
                                           flags: int, x: int, y: int, k: nat)
    requires k <= |types| && |cols| == |types|
    ensures var r := Layered(types, cols, inside, flags, x, y, k);
      forall j :: 0 <= j < k && Paints(types[j], inside) ==> Numbered(r, j + 1)
  {
    if k > 0 {
      LayeredComplete(types, cols, inside, flags, x, y, k - 1);
      var r0 := Layered(types, cols, inside, flags, x, y, k - 1);
      var r := Layered(types, cols, inside, flags, x, y, k);
      forall j | 0 <= j < k && Paints(types[j], inside)
        ensures Numbered(r, j + 1)
      {
        if j < k - 1 {
          var i :| 0 <= i < |r0| && r0[i].layernum == j + 1;
          assert r[i] == r0[i];
        } else {
          assert r[|r0|].layernum == j + 1;
        }
      }
    }
  }

  /**
   * The base point comes first, numbered 0, in the inside or the outside colour; then one
   * point per painting layer, in layer order, numbered from 1, in that layer's shade, and
   * nothing else.
   */
  lemma PaintingShape(types: seq<LayerType>, cols: seq<Colors.ColorValue>, inside: bool,
                      inscol: Colors.ColorValue, outcol: Colors.ColorValue, flags: int, x: int, y: int)
    requires |cols| == |types|
    ensures var r := Painting(types, cols, inside, inscol, outcol, flags, x, y);
      1 <= |r| <= |types| + 1 &&
      r[0] == Emitted(0, flags, x, y, if inside then inscol else outcol) &&
      (forall i :: 1 <= i < |r| ==>
        1 <= r[i].layernum <= |types| && Paints(types[r[i].layernum - 1], inside) &&
        r[i].c == cols[r[i].layernum - 1]) &&
      (forall i, j :: 0 <= i < j < |r| ==> r[i].layernum < r[j].layernum) &&
      (forall j :: 0 <= j < |types| && Paints(types[j], inside) ==> Numbered(r, j + 1))
  {
    var t := Layered(types, cols, inside, flags, x, y, |types|);
    LayeredSound(types, cols, inside, flags, x, y, |types|);
    LayeredComplete(types, cols, inside, flags, x, y, |types|);
    var r := Painting(types, cols, inside, inscol, outcol, flags, x, y);
    assert r == [r[0]] + t;
    forall i | 1 <= i < |r|
      ensures 1 <= r[i].layernum <= |types| && Paints(types[r[i].layernum - 1], inside) &&
        r[i].c == cols[r[i].layernum - 1]
    {
      assert r[i] == t[i - 1];
    }
    forall j | 0 <= j < |types| && Paints(types[j], inside)
      ensures Numbered(r, j + 1)
    {
      var i :| 0 <= i < |t| && t[i].layernum == j + 1;
      assert r[i + 1] == t[i];
    }
  }

  /** A layer that paints only inside points emits nothing for an outside point, and the reverse. */
  lemma PaintsOneSide(t: LayerType, inside: bool)
    ensures t == LAYER_INSIDE ==> (Paints(t, inside) <==> inside)
    ensures t == LAYER_OUTSIDE ==> (Paints(t, inside) <==> !inside)
    ensures t == LAYER_BOTH ==> Paints(t, inside)
  {
  }

  // ---------------------------------------------------------------------------------------
  // Properties of the colour computation
  // ---------------------------------------------------------------------------------------

  /**
   * With cycle 1 and min < max, a datum at or below min maps to the start of the gradient
   * and one at or above max to its end.
   */
  lemma SaturatesAtEnds(m: MathLib, interp: Interp, bv: real, min: real, max: real)
    requires min < max
    ensures bv <= min ==> Fraction(m, interp, 1.0, Clamped(bv, min, max, 1.0), min, max) == 0.0
    ensures bv >= max ==> Fraction(m, interp, 1.0, Clamped(bv, min, max, 1.0), min, max) == 1.0
  {
  }

  /**
   * With cycle 1 and max < min the range is walked backwards: a datum at or above min maps
   * to 0 and one at or below max to 1. With min == max every datum maps to 0.
   */
  lemma SaturatesReversed(m: MathLib, interp: Interp, bv: real, min: real, max: real)
    requires max <= min
    ensures bv >= min ==> Fraction(m, interp, 1.0, Clamped(bv, min, max, 1.0), min, max) == 0.0
    ensures max < min && bv <= max ==> Fraction(m, interp, 1.0, Clamped(bv, min, max, 1.0), min, max) == 1.0
    ensures max == min ==> Fraction(m, interp, 1.0, Clamped(bv, min, max, 1.0), min, max) == 0.0
  {
  }

  /**
   * With cycle 1 and linear interpolation (or min 0) the gradient position lies in [0, 1],
   * whichever way round the range is.
   */
  lemma LinearInUnit(m: MathLib, interp: Interp, bv: real, min: real, max: real)
    requires (interp != INTERP_LOG && interp != INTERP_EXP) || min == 0.0
    ensures var p := Fraction(m, interp, 1.0, Clamped(bv, min, max, 1.0), min, max); 0.0 <= p <= 1.0
  {
    var c := Clamped(bv, min, max, 1.0);
    if c != min && c != max {
      if min < max {
        Gradients.FractionInside(c - min, max - min);
      } else {
        Gradients.FractionInside(min - c, min - max);
        assert (c - min) / (max - min) == (min - c) / (min - max);
      }
    }
  }

  /**
   * The linear extras of an outside layer keep a positive factor within [0, x] while the
   * iteration count is within [0, nlimit], and an INC and a DEC extra split x between them.
   */
  lemma ExtrasInRange(m: MathLib, inc: LayerExtra, dec: LayerExtra, x: real, iter: real, nlimit: real)
    requires 0.0 < x && 0.0 <= iter <= nlimit && 0.0 < nlimit
    requires HasFlag(inc, EXTRA_INC) && !HasFlag(inc, EXTRA_LOG)
    requires HasFlag(dec, EXTRA_DEC) && !HasFlag(dec, EXTRA_INC) && !HasFlag(dec, EXTRA_LOG)
    ensures 0.0 <= Adjust(m, inc, x, iter, nlimit) <= x
    ensures 0.0 <= Adjust(m, dec, x, iter, nlimit) <= x
    ensures Adjust(m, inc, x, iter, nlimit) + Adjust(m, dec, x, iter, nlimit) == x
  {
    var k := iter / nlimit;
    if 0.0 < iter < nlimit {
      Gradients.FractionInside(iter, nlimit);
    } else if iter == nlimit {
      assert k == 1.0;
    } else {
      assert k == 0.0;
    }
    Colors.MulUnit(x, k);
    assert Colors.Mul(k, x) == Colors.Mul(x, k);
  }

  /** A factor that is not positive, or whose extras are neither INC nor DEC, is kept. */
  lemma ExtrasKeep(m: MathLib, extr: LayerExtra, x: real, iter: real, nlimit: real)
    requires x <= 0.0 || (!HasFlag(extr, EXTRA_INC) && !HasFlag(extr, EXTRA_DEC))
    ensures Adjust(m, extr, x, iter, nlimit) == x
  {
  }

  /**
   * The inside branch passes the layer's value factor where Blend takes the saturation and
   * the saturation factor where it takes the value: an inside shade is the outside shade of
   * the same layer with the two factors exchanged, when the layer has no INC/DEC extras.
   */
  lemma InsideSwapsFactors(m: MathLib, sh: Shot)
    requires Gradients.Stops(sh.ramp.points)
    requires forall e :: e in {sh.style.alphaextr, sh.style.saturationextr, sh.style.valueextr} ==>
      !HasFlag(e, EXTRA_INC) && !HasFlag(e, EXTRA_DEC)
    ensures var s := sh.style;
      var swapped := sh.(style := s.(value := s.saturation, saturation := s.value,
                                     saturationextr := s.valueextr, valueextr := s.saturationextr));
      Shade(m, sh, true) == Shade(m, swapped, false)
  {
    var s := sh.style;
    var swapped := sh.(style := s.(value := s.saturation, saturation := s.value,
                                   saturationextr := s.valueextr, valueextr := s.saturationextr));
    assert Datum(m, swapped.style, sh.data) == Datum(m, s, sh.data);
    assert Base(m, swapped) == Base(m, sh);
    var iter, nl := sh.data.st.n as real, sh.data.cfg.nlimit as real;
    ExtrasKeep(m, s.alphaextr, s.alpha, iter, nl);
    ExtrasKeep(m, s.valueextr, s.value, iter, nl);
    ExtrasKeep(m, s.saturationextr, s.saturation, iter, nl);
  }

  // ---------------------------------------------------------------------------------------
  // The colouring driver
  // ---------------------------------------------------------------------------------------

  /** A colour layer reading one of the processing layers can join colour layers that all do. */
  lemma ReadsAppend(ls: seq<ColorLayer>, e: ColorLayer, ld: seq<ProcessLayer>)
    requires (forall i :: 0 <= i < |ls| ==> ls[i].calcdata in ld) && e.calcdata in ld
    ensures forall i :: 0 <= i < |ls + [e]| ==> (ls + [e])[i].calcdata in ld
  {
  }

  /** The position of the last configuration among the first k equal to c. */
  function LastMatch(cfgs: seq<LayerConfig>, c: LayerConfig, k: nat): Option<nat>
    requires k <= |cfgs|
  {
    if k == 0 then None
    else if cfgs[k - 1] == c then Some(k - 1)
    else LastMatch(cfgs, c, k - 1)
  }

  /** LastMatch finds the last equal configuration, and none exactly when there is none. */
  lemma {:induction false} LastMatchIsLast(cfgs: seq<LayerConfig>, c: LayerConfig, k: nat)
    requires k <= |cfgs|
    ensures var r := LastMatch(cfgs, c, k);
      (r.Some? ==> r.value < k && cfgs[r.value] == c && forall j :: r.value < j < k ==> cfgs[j] != c) &&
      (r.None? <==> forall j :: 0 <= j < k ==> cfgs[j] != c)
  {
    if k > 0 && cfgs[k - 1] != c {
      LastMatchIsLast(cfgs, c, k - 1);
    }
  }

  /**
   * The scan of AddLayer: the processing layer of the last colour layer whose processing
   * layer is Similar to `process`, or null when there is none.
   */
  method FindSimilar(process: ProcessLayer, ls: seq<ColorLayer>) returns (p: ProcessLayer?)
    ensures var k := LastMatch(Configs(Refs(ls)), process.cfg, |ls|);
      if k.Some? then k.value < |ls| && p == ls[k.value].calcdata else p == null
  {
    ghost var cfgs := Configs(Refs(ls));
    p := null;
    var i := 0;
    while i < |ls|
      invariant 0 <= i <= |ls|
      invariant var k := LastMatch(cfgs, process.cfg, i);
        if k.Some? then k.value < |ls| && p == ls[k.value].calcdata else p == null
    {
      if process.Similar(ls[i].calcdata) {
        p := ls[i].calcdata;
      }
      i := i + 1;
    }
  }

  class ColoredMandel {
    /** The Mandel part of the object: the view, the processing layers, the calculator. */
    const base: Drawing.Mandel
    var layers: seq<ColorLayer>
    var inscol: Colors.ColorValue
    var outcol: Colors.ColorValue

    /** Every colour layer reads one of the driver's processing layers. */
    predicate Valid()
      reads this, base
    {
      base.Valid() && Colors.Valid(inscol) && Colors.Valid(outcol) &&
      forall i :: 0 <= i < |layers| ==> layers[i].calcdata in base.layerData
    }

    /** No colour layers, inside black, outside white. */
    constructor (listHash: int, hasFactory: bool)
      ensures Valid() && fresh(base) && layers == []
      ensures base.layerData == [] && base.listHash == listHash && base.hasFactory == hasFactory
      ensures inscol == Colors.NewColor(true, 0.0, 0.0, 0.0) && outcol == Colors.NewColor(true, 1.0, 1.0, 1.0)
    {
      base := new Drawing.Mandel(listHash, hasFactory);
      layers := [];
      inscol := Colors.NewColor(true, 0.0, 0.0, 0.0);
      outcol := Colors.NewColor(true, 1.0, 1.0, 1.0);
    }

    /** The InsideColor setter. */
    method SetInsideColor(c: Colors.ColorValue)
      requires Valid() && Colors.Valid(c)
      modifies this`inscol
      ensures Valid() && inscol == c
    {
      inscol := c;
    }

    /** The OutsideColor setter. */
    method SetOutsideColor(c: Colors.ColorValue)
      requires Valid() && Colors.Valid(c)
      modifies this`outcol
      ensures Valid() && outcol == c
    {
      outcol := c;
    }

    /**
     * AddLayer: marks the driver changed and appends the colour layer, bound to the
     * processing layer of the last colour layer whose configuration equals `process`'s;
     * when there is none, to a clone of `process` appended to the driver's layers.
     */
    method AddLayer(process: ProcessLayer, layer: ColorLayer)
      requires Valid()
      modifies this`layers, base`hasChanged, base`layerData
      ensures Valid() && base.hasChanged
      ensures |layers| == |old(layers)| + 1 && layers[..|old(layers)|] == old(layers)
      ensures layers[|old(layers)|].style == layer.style && layers[|old(layers)|].gr == layer.gr
      ensures var k := LastMatch(old(Configs(Refs(layers))), process.cfg, |old(layers)|);
        var p := layers[|old(layers)|].calcdata;
        (k.Some? ==> k.value < |old(layers)| && p == old(layers)[k.value].calcdata &&
                     base.layerData == old(base.layerData)) &&
        (k.None? ==> fresh(p) && base.layerData == old(base.layerData) + [p] &&
                     p.cfg == process.cfg && p.isDefault == process.isDefault && p.st == process.st)
    {
      ghost var k := LastMatch(Configs(Refs(layers)), process.cfg, |layers|);
      var p := FindSimilar(process, layers);
      base.hasChanged := true;
      if p != null {
        assert k.Some? && k.value < |layers| && p == layers[k.value].calcdata;
      } else {
        p := process.Clone();
        var ld := base.layerData;
        Layers.DistinctAppend(ld, p);
        base.layerData := ld + [p];
        assert forall i :: 0 <= i < |layers| ==> layers[i].calcdata in base.layerData;
      }
      var entry := layer.(calcdata := p);
      ReadsAppend(layers, entry, base.layerData);
      layers := layers + [entry];
    }

    /** ClearLayers: the colour layers go; the processing layers stay. */
    method ClearLayers()
      requires Valid()
      modifies this`layers
      ensures Valid() && layers == []
    {
      layers := [];
    }

    /**
     * DeleteLayer: removes colour layer a and nothing else; an index out of range throws
     * before anything changes (ok false).
     */
    method DeleteLayer(a: int) returns (ok: bool)
      requires Valid()
      modifies this`layers
      ensures Valid()
      ensures ok <==> 0 <= a < |old(layers)|
      ensures ok ==> layers == old(layers)[..a] + old(layers)[a + 1..]
      ensures !ok ==> layers == old(layers)
    {
      if a < 0 || a >= |layers| {
        return false;
      }
      layers := layers[..a] + layers[a + 1..];
      ok := true;
    }

    /**
     * SwapLayers: exchanges colour layers a and b and nothing else; an index out of range
     * throws before anything changes (ok false).
     */
    method SwapLayers(a: int, b: int) returns (ok: bool)
      requires Valid()
      modifies this`layers
      ensures Valid()
      ensures ok <==> 0 <= a < |old(layers)| && 0 <= b < |old(layers)|
      ensures ok ==> |layers| == |old(layers)| && layers[a] == old(layers)[b] && layers[b] == old(layers)[a]
      ensures ok ==> forall i :: 0 <= i < |layers| && i != a && i != b ==> layers[i] == old(layers)[i]
      ensures !ok ==> layers == old(layers)
    {
      if a < 0 || a >= |layers| || b < 0 || b >= |layers| {
        return false;
      }
      var x := layers[a];
      layers := layers[a := layers[b]];
      layers := layers[b := x];
      ok := true;
    }

    /**
     * setDefaultLayer: clears the default flag of every processing layer a colour layer
     * reads, then sets it on the one colour layer a reads. An index out of range throws after
     * the clearing (ok false, no layer default). Processing layers no colour layer reads
     * keep their flag, and no other field changes.
     */
    method SetDefaultLayer(a: int) returns (ok: bool)
      requires Valid()
      modifies set l | l in layers :: l.calcdata
      ensures Valid()
      ensures ok <==> 0 <= a < |layers|
      ensures forall i :: 0 <= i < |layers| ==>
        layers[i].calcdata.isDefault == (ok && layers[i].calcdata == layers[a].calcdata)
      ensures forall i :: 0 <= i < |layers| ==>
        layers[i].calcdata.cfg == old(layers[i].calcdata.cfg) && layers[i].calcdata.st == old(layers[i].calcdata.st)
    {
      var i := 0;
      while i < |layers|
        invariant 0 <= i <= |layers|
        invariant forall j :: 0 <= j < i ==> !layers[j].calcdata.isDefault
        invariant forall j :: 0 <= j < |layers| ==>
          layers[j].calcdata.cfg == old(layers[j].calcdata.cfg) && layers[j].calcdata.st == old(layers[j].calcdata.st)
      {
        layers[i].calcdata.isDefault := false;
        i := i + 1;
      }
      if 0 <= a < |layers| {
        layers[a].calcdata.isDefault := true;
        ok := true;
      } else {
        ok := false;
      }
    }

    /** GetLayer: colour layer a, or None where the source throws. */
    method GetLayer(a: int) returns (r: Option<ColorLayer>)
      ensures r.Some? <==> 0 <= a < |layers|
      ensures r.Some? ==> r.value == layers[a]
    {
      if 0 <= a < |layers| {
        r := Some(layers[a]);
      } else {
        r := None;
      }
    }

    /**
     * PutPoint: the base point in the inside or outside colour, then the shade of every
     * colour layer that paints this kind of point, numbered from 1.
     */
    method PutPoint(m: MathLib, flags: int, x: int, y: int) returns (out: seq<Emitted>)
      requires Valid() && Stopped(Shots(layers))
      ensures out == Painted(m, Shots(layers), inscol, outcol, flags, x, y)
    {
      ghost var shots := Shots(layers);
      ShotsAt(layers);
      var inside := false;
      var i := 0;
      while i < |layers|
        invariant 0 <= i <= |layers|
        invariant inside <==> exists j :: 0 <= j < i && shots[j].data.isDefault && shots[j].data.st.isin
      {
        if layers[i].calcdata.isDefault && layers[i].calcdata.st.isin {
          inside := true;
        }
        i := i + 1;
      }
      var first := Emitted(0, flags, x, y, if inside then inscol else outcol);
      var rest := Shading(m, layers, shots, inside, flags, x, y);
      out := [first] + rest;
    }
  }

  /** The points the colour layers emit after the base point: the loop of PutPoint over c_layers. */
  method Shading(m: MathLib, ls: seq<ColorLayer>, ghost shots: seq<Shot>, inside: bool, flags: int, x: int, y: int)
    returns (rest: seq<Emitted>)
    requires |shots| == |ls| && Stopped(shots)
    requires forall i :: 0 <= i < |ls| ==> ShotOf(ls[i]) == shots[i]
    ensures rest == Layered(Types(shots), Shades(m, shots, inside), inside, flags, x, y, |ls|)
  {
    ghost var types, cols := Types(shots), Shades(m, shots, inside);
    var n := 0;
    rest := [];
    var i := 0;
    while i < |ls|
      invariant 0 <= i <= |ls| && n == i
      invariant rest == Layered(types, cols, inside, flags, x, y, i)
    {
      n := n + 1;
      var it := ls[i];
      if Paints(it.style.ltype, inside) {
        var c := LayerColour(m, it, inside);
        rest := rest + [Emitted(n, flags, x, y, c)];
      }
      i := i + 1;
    }
  }

  /**
   * The colour one painting layer emits: the datum mapped to a gradient position, the
   * extras of an outside point, the gradient lookup and the blend.
   */
  method LayerColour(m: MathLib, it: ColorLayer, inside: bool) returns (c: Colors.ColorValue)
    requires it.gr.Valid()
    ensures c == Shade(m, ShotOf(it), inside)
  {
    var s := it.style;
    var d := it.calcdata;
    var r := Datum(m, s, LayerValue(d.cfg, d.isDefault, d.st));
    var value := Fraction(m, s.interp, s.cycle, Clamped(r.bv, r.min, r.max, s.cycle), r.min, r.max);
    if !inside {
      var iter, nl := d.st.n as real, d.cfg.nlimit as real;
      var newalpha := Adjust(m, s.alphaextr, s.alpha, iter, nl);
      var newvalue := Adjust(m, s.valueextr, s.value, iter, nl);
      var newsaturation := Adjust(m, s.saturationextr, s.saturation, iter, nl);
      c := it.gr.GetPoint(value, s.cycle != 1.0);
      c := Colors.BlendSelf(c, newalpha, newsaturation, newvalue);
    } else {
      c := it.gr.GetPoint(value, s.cycle != 1.0);
      c := Colors.BlendSelf(c, s.alpha, s.value, s.saturation);
    }
  }
}
