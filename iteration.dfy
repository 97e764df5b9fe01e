/**
 * The iteration of one point by the interpreting engine
 * (CalcFractal in RestFract/Generators/SimpleCalculatorFactory.cs), as functions on values:
 * the fractal step, the shared aggregates of the sequence, the per-layer step (value source,
 * check value, check-sequence fold, escape test, iteration limit and finish), and the whole
 * run of a point. SimpleEngine runs the same iteration in place on the layer objects.
 */
module Iteration {
  import opened ComplexMath
  import opened Flags
  import opened Layers
  import opened Wrappers
  import Binary

  /** Everything a point's iteration depends on besides the layers. */
  datatype PointContext = PointContext(
    lib: MathLib,
    fractaltype: FractalType,
    code: Option<Formula>,
    c: Complex,
    param: real,
    modes: SeqType,
    trinorm: real)

  /** `fractdiv`: only the CONVERGENT type stops layers whose test falls below the bailout. */
  predicate Divergent(ft: FractalType) {
    ft != FRACTAL_CONVERGENT
  }

  function Max0(k: int): nat {
    if k < 0 then 0 else k
  }

  /** The fractal types whose step the engines know. */
  const KnownTypes := {FRACTAL_MANDEL, FRACTAL_MANDEL_N, FRACTAL_BURNINGSHIP, FRACTAL_BURNINGSHIP_N,
                       FRACTAL_DIVERGENT, FRACTAL_CONVERGENT}

  /**
   * One step of the iteration formula from `x`; `prev` is the value computed by the
   * previous step, which the formula types keep when no formula was compiled.
   */
  function FractalStep(ctx: PointContext, x: Complex, prev: Complex, n: int): (r: Complex)
    ensures (ctx.fractaltype == FRACTAL_DIVERGENT || ctx.fractaltype == FRACTAL_CONVERGENT) && ctx.code.None? ==> r == prev
    ensures ctx.fractaltype !in KnownTypes ==> r == x
  {
    var ft := ctx.fractaltype;
    if ft == FRACTAL_MANDEL then FractalMandel(x, ctx.c)
    else if ft == FRACTAL_MANDEL_N then FractalMandelN(ctx.lib, x, ctx.c, ctx.param)
    else if ft == FRACTAL_BURNINGSHIP then FractalBurningShip(x, ctx.c)
    else if ft == FRACTAL_BURNINGSHIP_N then FractalBurningShipN(ctx.lib, x, ctx.c, ctx.param)
    else if ft == FRACTAL_DIVERGENT || ft == FRACTAL_CONVERGENT then
      (match ctx.code
       case Some(f) => f(x, ctx.c, n as real, ctx.param)
       case None => prev)
    else x
  }

  /** The shared sequences derived from the iterates: sumx ... deltax. */
  datatype Aggregates = Aggregates(
    sumx: Complex, meanx: Complex, varsx: Complex, variacex: Complex,
    sdx: Complex, minx: Complex, maxx: Complex, deltax: Complex)

  const NoAggregates := Aggregates(Zero, Zero, Zero, Zero, Zero, Zero, Zero, Zero)

  /** Welford's update of the mean and of the sum of squared deviations (and what depends on it). */
  function UpdateMoments(lib: MathLib, modes: SeqType, a: Aggregates, newx: Complex, n: int): Aggregates
    requires n >= 1
  {
    if !HasFlag(modes, SEQ_MEAN) then a
    else
      var delta := Sub(newx, a.meanx);
      var meanx := Add(a.meanx, Scale(delta, n as real));
      if !HasFlag(modes, SEQ_VARSX) then a.(meanx := meanx)
      else
        var varsx := Add(a.varsx, Mul(delta, Sub(newx, meanx)));
        if !HasFlag(modes, SEQ_VARIANCE) || n == 1 then a.(meanx := meanx, varsx := varsx)
        else
          var variacex := Scale(varsx, (n - 1) as real);
          var sdx := if HasFlag(modes, SEQ_STDDEV) then lib.csqrt(variacex) else a.sdx;
          a.(meanx := meanx, varsx := varsx, variacex := variacex, sdx := sdx)
  }

  /** The aggregates after the n-th iterate `newx` (computed from `x`). */
  function UpdateAggregates(lib: MathLib, modes: SeqType, a: Aggregates, newx: Complex, x: Complex, n: int): (r: Aggregates)
    requires n >= 1
    ensures modes == {} ==> r == a
    ensures HasFlag(modes, SEQ_MIN) && n == 1 ==> r.minx == newx
    ensures HasFlag(modes, SEQ_MIN) && n > 1 ==>
      (r.minx == newx || r.minx == a.minx) &&
      lib.magnitude(r.minx) <= lib.magnitude(newx) && lib.magnitude(r.minx) <= lib.magnitude(a.minx)
    ensures HasFlag(modes, SEQ_MAX) && n == 1 ==> r.maxx == newx
    ensures HasFlag(modes, SEQ_MAX) && n > 1 ==>
      (r.maxx == newx || r.maxx == a.maxx) &&
      lib.magnitude(r.maxx) >= lib.magnitude(newx) && lib.magnitude(r.maxx) >= lib.magnitude(a.maxx)
  {
    var m := UpdateMoments(lib, modes, a, newx, n);
    var sumx := if HasFlag(modes, SEQ_SUM) then Add(a.sumx, newx) else a.sumx;
    var minx :=
      if !HasFlag(modes, SEQ_MIN) then a.minx
      else if n == 1 then newx
      else if lib.magnitude(newx) < lib.magnitude(a.minx) then newx else a.minx;
    var maxx :=
      if !HasFlag(modes, SEQ_MAX) then a.maxx
      else if n == 1 then newx
      else if lib.magnitude(newx) > lib.magnitude(a.maxx) then newx else a.maxx;
    var deltax := if HasFlag(modes, SEQ_DELTA) then Sub(newx, x) else a.deltax;
    m.(sumx := sumx, minx := minx, maxx := maxx, deltax := deltax)
  }

  /** Which sequence a layer follows, chosen by its exact sequence type. */
  datatype ValueSource = FromNew | FromSum | FromMean | FromVarsx | FromVariance | FromStddev | FromMin | FromMax | FromDelta

  function SourceOf(seqtype: SeqType): ValueSource {
    if seqtype == SEQ_NORMAL then FromNew
    else if seqtype == SEQ_SUM then FromSum
    else if seqtype == SEQ_MEAN then FromMean
    else if seqtype == SEQ_VARSX then FromVarsx
    else if seqtype == SEQ_VARIANCE then FromVariance
    else if seqtype == SEQ_STDDEV then FromStddev
    else if seqtype == SEQ_MIN then FromMin
    else if seqtype == SEQ_MAX then FromMax
    else if seqtype == SEQ_DELTA then FromDelta
    else FromNew
  }

  function Pick(src: ValueSource, a: Aggregates, newx: Complex): Complex {
    match src
    case FromNew => newx
    case FromSum => a.sumx
    case FromMean => a.meanx
    case FromVarsx => a.varsx
    case FromVariance => a.variacex
    case FromStddev => a.sdx
    case FromMin => a.minx
    case FromMax => a.maxx
    case FromDelta => a.deltax
  }

  /**
   * Which check value a layer computes, decided from its configuration, the direction of the
   * fractal type and whether the type is MANDEL. An unknown check type, NORMAL and an unknown
   * trap shape compute nothing (the value stays 0).
   */
  datatype CheckKind =
    | NoCheck
    | Smooth(divergent: bool)
    | RealPart | ImagPart | Argument | Modulus
    | Curvature
    | Triangle(mandel: bool)
    | TrapPoint | TrapLine(realAxis: bool) | TrapGauss

  function CheckKindOf(cfg: LayerConfig, divergent: bool, mandel: bool): CheckKind {
    var ct := cfg.checktype;
    if ct == CHECK_SMOOTH then Smooth(divergent)
    else if ct == CHECK_REAL then RealPart
    else if ct == CHECK_IMAG then ImagPart
    else if ct == CHECK_ARG then Argument
    else if ct == CHECK_ABS then Modulus
    else if ct == CHECK_CURVATURE then Curvature
    else if ct == CHECK_TRIANGLE || ct == CHECK_TRIANGLE_SMOOTH then Triangle(mandel)
    else if ct == CHECK_ORBIT_TRAP then
      (if cfg.orbittraptype == TRAP_POINT then TrapPoint
       else if cfg.orbittraptype == TRAP_LINE then TrapLine(cfg.pointA.re == 1.0)
       else if cfg.orbittraptype == TRAP_GAUSS then TrapGauss
       else NoCheck)
    else NoCheck
  }

  /** The triangle-inequality ratio; a zero denominator gives 0. */
  function TriangleRatio(top: real, xnorm: real, trinorm: real): real {
    var lowbound := AbsVal(xnorm - trinorm);
    if xnorm + trinorm - lowbound == 0.0 then 0.0
    else (top - lowbound) / (xnorm + trinorm - lowbound)
  }

  /** `newd`: the check value of a layer whose history has just been shifted. */
  function CheckValue(ctx: PointContext, kind: CheckKind, pointA: Complex, s: LayerState): real {
    var lib := ctx.lib;
    match kind
    case NoCheck => 0.0
    case Smooth(div) =>
      if div then lib.exp(-lib.magnitude(s.x)) else lib.exp(-lib.magnitude(Sub(s.x, s.oldx)))
    case RealPart => s.x.re
    case ImagPart => s.x.im
    case Argument => lib.phase(s.x)
    case Modulus => lib.magnitude(s.x)
    case Curvature =>
      if s.oldx != s.old2x then lib.magnitude(lib.catan(Div(Sub(s.x, s.oldx), Sub(s.oldx, s.old2x))))
      else 0.0
    case Triangle(mandel) =>
      if mandel then TriangleRatio(lib.magnitude(s.x), Norm(s.oldx), ctx.trinorm)
      else TriangleRatio(lib.magnitude(Sub(s.x, ctx.c)), lib.magnitude(s.x), ctx.trinorm)
    case TrapPoint => lib.magnitude(Sub(s.x, pointA))
    case TrapLine(realAxis) => if realAxis then AbsVal(s.x.re) else AbsVal(s.x.im)
    case TrapGauss => lib.magnitude(Sub(Complex(lib.round(s.x.re), lib.round(s.x.im)), s.x))
  }

  /** The Welford update of c_cmean and c_cvarsx by the check value `d` at step s.n. */
  function Welford(s: LayerState, d: real): (r: LayerState)
    requires s.n >= 1
    ensures r == s.(cmean := r.cmean, cvarsx := r.cvarsx)
    ensures r.cmean * s.n as real == s.cmean * (s.n as real - 1.0) + d
  {
    var delta := d - s.cmean;
    var cmean := s.cmean + delta / s.n as real;
    s.(cmean := cmean, cvarsx := s.cvarsx + delta * (d - cmean))
  }

  /** How c_calc folds the check values, chosen by the exact check-sequence type. */
  function FoldCheck(lib: MathLib, fold: SeqType, s: LayerState, d: real): (r: LayerState)
    requires s.n >= 1
    ensures r.active == s.active && r.isin == s.isin && r.n == s.n
    ensures r.x == s.x && r.oldx == s.oldx && r.old2x == s.old2x
    ensures r.resn == s.resn || r.resn == s.n
  {
    if fold == SEQ_NORMAL then s.(calcValue := d)
    else if fold == SEQ_SUM || fold == SEQ_MEAN then s.(calcValue := s.calcValue + d)
    else if fold == SEQ_VARSX then
      var delta := d - s.cmean;
      var cmean := s.cmean + delta / s.n as real;
      s.(cmean := cmean, calcValue := s.calcValue + delta * (d - cmean))
    else if fold == SEQ_VARIANCE then
      var w := Welford(s, d);
      if s.n != 1 then w.(calcValue := w.cvarsx / (s.n as real - 1.0)) else w
    else if fold == SEQ_STDDEV then
      var w := Welford(s, d);
      var v := if s.n != 1 then w.cvarsx / (s.n as real - 1.0) else w.cvariance;
      w.(cvariance := v, calcValue := lib.sqrt(v))
    else if fold == SEQ_MIN then
      if s.n == 1 then s.(calcValue := d)
      else if s.calcValue > d then s.(calcValue := d, resx := s.x, resn := s.n)
      else s
    else if fold == SEQ_MAX then
      if s.n == 1 then s.(calcValue := d)
      else if s.calcValue < d then s.(calcValue := d, resx := s.x, resn := s.n)
      else s
    else if fold == SEQ_DELTA then s.(calcValue := d - s.calcValue)
    else s.(calcValue := d)
  }

  /** The escape test of a layer's value against its bailout, in the direction of the type. */
  function Escapes(conv: ConvCheck, x: Complex, bailout: real, divergent: bool): bool {
    var re2, im2 := x.re * x.re, x.im * x.im;
    if conv == CONVCHK_REAL then Beyond(re2, bailout, divergent)
    else if conv == CONVCHK_IMAG then Beyond(im2, bailout, divergent)
    else if conv == CONVCHK_OR then Beyond(re2, bailout, divergent) || Beyond(im2, bailout, divergent)
    else if conv == CONVCHK_AND then Beyond(re2, bailout, divergent) && Beyond(im2, bailout, divergent)
    else if conv == CONVCHK_MANH then
      var m := AbsVal(x.im) + AbsVal(x.re);
      Beyond(m * m, bailout, divergent)
    else if conv == CONVCHK_MANR then
      var m := x.re + x.im;
      Beyond(m * m, bailout, divergent)
    else Beyond(Norm(x), bailout, divergent)
  }

  /** A divergent type escapes sooner with a smaller bailout, a convergent one with a larger. */
  lemma EscapesMonotone(conv: ConvCheck, x: Complex, b1: real, b2: real)
    requires b1 <= b2
    ensures Escapes(conv, x, b2, true) ==> Escapes(conv, x, b1, true)
    ensures Escapes(conv, x, b1, false) ==> Escapes(conv, x, b2, false)
  {
  }

  /** The check value reads only the layer's history, never its statistics or counters. */
  lemma CheckValueReadsHistory(ctx: PointContext, kind: CheckKind, pointA: Complex, s: LayerState, t: LayerState)
    requires s.x == t.x && s.oldx == t.oldx && s.old2x == t.old2x
    ensures CheckValue(ctx, kind, pointA, s) == CheckValue(ctx, kind, pointA, t)
  {
  }

  /** Above the bailout for a divergent type, below it for a convergent one. */
  predicate Beyond(d: real, bailout: real, divergent: bool) {
    if divergent then d > bailout else d < bailout
  }

  /** Every escape test of the origin fails for a divergent type with a positive bailout. */
  lemma OriginNeverEscapes(conv: ConvCheck, bailout: real)
    requires bailout > 0.0
    ensures !Escapes(conv, Zero, bailout, true)
  {
    assert Zero.re * Zero.re == 0.0 && Zero.im * Zero.im == 0.0;
    assert AbsVal(Zero.im) + AbsVal(Zero.re) == 0.0;
    assert Zero.re + Zero.im == 0.0;
  }

  /**
   * The finish of a layer that has just stopped. A smooth-triangle layer that escaped takes
   * two further Mandelbrot steps, adding the triangle ratio of each to its sum, and blends the
   * mean before and after them by the fractional escape count; one that stayed inside divides
   * its sum by n+1. A MEAN check-sequence layer divides its sum by n+1.
   */
  function Finish(ctx: PointContext, cfg: LayerConfig, s: LayerState): (r: LayerState)
    requires s.n >= 1
    ensures r.active == s.active && r.isin == s.isin && r.resn == s.resn
    ensures r.n == s.n || (!s.active && !s.isin && cfg.checktype == CHECK_TRIANGLE_SMOOTH && r.n == s.n + 2)
  {
    if s.active then s
    else if cfg.checktype == CHECK_TRIANGLE_SMOOTH then
      if !s.isin then SmoothTriangleFinish(ctx, cfg.bailout, s)
      else s.(calcValue := s.calcValue / (s.n + 1) as real)
    else if cfg.checkseqtype == SEQ_MEAN then s.(calcValue := s.calcValue / (s.n + 1) as real)
    else s
  }

  function SmoothTriangleFinish(ctx: PointContext, bailout: real, s: LayerState): (r: LayerState)
    requires s.n >= 1
    ensures r.n == s.n + 2 && r.oldx == FractalMandel(s.x, ctx.c) && r.x == FractalMandel(r.oldx, ctx.c)
    ensures r.active == s.active && r.isin == s.isin && r.resn == s.resn
  {
    var lib := ctx.lib;
    var x1 := FractalMandel(s.x, ctx.c);
    var n1 := s.n + 1;
    var calc1 := s.calcValue + TriangleRatio(lib.magnitude(x1), Norm(s.x), ctx.trinorm);
    var oldsum := calc1 / (n1 + 1) as real;
    var il2 := Recip(lib.log(2.0));
    var f := il2 * lib.log(lib.log(bailout)) - il2 * lib.log(lib.log(lib.magnitude(x1))) + 2.0;
    var x2 := FractalMandel(x1, ctx.c);
    var calc2 := calc1 + TriangleRatio(lib.magnitude(x2), Norm(x1), ctx.trinorm);
    var n2 := n1 + 1;
    var mean2 := calc2 / (n2 + 1) as real;
    s.(oldx := x1, x := x2, n := n2, calcValue := oldsum + (mean2 - oldsum) * (f - 1.0))
  }

  /** The n-th step of one active layer, given the n-th iterate and the aggregates. */
  function StepLayer(ctx: PointContext, cfg: LayerConfig, s: LayerState, n: int, a: Aggregates, newx: Complex): (r: LayerState)
    requires n >= 1
    ensures r.isin <==> s.isin || n > cfg.nlimit
    ensures r.active ==> s.active && n <= cfg.nlimit
    ensures n > cfg.nlimit ==> !r.active
    ensures r.n == n || (cfg.checktype == CHECK_TRIANGLE_SMOOTH && !r.active && !r.isin && r.n == n + 2)
    ensures r.resn == s.resn || r.resn == n
  {
    var divergent := Divergent(ctx.fractaltype);
    var s1 := s.(n := n, old2x := s.oldx, oldx := s.x, x := Pick(SourceOf(cfg.seqtype), a, newx));
    var d := CheckValue(ctx, CheckKindOf(cfg, divergent, ctx.fractaltype == FRACTAL_MANDEL), cfg.pointA, s1);
    var s2 := FoldCheck(ctx.lib, cfg.checkseqtype, s1, d);
    var s3 := if Escapes(cfg.convchktype, s2.x, cfg.bailout, divergent) then s2.(active := false) else s2;
    var s4 := if n > cfg.nlimit then s3.(active := false, isin := true) else s3;
    Finish(ctx, cfg, s4)
  }

  /** One pass over the layers: every active layer steps, every stopped layer is left alone. */
  function StepAll(ctx: PointContext, cfgs: seq<LayerConfig>, sts: seq<LayerState>, n: int, a: Aggregates, newx: Complex): (r: seq<LayerState>)
    requires n >= 1 && |cfgs| == |sts|
    ensures |r| == |sts|
    ensures forall i :: 0 <= i < |sts| ==>
      r[i] == if sts[i].active then StepLayer(ctx, cfgs[i], sts[i], n, a, newx) else sts[i]
  {
    seq(|sts|, i requires 0 <= i < |sts| =>
      if sts[i].active then StepLayer(ctx, cfgs[i], sts[i], n, a, newx) else sts[i])
  }

  /** What a point's run leaves: the layer states and the number of iterations taken. */
  datatype PointResult = PointResult(layers: seq<LayerState>, iterations: nat)

  /**
   * The loop of CalcFractal from iteration n on: step the formula, the aggregates and the
   * layers, and stop once the default layer `d` is inactive.
   */
  function RunFrom(ctx: PointContext, cfgs: seq<LayerConfig>, d: nat, sts: seq<LayerState>,
                   x: Complex, newx: Complex, a: Aggregates, n: nat): (r: PointResult)
    requires |cfgs| == |sts| && d < |sts|
    requires n <= Max0(cfgs[d].nlimit)
    ensures |r.layers| == |sts|
    ensures !r.layers[d].active && n < r.iterations <= Max0(cfgs[d].nlimit) + 1
    decreases Max0(cfgs[d].nlimit) - n
  {
    var n1 := n + 1;
    var nx := FractalStep(ctx, x, newx, n1);
    var a1 := UpdateAggregates(ctx.lib, ctx.modes, a, nx, x, n1);
    var sts1 := StepAll(ctx, cfgs, sts, n1, a1, nx);
    if !sts1[d].active then PointResult(sts1, n1)
    else RunFrom(ctx, cfgs, d, sts1, nx, nx, a1, n1)
  }

  /** The sequence types of the first i layers or-ed together (`modesused`). */
  function ModesUpTo(cfgs: seq<LayerConfig>, i: nat): SeqType
    requires i <= |cfgs|
  {
    if i == 0 then {} else ModesUpTo(cfgs, i - 1) + cfgs[i - 1].seqtype
  }

  /** The modes a point's aggregates are kept for: every layer's sequence type, closed. */
  function PointModes(cfgs: seq<LayerConfig>): SeqType {
    CloseModes(ModesUpTo(cfgs, |cfgs|))
  }

  /** The or of the layers' sequence types holds exactly the flags some layer has. */
  lemma {:induction false} ModesUpToExact(cfgs: seq<LayerConfig>, i: nat)
    requires i <= |cfgs|
    ensures forall j :: 0 <= j < i ==> cfgs[j].seqtype <= ModesUpTo(cfgs, i)
    ensures forall k :: k in ModesUpTo(cfgs, i) ==> exists j :: 0 <= j < i && k in cfgs[j].seqtype
  {
    if i > 0 {
      ModesUpToExact(cfgs, i - 1);
    }
  }

  /** The mode set of a point is closed under the dependency rule, holds every layer's
      sequence type, and adds nothing but what the rule demands. */
  lemma PointModesClosed(cfgs: seq<LayerConfig>)
    ensures ClosedModes(PointModes(cfgs))
    ensures forall j :: 0 <= j < |cfgs| ==> HasFlag(PointModes(cfgs), cfgs[j].seqtype)
    ensures forall k :: k in PointModes(cfgs) && k !in SEQ_MEAN + SEQ_VARSX + SEQ_VARIANCE ==>
      exists j :: 0 <= j < |cfgs| && k in cfgs[j].seqtype
  {
    ModesUpToExact(cfgs, |cfgs|);
  }

  predicate IsTriangle(ct: SeqCheck) {
    HasFlag(ct, CHECK_TRIANGLE) || HasFlag(ct, CHECK_TRIANGLE_SMOOTH)
  }

  /** Some layer among the first i has the TRIANGLE or the TRIANGLE_SMOOTH flag. */
  predicate TriangleUpTo(cfgs: seq<LayerConfig>, i: nat)
    requires i <= |cfgs|
  {
    i > 0 && (TriangleUpTo(cfgs, i - 1) || IsTriangle(cfgs[i - 1].checktype))
  }

  predicate HasTriangle(cfgs: seq<LayerConfig>) {
    TriangleUpTo(cfgs, |cfgs|)
  }

  lemma {:induction false} TriangleUpToExists(cfgs: seq<LayerConfig>, i: nat)
    requires i <= |cfgs|
    ensures TriangleUpTo(cfgs, i) <==> exists j :: 0 <= j < i && IsTriangle(cfgs[j].checktype)
  {
    if i > 0 {
      TriangleUpToExists(cfgs, i - 1);
    }
  }

  /** `trinorm`: |c| for MANDEL, norm(c) otherwise, 0 when no layer needs it. */
  function TriNorm(lib: MathLib, ft: FractalType, c: Complex, hastriangle: bool): real {
    if !hastriangle then 0.0
    else if ft == FRACTAL_MANDEL then lib.magnitude(c)
    else Norm(c)
  }

  function ContextFor(lib: MathLib, ft: FractalType, code: Option<Formula>, cfgs: seq<LayerConfig>, c: Complex, param: real): PointContext {
    PointContext(lib, ft, code, c, param, PointModes(cfgs), TriNorm(lib, ft, c, HasTriangle(cfgs)))
  }

  function ResetAll(sts: seq<LayerState>, x: Complex): (r: seq<LayerState>)
    ensures |r| == |sts| && forall i :: 0 <= i < |sts| ==> r[i] == Reset(sts[i], x)
  {
    seq(|sts|, i requires 0 <= i < |sts| => Reset(sts[i], x))
  }

  /**
   * The whole of CalcFractal for a point started at x with constant c, once the default
   * layer is known to be the layer at index d: reset every layer, then iterate.
   */
  function RunPoint(lib: MathLib, ft: FractalType, code: Option<Formula>, cfgs: seq<LayerConfig>,
                    sts: seq<LayerState>, d: nat, x: Complex, c: Complex, param: real): (r: PointResult)
    requires |cfgs| == |sts| && d < |sts|
    ensures |r.layers| == |sts|
    ensures !r.layers[d].active && 1 <= r.iterations <= Max0(cfgs[d].nlimit) + 1
  {
    RunFrom(ContextFor(lib, ft, code, cfgs, c, param), cfgs, d, ResetAll(sts, x), x, x, NoAggregates, 0)
  }

  /** The last of the first i layers marked default, if any (the reset loop's `deflayer`). */
  function DefaultUpTo(defaults: seq<bool>, i: nat): (r: Option<nat>)
    requires i <= |defaults|
    ensures r.Some? ==> r.value < i
  {
    if i == 0 then None else if defaults[i - 1] then Some(i - 1) else DefaultUpTo(defaults, i - 1)
  }

  /** The layer that decides when a point stops: the last layer marked default. */
  function LastDefault(defaults: seq<bool>): (r: Option<nat>)
    ensures r.Some? ==> r.value < |defaults|
  {
    DefaultUpTo(defaults, |defaults|)
  }

  lemma {:induction false} LastDefaultIsLast(defaults: seq<bool>, i: nat)
    requires i <= |defaults|
    ensures var r := DefaultUpTo(defaults, i);
      (r.Some? ==> defaults[r.value] && forall j :: r.value < j < i ==> !defaults[j]) &&
      (r.None? <==> forall j :: 0 <= j < i ==> !defaults[j])
  {
    if i > 0 {
      LastDefaultIsLast(defaults, i - 1);
    }
  }

  const NoDefaultLayer := "No default layer found"

  /**
   * The outcome of CalcFractal for one point: with no default layer the layers are still reset
   * and the point fails with NoDefaultLayer; otherwise the layers are those the run leaves.
   */
  function CalcPoint(lib: MathLib, ft: FractalType, code: Option<Formula>, cfgs: seq<LayerConfig>,
                     sts: seq<LayerState>, d: Option<nat>, x: Complex, c: Complex, param: real): (r: (Option<string>, seq<LayerState>))
    requires |cfgs| == |sts| && (d.Some? ==> d.value < |sts|)
    ensures |r.1| == |sts|
    ensures r.0.Some? <==> d.None?
    ensures d.None? ==> r.0 == Some(NoDefaultLayer) && r.1 == ResetAll(sts, x)
  {
    match d
    case None => (Some(NoDefaultLayer), ResetAll(sts, x))
    case Some(k) => (None, RunPoint(lib, ft, code, cfgs, sts, k, x, c, param).layers)
  }

  // ---------------------------------------------------------------------------------------
  // Properties of a point's run

  /** What holds of every layer between iterations (n iterations done). */
  predicate LayerInv(cfg: LayerConfig, s: LayerState, n: nat) {
    (s.active ==> !s.isin && (n == 0 || (s.n == n && n <= cfg.nlimit))) &&
    (s.isin ==> !s.active && s.n == Max0(cfg.nlimit) + 1)
  }

  predicate AllInv(cfgs: seq<LayerConfig>, sts: seq<LayerState>, n: nat)
    requires |cfgs| == |sts|
  {
    forall i :: 0 <= i < |sts| ==> LayerInv(cfgs[i], sts[i], n)
  }

  lemma StepAllKeepsInv(ctx: PointContext, cfgs: seq<LayerConfig>, sts: seq<LayerState>, n: nat, a: Aggregates, newx: Complex)
    requires |cfgs| == |sts| && AllInv(cfgs, sts, n)
    ensures AllInv(cfgs, StepAll(ctx, cfgs, sts, n + 1, a, newx), n + 1)
  {
    var r := StepAll(ctx, cfgs, sts, n + 1, a, newx);
    forall i | 0 <= i < |sts|
      ensures LayerInv(cfgs[i], r[i], n + 1)
    {
      assert LayerInv(cfgs[i], sts[i], n);
    }
  }

  lemma {:induction false} RunFromKeepsInv(ctx: PointContext, cfgs: seq<LayerConfig>, d: nat, sts: seq<LayerState>,
                                           x: Complex, newx: Complex, a: Aggregates, n: nat)
    requires |cfgs| == |sts| && d < |sts| && n <= Max0(cfgs[d].nlimit)
    requires AllInv(cfgs, sts, n)
    ensures var r := RunFrom(ctx, cfgs, d, sts, x, newx, a, n);
      AllInv(cfgs, r.layers, r.iterations) && !r.layers[d].active && n < r.iterations
    decreases Max0(cfgs[d].nlimit) - n
  {
    var n1 := n + 1;
    var nx := FractalStep(ctx, x, newx, n1);
    var a1 := UpdateAggregates(ctx.lib, ctx.modes, a, nx, x, n1);
    StepAllKeepsInv(ctx, cfgs, sts, n, a1, nx);
    var sts1 := StepAll(ctx, cfgs, sts, n1, a1, nx);
    if sts1[d].active {
      RunFromKeepsInv(ctx, cfgs, d, sts1, nx, nx, a1, n1);
    }
  }

  /**
   * After a point's run the default layer has stopped, the run took between 1 and
   * nlimit+1 iterations of the default layer, every layer still active took every one of
   * them, and every layer found inside took exactly nlimit+1 (at least 1) iterations.
   */
  lemma RunPointOutcome(lib: MathLib, ft: FractalType, code: Option<Formula>, cfgs: seq<LayerConfig>,
                        sts: seq<LayerState>, d: nat, x: Complex, c: Complex, param: real)
    requires |cfgs| == |sts| && d < |sts|
    ensures var r := RunPoint(lib, ft, code, cfgs, sts, d, x, c, param);
      !r.layers[d].active &&
      1 <= r.iterations <= Max0(cfgs[d].nlimit) + 1 &&
      (forall i :: 0 <= i < |sts| && r.layers[i].active ==> r.layers[i].n == r.iterations) &&
      (forall i :: 0 <= i < |sts| && r.layers[i].isin ==> !r.layers[i].active && r.layers[i].n == Max0(cfgs[i].nlimit) + 1)
  {
    var ctx := ContextFor(lib, ft, code, cfgs, c, param);
    var s0 := ResetAll(sts, x);
    assert AllInv(cfgs, s0, 0);
    RunFromKeepsInv(ctx, cfgs, d, s0, x, x, NoAggregates, 0);
    RunFromBound(ctx, cfgs, d, s0, x, x, NoAggregates, 0);
    var r := RunFrom(ctx, cfgs, d, s0, x, x, NoAggregates, 0);
    forall i | 0 <= i < |sts| && r.layers[i].active
      ensures r.layers[i].n == r.iterations
    {
      assert LayerInv(cfgs[i], r.layers[i], r.iterations);
    }
  }

  lemma {:induction false} RunFromBound(ctx: PointContext, cfgs: seq<LayerConfig>, d: nat, sts: seq<LayerState>,
                                        x: Complex, newx: Complex, a: Aggregates, n: nat)
    requires |cfgs| == |sts| && d < |sts| && n <= Max0(cfgs[d].nlimit)
    ensures RunFrom(ctx, cfgs, d, sts, x, newx, a, n).iterations <= Max0(cfgs[d].nlimit) + 1
    decreases Max0(cfgs[d].nlimit) - n
  {
    var n1 := n + 1;
    var nx := FractalStep(ctx, x, newx, n1);
    var a1 := UpdateAggregates(ctx.lib, ctx.modes, a, nx, x, n1);
    var sts1 := StepAll(ctx, cfgs, sts, n1, a1, nx);
    if sts1[d].active {
      RunFromBound(ctx, cfgs, d, sts1, nx, nx, a1, n1);
    }
  }

  /** A layer that has stopped is never touched again by the rest of the run. */
  lemma {:induction false} StoppedLayersFrozen(ctx: PointContext, cfgs: seq<LayerConfig>, d: nat, sts: seq<LayerState>,
                                               x: Complex, newx: Complex, a: Aggregates, n: nat, i: nat)
    requires |cfgs| == |sts| && d < |sts| && n <= Max0(cfgs[d].nlimit)
    requires i < |sts| && !sts[i].active
    ensures RunFrom(ctx, cfgs, d, sts, x, newx, a, n).layers[i] == sts[i]
    decreases Max0(cfgs[d].nlimit) - n
  {
    var n1 := n + 1;
    var nx := FractalStep(ctx, x, newx, n1);
    var a1 := UpdateAggregates(ctx.lib, ctx.modes, a, nx, x, n1);
    var sts1 := StepAll(ctx, cfgs, sts, n1, a1, nx);
    assert sts1[i] == sts[i];
    if sts1[d].active {
      StoppedLayersFrozen(ctx, cfgs, d, sts1, nx, nx, a1, n1, i);
      assert RunFrom(ctx, cfgs, d, sts, x, newx, a, n) == RunFrom(ctx, cfgs, d, sts1, nx, nx, a1, n1);
    } else {
      assert RunFrom(ctx, cfgs, d, sts, x, newx, a, n) == PointResult(sts1, n1);
    }
  }

  /**
   * The iteration counter of the source is a C# int, which the model's counter is not. As
   * written, the k-th increment leaves Wrap32(k) in it; that value never exceeds int.MaxValue,
   * so with c_nlimit = int.MaxValue the test `c_n > c_nlimit` never fires, and the increment
   * after int.MaxValue gives int.MinValue.
   */
  lemma CounterAsWritten(k: nat)
    ensures !(Binary.Wrap32(k) > 0x7fff_ffff)
    ensures Binary.Wrap32(0x7fff_ffff + 1) == -0x8000_0000
  {
  }

  /**
   * Below int.MaxValue the C# counter is the model's: every count the run reaches, up to
   * nlimit + 1, fits in an int, so RunFromBound and RunPointOutcome hold of the source too.
   */
  lemma CounterExactBelowMax(nlimit: int, k: nat)
    requires nlimit < 0x7fff_ffff && k <= Max0(nlimit) + 1
    ensures Binary.Wrap32(k) == k
  {
  }

  /**
   * The origin of the Mandelbrot set is inside: started at 0 with c = 0, a default layer that
   * follows the plain sequence with a positive bailout never escapes, so it stops only at its
   * iteration limit, marked inside, after exactly nlimit+1 iterations.
   */
  lemma OriginIsInside(lib: MathLib, code: Option<Formula>, cfgs: seq<LayerConfig>,
                       sts: seq<LayerState>, d: nat, param: real)
    requires |cfgs| == |sts| && d < |sts|
    requires cfgs[d].seqtype == SEQ_NORMAL && cfgs[d].bailout > 0.0 && cfgs[d].nlimit >= 0
    ensures var r := RunPoint(lib, FRACTAL_MANDEL, code, cfgs, sts, d, Zero, Zero, param);
      r.layers[d].isin && r.layers[d].n == cfgs[d].nlimit + 1 && r.iterations == cfgs[d].nlimit + 1
  {
    var ctx := ContextFor(lib, FRACTAL_MANDEL, code, cfgs, Zero, param);
    var s0 := ResetAll(sts, Zero);
    assert AllInv(cfgs, s0, 0);
    OriginRun(ctx, cfgs, d, s0, NoAggregates, 0);
  }

  lemma {:induction false} OriginRun(ctx: PointContext, cfgs: seq<LayerConfig>, d: nat, sts: seq<LayerState>, a: Aggregates, n: nat)
    requires |cfgs| == |sts| && d < |sts| && n <= Max0(cfgs[d].nlimit)
    requires ctx.fractaltype == FRACTAL_MANDEL && ctx.c == Zero
    requires cfgs[d].seqtype == SEQ_NORMAL && cfgs[d].bailout > 0.0 && cfgs[d].nlimit >= 0
    requires sts[d].active && AllInv(cfgs, sts, n)
    ensures var r := RunFrom(ctx, cfgs, d, sts, Zero, Zero, a, n);
      r.layers[d].isin && r.layers[d].n == cfgs[d].nlimit + 1 && r.iterations == cfgs[d].nlimit + 1
    decreases Max0(cfgs[d].nlimit) - n
  {
    var n1 := n + 1;
    var a1 := UpdateAggregates(ctx.lib, ctx.modes, a, Zero, Zero, n1);
    var sts1 := StepAll(ctx, cfgs, sts, n1, a1, Zero);
    OriginUnfold(ctx, cfgs, d, sts, a, n);
    if sts1[d].active {
      OriginRun(ctx, cfgs, d, sts1, a1, n1);
    } else {
      assert LayerInv(cfgs[d], sts1[d], n1);
    }
  }

  /** One iteration from the origin: the iterate stays 0 and the default layer stops exactly when n passes nlimit. */
  lemma OriginUnfold(ctx: PointContext, cfgs: seq<LayerConfig>, d: nat, sts: seq<LayerState>, a: Aggregates, n: nat)
    requires |cfgs| == |sts| && d < |sts| && n <= Max0(cfgs[d].nlimit)
    requires ctx.fractaltype == FRACTAL_MANDEL && ctx.c == Zero
    requires cfgs[d].seqtype == SEQ_NORMAL && cfgs[d].bailout > 0.0
    requires sts[d].active && AllInv(cfgs, sts, n)
    ensures var a1 := UpdateAggregates(ctx.lib, ctx.modes, a, Zero, Zero, n + 1);
      var sts1 := StepAll(ctx, cfgs, sts, n + 1, a1, Zero);
      AllInv(cfgs, sts1, n + 1) && (sts1[d].active <==> n + 1 <= cfgs[d].nlimit) &&
      RunFrom(ctx, cfgs, d, sts, Zero, Zero, a, n) ==
        if !sts1[d].active then PointResult(sts1, n + 1) else RunFrom(ctx, cfgs, d, sts1, Zero, Zero, a1, n + 1)
  {
    var n1 := n + 1;
    OriginStaysZero(ctx, n1);
    RunFromUnfold(ctx, cfgs, d, sts, Zero, Zero, a, n);
    var a1 := UpdateAggregates(ctx.lib, ctx.modes, a, Zero, Zero, n1);
    StepAllKeepsInv(ctx, cfgs, sts, n, a1, Zero);
    OriginStep(ctx, cfgs[d], sts[d], n1, a1);
  }

  lemma OriginStaysZero(ctx: PointContext, n: int)
    requires ctx.fractaltype == FRACTAL_MANDEL && ctx.c == Zero
    ensures FractalStep(ctx, Zero, Zero, n) == Zero
  {
    OriginFixed();
  }

  /** One iteration of the run, written out. */
  lemma RunFromUnfold(ctx: PointContext, cfgs: seq<LayerConfig>, d: nat, sts: seq<LayerState>,
                      x: Complex, newx: Complex, a: Aggregates, n: nat)
    requires |cfgs| == |sts| && d < |sts| && n <= Max0(cfgs[d].nlimit)
    ensures var nx := FractalStep(ctx, x, newx, n + 1);
      var a1 := UpdateAggregates(ctx.lib, ctx.modes, a, nx, x, n + 1);
      var sts1 := StepAll(ctx, cfgs, sts, n + 1, a1, nx);
      RunFrom(ctx, cfgs, d, sts, x, newx, a, n) ==
        if !sts1[d].active then PointResult(sts1, n + 1) else RunFrom(ctx, cfgs, d, sts1, nx, nx, a1, n + 1)
  {
  }

  /** One step of the default layer at the origin: it stops exactly when n passes nlimit. */
  lemma OriginStep(ctx: PointContext, cfg: LayerConfig, s: LayerState, n: nat, a: Aggregates)
    requires n >= 1 && ctx.fractaltype == FRACTAL_MANDEL && ctx.c == Zero
    requires cfg.seqtype == SEQ_NORMAL && cfg.bailout > 0.0 && s.active
    ensures StepLayer(ctx, cfg, s, n, a, Zero).active == (n <= cfg.nlimit)
  {
    var s1 := s.(n := n, old2x := s.oldx, oldx := s.x, x := Pick(SourceOf(cfg.seqtype), a, Zero));
    assert s1.x == Zero;
    OriginNeverEscapes(cfg.convchktype, cfg.bailout);
  }

  // ---------------------------------------------------------------------------------------
  // What the check-sequence folds compute

  /** The check values d_1 ... d_k folded into a layer, the i-th at step n = i. */
  function FoldAll(lib: MathLib, fold: SeqType, s: LayerState, ds: seq<real>): (r: LayerState)
    ensures ds != [] ==> r.n == |ds|
  {
    if ds == [] then s
    else FoldCheck(lib, fold, FoldAll(lib, fold, s, ds[..|ds| - 1]).(n := |ds|), ds[|ds| - 1])
  }

  function Sum(ds: seq<real>): real {
    if ds == [] then 0.0 else Sum(ds[..|ds| - 1]) + ds[|ds| - 1]
  }

  /** SUM and MEAN accumulate the check values. */
  lemma {:induction false} FoldSumAdds(lib: MathLib, fold: SeqType, s: LayerState, ds: seq<real>)
    requires fold == SEQ_SUM || fold == SEQ_MEAN
    ensures FoldAll(lib, fold, s, ds).calcValue == s.calcValue + Sum(ds)
  {
    if ds != [] {
      FoldSumAdds(lib, fold, s, ds[..|ds| - 1]);
    }
  }

  /**
   * MIN keeps the least check value; resn is the step that first reached it, or is left as it
   * was when that step was the first one.
   */
  lemma {:induction false} FoldMinIsLeast(lib: MathLib, s: LayerState, ds: seq<real>)
    requires ds != []
    ensures var r := FoldAll(lib, SEQ_MIN, s, ds);
      (forall j :: 0 <= j < |ds| ==> r.calcValue <= ds[j]) &&
      ((r.resn == s.resn && r.calcValue == ds[0]) || (2 <= r.resn <= |ds| && r.calcValue == ds[r.resn - 1]))
  {
    if |ds| > 1 {
      FoldMinIsLeast(lib, s, ds[..|ds| - 1]);
    }
  }

  /** MAX keeps the greatest check value, with resn as for MIN. */
  lemma {:induction false} FoldMaxIsGreatest(lib: MathLib, s: LayerState, ds: seq<real>)
    requires ds != []
    ensures var r := FoldAll(lib, SEQ_MAX, s, ds);
      (forall j :: 0 <= j < |ds| ==> ds[j] <= r.calcValue) &&
      ((r.resn == s.resn && r.calcValue == ds[0]) || (2 <= r.resn <= |ds| && r.calcValue == ds[r.resn - 1]))
  {
    if |ds| > 1 {
      FoldMaxIsGreatest(lib, s, ds[..|ds| - 1]);
    }
  }

  /** The running mean of the Welford folds is the mean of the check values so far. */
  lemma {:induction false} FoldWelfordMean(lib: MathLib, fold: SeqType, s: LayerState, ds: seq<real>)
    requires fold == SEQ_VARSX || fold == SEQ_VARIANCE || fold == SEQ_STDDEV
    requires ds != []
    ensures FoldAll(lib, fold, s, ds).cmean == Sum(ds) / |ds| as real
  {
    var k := |ds|;
    if k > 1 {
      var init := ds[..k - 1];
      FoldWelfordMean(lib, fold, s, init);
      MeanStep(Sum(init), ds[k - 1], k as real);
    } else {
      assert ds[..0] == [];
    }
  }

  lemma MeanStep(total: real, d: real, k: real)
    requires k >= 2.0
    ensures total / (k - 1.0) + (d - total / (k - 1.0)) / k == (total + d) / k
  {
    var m := total / (k - 1.0);
    assert m * (k - 1.0) == total;
    calc {
      m + (d - m) / k;
      == (m * k) / k + (d - m) / k;
      == (m * k + d - m) / k;
      == (m * (k - 1.0) + d) / k;
      == (total + d) / k;
    }
  }

  function SumSq(ds: seq<real>): real {
    if ds == [] then 0.0 else SumSq(ds[..|ds| - 1]) + ds[|ds| - 1] * ds[|ds| - 1]
  }

  /** The sum of the squared deviations of the values from m. */
  function SqDev(ds: seq<real>, m: real): real {
    if ds == [] then 0.0 else SqDev(ds[..|ds| - 1], m) + (ds[|ds| - 1] - m) * (ds[|ds| - 1] - m)
  }

  /** The squared deviations expand into the sums of the squares and of the values. */
  lemma {:induction false} SqDevExpands(ds: seq<real>, m: real)
    ensures SqDev(ds, m) == SumSq(ds) - 2.0 * Product(m, Sum(ds)) + ScaledSquare(|ds| as real, m)
  {
    if ds != [] {
      var k := |ds|;
      var init := ds[..k - 1];
      SqDevExpands(init, m);
      SumsOfLast(ds);
      DevCombine(SqDev(init, m), SqDev(ds, m), SumSq(init), SumSq(ds), Sum(init), Sum(ds),
                 |init| as real, |ds| as real, ds[k - 1], m);
    }
  }

  /** The induction step of SqDevExpands, on the numbers alone. */
  lemma DevCombine(dev0: real, dev1: real, sq0: real, sq1: real, s0: real, s1: real, n0: real, n1: real, d: real, m: real)
    requires dev1 == dev0 + (d - m) * (d - m) && sq1 == sq0 + d * d && s1 == s0 + d && n1 == n0 + 1.0
    requires dev0 == sq0 - 2.0 * Product(m, s0) + ScaledSquare(n0, m)
    ensures dev1 == sq1 - 2.0 * Product(m, s1) + ScaledSquare(n1, m)
  {
    assert (d - m) * (d - m) == d * d - 2.0 * (m * d) + m * m;
    assert Product(m, s1) == Product(m, s0) + m * d;
    assert ScaledSquare(n1, m) == ScaledSquare(n0, m) + m * m;
  }

  /** Around the mean, the squared deviations are the sum of squares less k times the squared mean. */
  lemma SqDevAroundMean(ds: seq<real>)
    requires ds != []
    ensures SqDev(ds, Sum(ds) / |ds| as real) == SumSq(ds) - ScaledSquare(|ds| as real, Sum(ds) / |ds| as real)
  {
    var k := |ds| as real;
    var m := Sum(ds) / k;
    SqDevExpands(ds, m);
    assert Sum(ds) == k * m;
    assert Product(m, Sum(ds)) == ScaledSquare(k, m);
  }

  /** a * b, kept as one term so the spread proofs stay linear around it. */
  function Product(a: real, b: real): real {
    a * b
  }

  /** k * m * m, kept as one term so the spread proofs stay linear around it. */
  function ScaledSquare(k: real, m: real): real {
    k * m * m
  }

  /** The spread accumulator of a Welford fold: c_calc for VARSX, c_cvarsx otherwise. */
  function Spread(fold: SeqType, s: LayerState): real {
    if fold == SEQ_VARSX then s.calcValue else s.cvarsx
  }

  /**
   * The Welford folds accumulate the squared deviations of the check values from their mean:
   * VARSX in c_calc, VARIANCE and STDDEV in c_cvarsx. From the second value on, VARIANCE
   * makes c_calc the sample variance c_cvarsx/(n-1), and STDDEV makes c_cvariance that
   * variance and c_calc its square root; after the first value STDDEV keeps c_cvariance.
   */
  lemma FoldWelfordSpread(lib: MathLib, fold: SeqType, s: LayerState, ds: seq<real>)
    requires fold == SEQ_VARSX || fold == SEQ_VARIANCE || fold == SEQ_STDDEV
    requires ds != []
    ensures var r := FoldAll(lib, fold, s, ds);
      Spread(fold, r) == Spread(fold, s) + SqDev(ds, Sum(ds) / |ds| as real)
    ensures var r := FoldAll(lib, fold, s, ds);
      fold == SEQ_VARIANCE && |ds| >= 2 ==> r.calcValue == r.cvarsx / (|ds| as real - 1.0)
    ensures var r := FoldAll(lib, fold, s, ds);
      fold == SEQ_STDDEV ==>
        r.calcValue == lib.sqrt(r.cvariance) &&
        r.cvariance == if |ds| >= 2 then r.cvarsx / (|ds| as real - 1.0) else s.cvariance
  {
    FoldSpreadSquares(lib, fold, s, ds);
    SqDevAroundMean(ds);
    var k := |ds|;
    var init := ds[..k - 1];
    var p := FoldAll(lib, fold, s, init).(n := k);
    WelfordFoldStep(lib, fold, p, ds[k - 1]);
    if k == 1 {
      assert init == [];
    }
  }

  /** The spread of a Welford fold, in terms of the sums of the squares and of the values. */
  lemma {:induction false} FoldSpreadSquares(lib: MathLib, fold: SeqType, s: LayerState, ds: seq<real>)
    requires fold == SEQ_VARSX || fold == SEQ_VARIANCE || fold == SEQ_STDDEV
    requires ds != []
    ensures Spread(fold, FoldAll(lib, fold, s, ds)) ==
      Spread(fold, s) + SumSq(ds) - ScaledSquare(|ds| as real, Sum(ds) / |ds| as real)
  {
    var k := |ds|;
    if k == 1 {
      FoldSpreadFirst(lib, fold, s, ds);
    } else {
      var d := ds[k - 1];
      var init := ds[..k - 1];
      SumsOfLast(ds);
      assert Sum(ds) == Sum(init) + d;
      assert SumSq(ds) == SumSq(init) + d * d;
      assert |ds| as real == |init| as real + 1.0;
      FoldSpreadSquares(lib, fold, s, init);
      FoldSpreadNext(lib, fold, s, ds);
      SpreadCombine(Spread(fold, FoldAll(lib, fold, s, ds)), Spread(fold, FoldAll(lib, fold, s, init)), Spread(fold, s),
                    d, Sum(init), Sum(ds), SumSq(init), SumSq(ds), |init| as real, |ds| as real);
    }
  }

  /** The sums of a non-empty sequence are those of its front plus its last value. */
  lemma SumsOfLast(ds: seq<real>)
    requires ds != []
    ensures Sum(ds) == Sum(ds[..|ds| - 1]) + ds[|ds| - 1]
    ensures SumSq(ds) == SumSq(ds[..|ds| - 1]) + ds[|ds| - 1] * ds[|ds| - 1]
  {
  }

  /** The first Welford fold leaves the spread as it was. */
  lemma FoldSpreadFirst(lib: MathLib, fold: SeqType, s: LayerState, ds: seq<real>)
    requires fold == SEQ_VARSX || fold == SEQ_VARIANCE || fold == SEQ_STDDEV
    requires |ds| == 1
    ensures Spread(fold, FoldAll(lib, fold, s, ds)) ==
      Spread(fold, s) + SumSq(ds) - ScaledSquare(|ds| as real, Sum(ds) / |ds| as real)
  {
    var d := ds[0];
    assert ds[..0] == [];
    var p := s.(n := 1);
    assert FoldAll(lib, fold, s, ds) == FoldCheck(lib, fold, p, d);
    WelfordFoldStep(lib, fold, p, d);
    assert p.cmean + (d - p.cmean) / 1.0 == d;
    assert Product(d - p.cmean, d - d) == 0.0;
    assert Sum(ds) == d && SumSq(ds) == d * d;
    assert ScaledSquare(1.0, d / 1.0) == d * d;
  }

  /** A later Welford fold grows the spread by the product of the deviations from the old and new means. */
  lemma FoldSpreadNext(lib: MathLib, fold: SeqType, s: LayerState, ds: seq<real>)
    requires fold == SEQ_VARSX || fold == SEQ_VARIANCE || fold == SEQ_STDDEV
    requires |ds| >= 2
    ensures var k := |ds|; var d := ds[k - 1]; var init := ds[..k - 1];
      Spread(fold, FoldAll(lib, fold, s, ds)) ==
      Spread(fold, FoldAll(lib, fold, s, init)) + Product(d - Sum(init) / |init| as real, d - Sum(ds) / k as real)
  {
    var k := |ds|;
    var d := ds[k - 1];
    var init := ds[..k - 1];
    var p := FoldAll(lib, fold, s, init).(n := k);
    assert p.n == k;
    WelfordFoldStep(lib, fold, p, d);
    FoldWelfordMean(lib, fold, s, init);
    FoldWelfordMean(lib, fold, s, ds);
  }

  /**
   * The induction step of FoldSpreadSquares, on the numbers alone: the sums before (sum0,
   * sq0, over n0 values) and after (sum1, sq1, over k values) the value d.
   */
  lemma SpreadCombine(after: real, before: real, start: real, d: real,
                      sum0: real, sum1: real, sq0: real, sq1: real, n0: real, k: real)
    requires n0 >= 1.0 && k == n0 + 1.0 && sum1 == sum0 + d && sq1 == sq0 + d * d
    requires before == start + sq0 - ScaledSquare(n0, sum0 / n0)
    requires after == before + Product(d - sum0 / n0, d - sum1 / k)
    ensures after == start + sq1 - ScaledSquare(k, sum1 / k)
  {
    MeanStep(sum0, d, k);
    assert sum0 / n0 + (d - sum0 / n0) / k == sum1 / k;
    WelfordSpreadStep(before - start, sq0, sum0 / n0, d, k);
  }

  /** One Welford fold: the new mean, the spread grown by delta*(d - new mean), and the finish. */
  lemma WelfordFoldStep(lib: MathLib, fold: SeqType, p: LayerState, d: real)
    requires fold == SEQ_VARSX || fold == SEQ_VARIANCE || fold == SEQ_STDDEV
    requires p.n >= 1
    ensures var r := FoldCheck(lib, fold, p, d); var m' := p.cmean + (d - p.cmean) / p.n as real;
      r.cmean == m' && Spread(fold, r) == Spread(fold, p) + Product(d - p.cmean, d - m') &&
      (fold == SEQ_VARIANCE && p.n != 1 ==> r.calcValue == r.cvarsx / (p.n as real - 1.0)) &&
      (fold == SEQ_STDDEV ==>
        r.calcValue == lib.sqrt(r.cvariance) &&
        r.cvariance == if p.n != 1 then r.cvarsx / (p.n as real - 1.0) else p.cvariance)
  {
  }

  /** One Welford step keeps "spread == sum of squares - k * mean * mean". */
  lemma WelfordSpreadStep(v: real, q: real, m: real, d: real, k: real)
    requires k >= 2.0 && v == q - ScaledSquare(k - 1.0, m)
    ensures v + (d - m) * (d - (m + (d - m) / k)) == q + d * d - ScaledSquare(k, m + (d - m) / k)
  {
    var t := (d - m) / k;
    assert d - m == k * t;
    var m' := m + t;
    assert d - m' == (k - 1.0) * t;
    assert (d - m) * (d - m') == k * (k - 1.0) * t * t;
    assert d * d == m * m + 2.0 * k * m * t + k * k * t * t;
    assert k * m' * m' == k * m * m + 2.0 * k * m * t + k * t * t;
  }
}
