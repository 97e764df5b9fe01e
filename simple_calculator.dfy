/**
 * The interpreting engine of RestFract/Generators/SimpleCalculatorFactory.cs: a FIFO queue of
 * submitted points and CalcFractal, which iterates one point on the shared layer objects in
 * place. CalcFractal is proved to leave the layers exactly as the value-level run of the
 * Iteration module does.
 */
module SimpleEngine {
  import opened ComplexMath
  import opened Flags
  import opened Layers
  import opened Iteration
  import opened Wrappers
  import opened Calculators

  /** What the host C# compiler makes of the wrapped user formula (a foreign call). */
  datatype CompileOutcome =
    | CompileErrors(first: string)
    | Compiled(instance: Option<Formula>)
    | ActivationFailed

  /** The class text the user formula is wrapped in before it is compiled. */
  function EvalSource(code: string): (r: string)
    ensures |r| == |EvalPrefix| + |code| + |EvalSuffix|
    ensures r[|EvalPrefix|..|EvalPrefix| + |code|] == code
  {
    EvalPrefix + code + EvalSuffix
  }

  const EvalPrefix := "using System;using System.Numerics;using RestFract;using RestFract.Generators;class evalclass:IComplexEval {"
    + "public evalclass(){} public Complex eval(Complex x, Complex c, double n, double p)" + "{ return "
  const EvalSuffix := "; } }"

  predicate UsesFormula(ft: FractalType) {
    ft == FRACTAL_CONVERGENT || ft == FRACTAL_DIVERGENT
  }

  /**
   * The formula a calculator is made with: only the two formula types compile the user code;
   * a compile error or a failed activation is a NotImplementedException.
   */
  function CompileFormula(ft: FractalType, code: string, compiler: string -> CompileOutcome): (r: Result<Option<Formula>, string>)
    ensures !UsesFormula(ft) ==> r == Success(None)
    ensures UsesFormula(ft) ==> (r.Success? <==> compiler(EvalSource(code)).Compiled?)
    ensures r.Success? && UsesFormula(ft) ==> r.value == compiler(EvalSource(code)).instance
  {
    if !UsesFormula(ft) then Success(None)
    else match compiler(EvalSource(code))
      case CompileErrors(e) => Failure("Could not compile code: " + e)
      case ActivationFailed => Failure("Could not compile code")
      case Compiled(f) => Success(f)
  }

  /**
   * The index of the layer that decides when a point stops: the last layer marked default,
   * else the given default layer, if it is in the list.
   */
  function ResolveDefault(defaults: seq<bool>, ls: seq<ProcessLayer>, deflayer: ProcessLayer?): (r: Option<nat>)
    requires |defaults| == |ls|
    ensures r.Some? ==> r.value < |ls|
    ensures LastDefault(defaults).Some? ==> r == LastDefault(defaults)
    ensures LastDefault(defaults).None? ==> (r.None? <==> deflayer !in ls)
    ensures LastDefault(defaults).None? && r.Some? ==> ls[r.value] == deflayer
  {
    var k := LastDefault(defaults);
    if k.Some? then k else IndexIn(ls, deflayer)
  }

  class SimpleCalculator {
    const lib: MathLib
    var fractaltype: FractalType
    var code: Option<Formula>
    var deflayer: ProcessLayer?
    var ld: seq<ProcessLayer>
    var param: real
    var queue: seq<QueuedPoint>

    constructor (lib: MathLib, fractaltype: FractalType, code: Option<Formula>, deflayer: ProcessLayer?)
      ensures this.lib == lib && this.fractaltype == fractaltype && this.code == code
      ensures this.deflayer == deflayer && ld == [] && queue == []
    {
      this.lib := lib;
      this.fractaltype := fractaltype;
      this.code := code;
      this.deflayer := deflayer;
      ld := [];
      param := 0.0;
      queue := [];
    }

    /** A point can be calculated: the layers are distinct objects, and a default layer can be
        found in the list unless none is given at all. */
    predicate Runnable()
      reads this, set p | p in ld
    {
      Distinct(ld) &&
      (deflayer == null || deflayer in ld || exists i :: 0 <= i < |ld| && ld[i].isDefault)
    }

    method InitData(layerData: seq<ProcessLayer>, param: real, count: int)
      modifies this`ld, this`param, this`queue
      ensures ld == layerData && this.param == param && queue == []
    {
      ld := layerData;
      this.param := param;
      queue := [];
    }

    method AddPoint(px: int, py: int, x: Complex, c: Complex)
      modifies this`queue
      ensures queue == old(queue) + [QueuedPoint(px, py, x, c)]
    {
      queue := queue + [QueuedPoint(px, py, x, c)];
    }

    /**
     * Takes the oldest queued point and calculates it on the shared layer list, which it
     * returns; an empty queue gives false, (0, 0) and no layers ([] stands for null).
     */
    method GetPoint() returns (ok: bool, px: int, py: int, layers: seq<ProcessLayer>, err: Option<string>)
      requires Runnable()
      modifies this`queue, this`deflayer, ld`st
      ensures old(queue) == [] ==> !ok && px == 0 && py == 0 && layers == [] && err == None
      ensures old(queue) == [] ==> queue == [] && deflayer == old(deflayer) && States(ld) == old(States(ld))
      ensures old(queue) != [] ==> ok && queue == old(queue[1..]) && layers == ld
      ensures old(queue) != [] ==> px == old(queue[0]).px && py == old(queue[0]).py
      ensures old(queue) != [] ==>
        (err, States(ld)) == CalcPoint(lib, fractaltype, code, old(Configs(ld)), old(States(ld)),
                                       old(ResolveDefault(Defaults(ld), ld, deflayer)), old(queue[0]).x, old(queue[0]).c, param)
    {
      if queue == [] {
        return false, 0, 0, [], None;
      }
      var t := queue[0];
      err := CalcFractal(t.x, t.c);
      queue := queue[1..];
      px, py, layers := t.px, t.py, ld;
      ok := true;
    }

    method EndSend() {
    }

    method EndGet(final: bool) {
    }

    /**
     * Iterates one point in place: resets every layer (rebinding the default layer to the last
     * one marked default), closes the sequence modes, then steps the fractal and the active
     * layers until the default layer stops.
     */
    method CalcFractal(x: Complex, c: Complex) returns (err: Option<string>)
      requires Runnable()
      modifies this`deflayer, ld`st
      ensures var d := old(ResolveDefault(Defaults(ld), ld, deflayer));
        (err, States(ld)) == CalcPoint(lib, fractaltype, code, old(Configs(ld)), old(States(ld)), d, x, c, param)
      ensures var d := old(ResolveDefault(Defaults(ld), ld, deflayer));
        deflayer == if d.Some? then ld[d.value] else old(deflayer)
    {
      ghost var s0 := States(ld);
      ghost var cfgs := Configs(ld);
      ghost var defaults := Defaults(ld);
      ghost var d := ResolveDefault(defaults, ld, deflayer);
      var ctx := Setup(x, c, cfgs, s0, defaults);
      if deflayer == null {
        return Some(NoDefaultLayer);
      }
      err := None;
      RunPointInPlace(ctx, cfgs, s0, d.value, x, c);
    }

    /**
     * The head of CalcFractal: the reset loop, the closure of the sequence modes and the
     * triangle norm, which together make the context the point is iterated in.
     */
    method Setup(x: Complex, c: Complex, ghost cfgs: seq<LayerConfig>, ghost s0: seq<LayerState>, ghost defaults: seq<bool>)
      returns (ctx: PointContext)
      requires Distinct(ld) && |cfgs| == |ld| && |s0| == |ld| && |defaults| == |ld|
      requires forall j :: 0 <= j < |ld| ==> ld[j].cfg == cfgs[j] && ld[j].isDefault == defaults[j] && ld[j].st == s0[j]
      requires deflayer == null || deflayer in ld || exists i :: 0 <= i < |ld| && defaults[i]
      modifies this`deflayer, ld`st
      ensures ctx == ContextFor(lib, fractaltype, code, cfgs, c, param)
      ensures forall j :: 0 <= j < |ld| ==> ld[j].cfg == cfgs[j] && ld[j].st == ResetAll(s0, x)[j]
      ensures States(ld) == ResetAll(s0, x)
      ensures var d := ResolveDefault(defaults, ld, old(deflayer));
        (deflayer == null <==> d.None?) && (d.Some? ==> deflayer == ld[d.value]) && (d.None? ==> deflayer == old(deflayer))
    {
      ghost var before := deflayer;
      var modes, hastriangle := PrepareLayers(x, cfgs, defaults);
      DefaultLayerFound(defaults, ld, before, deflayer);
      var trinorm := 0.0;
      if hastriangle {
        if fractaltype == FRACTAL_MANDEL {
          trinorm := lib.magnitude(c);
        } else {
          trinorm := Norm(c);
        }
      }
      ctx := PointContext(lib, fractaltype, code, c, param, CloseModes(modes), trinorm);
      assert States(ld) == ResetAll(s0, x);
    }

    /** The run of a point from the reset layers, once the default layer is known. */
    method RunPointInPlace(ctx: PointContext, ghost cfgs: seq<LayerConfig>, ghost s0: seq<LayerState>, ghost d: nat,
                           x: Complex, c: Complex)
      requires Distinct(ld) && |cfgs| == |ld| && |s0| == |ld| && d < |ld| && ld[d] == deflayer
      requires ctx == ContextFor(lib, fractaltype, code, cfgs, c, param)
      requires forall j :: 0 <= j < |ld| ==> ld[j].cfg == cfgs[j] && ld[j].st == ResetAll(s0, x)[j]
      modifies ld`st
      ensures States(ld) == RunPoint(lib, fractaltype, code, cfgs, s0, d, x, c, param).layers
    {
      Run(ctx, cfgs, d, x, ResetAll(s0, x));
    }

    /**
     * The reset loop at the head of CalcFractal: every layer is reset to start at x, the
     * default layer is rebound to the last layer marked default, and the layers' sequence
     * types and triangle checks are collected.
     */
    method PrepareLayers(x: Complex, ghost cfgs: seq<LayerConfig>, ghost defaults: seq<bool>)
      returns (modes: SeqType, hastriangle: bool)
      requires Distinct(ld) && |cfgs| == |ld| && |defaults| == |ld|
      requires forall j :: 0 <= j < |ld| ==> ld[j].cfg == cfgs[j] && ld[j].isDefault == defaults[j]
      modifies this`deflayer, ld`st
      ensures forall j :: 0 <= j < |ld| ==> ld[j].st == Reset(old(ld[j].st), x)
      ensures modes == ModesUpTo(cfgs, |cfgs|)
      ensures hastriangle == HasTriangle(cfgs)
      ensures var d := LastDefault(defaults);
        deflayer == if d.Some? then ld[d.value] else old(deflayer)
    {
      var i := 0;
      modes := {};
      hastriangle := false;
      while i < |ld|
        invariant 0 <= i <= |ld|
        invariant forall j :: 0 <= j < i ==> ld[j].st == Reset(old(ld[j].st), x)
        invariant forall j :: i <= j < |ld| ==> ld[j].st == old(ld[j].st)
        invariant modes == ModesUpTo(cfgs, i)
        invariant hastriangle == TriangleUpTo(cfgs, i)
        invariant var d := DefaultUpTo(defaults, i);
          deflayer == if d.Some? then ld[d.value] else old(deflayer)
      {
        var p := ld[i];
        p.st := Reset(p.st, x);
        if p.isDefault {
          deflayer := p;
        }
        if HasFlag(p.cfg.checktype, CHECK_TRIANGLE) {
          hastriangle := true;
        }
        if HasFlag(p.cfg.checktype, CHECK_TRIANGLE_SMOOTH) {
          hastriangle := true;
        }
        modes := modes + p.cfg.seqtype;
        i := i + 1;
      }
    }

    /** The `while (!end)` loop of CalcFractal, from the reset layers. */
    method Run(ctx: PointContext, ghost cfgs: seq<LayerConfig>, ghost d: nat, x0: Complex, ghost sts: seq<LayerState>)
      requires Distinct(ld) && d < |ld| && ld[d] == deflayer
      requires |sts| == |ld| && |cfgs| == |ld| && sts[d].active
      requires forall j :: 0 <= j < |ld| ==> ld[j].cfg == cfgs[j] && ld[j].st == sts[j]
      modifies ld`st
      ensures States(ld) == RunFrom(ctx, cfgs, d, sts, x0, x0, NoAggregates, 0).layers
    {
      ghost var final := RunFrom(ctx, cfgs, d, sts, x0, x0, NoAggregates, 0);
      ghost var cur := sts;
      var n := 0;
      var end := false;
      var x := x0;
      var agg := NoAggregates;
      while !end
        invariant |cur| == |ld| && forall j :: 0 <= j < |ld| ==> ld[j].cfg == cfgs[j] && ld[j].st == cur[j]
        invariant deflayer == ld[d]
        invariant !end ==> n <= Max0(cfgs[d].nlimit) && RunFrom(ctx, cfgs, d, cur, x, x, agg, n) == final
        invariant end ==> cur == final.layers
        decreases if end then 0 else Max0(cfgs[d].nlimit) + 1 - n
      {
        x, agg, n, end, cur := Step(ctx, cfgs, d, cur, x, agg, n, final);
      }
      assert States(ld) == cur;
    }

    /** One pass of the `while (!end)` loop, with the end test on the default layer. */
    method Step(ctx: PointContext, ghost cfgs: seq<LayerConfig>, ghost d: nat, ghost cur: seq<LayerState>,
                x: Complex, agg: Aggregates, n: nat, ghost final: PointResult)
      returns (x1: Complex, agg1: Aggregates, n1: nat, end: bool, ghost cur1: seq<LayerState>)
      requires Distinct(ld) && |cfgs| == |ld| && |cur| == |ld| && d < |ld| && ld[d] == deflayer
      requires forall j :: 0 <= j < |ld| ==> ld[j].cfg == cfgs[j] && ld[j].st == cur[j]
      requires n <= Max0(cfgs[d].nlimit) && RunFrom(ctx, cfgs, d, cur, x, x, agg, n) == final
      modifies ld`st
      ensures |cur1| == |ld| && forall j :: 0 <= j < |ld| ==> ld[j].cfg == cfgs[j] && ld[j].st == cur1[j]
      ensures n1 == n + 1
      ensures end ==> cur1 == final.layers
      ensures !end ==> n1 <= Max0(cfgs[d].nlimit) && RunFrom(ctx, cfgs, d, cur1, x1, x1, agg1, n1) == final
    {
      RunFromUnfold(ctx, cfgs, d, cur, x, x, agg, n);
      n1, x1, agg1 := Iterate(ctx, cfgs, cur, n, x, x, agg);
      cur1 := StepAll(ctx, cfgs, cur, n1, agg1, x1);
      end := !deflayer.st.active;
      if !end {
        RunFromBound(ctx, cfgs, d, cur1, x1, x1, agg1, n1);
      }
    }

    /** One pass of the `while (!end)` loop: the next iterate, the aggregates, and the layers. */
    method Iterate(ctx: PointContext, ghost cfgs: seq<LayerConfig>, ghost cur: seq<LayerState>,
                   n: nat, x: Complex, newx: Complex, agg: Aggregates)
      returns (n1: nat, newx1: Complex, agg1: Aggregates)
      requires Distinct(ld) && |cfgs| == |ld| && |cur| == |ld|
      requires forall j :: 0 <= j < |ld| ==> ld[j].cfg == cfgs[j] && ld[j].st == cur[j]
      modifies ld`st
      ensures n1 == n + 1 && newx1 == FractalStep(ctx, x, newx, n1)
      ensures agg1 == UpdateAggregates(ctx.lib, ctx.modes, agg, newx1, x, n1)
      ensures forall j :: 0 <= j < |ld| ==> ld[j].st == StepAll(ctx, cfgs, cur, n1, agg1, newx1)[j]
    {
      n1 := n + 1;
      newx1 := FractalStep(ctx, x, newx, n1);
      agg1 := UpdateAggregates(ctx.lib, ctx.modes, agg, newx1, x, n1);
      StepLayers(ctx, cfgs, cur, n1, agg1, newx1);
    }

    /** The loop over the layers inside one iteration: only the active layers step. */
    method StepLayers(ctx: PointContext, ghost cfgs: seq<LayerConfig>, ghost cur: seq<LayerState>,
                      n: int, agg: Aggregates, newx: Complex)
      requires Distinct(ld) && n >= 1 && |cfgs| == |ld| && |cur| == |ld|
      requires forall j :: 0 <= j < |ld| ==> ld[j].cfg == cfgs[j] && ld[j].st == cur[j]
      modifies ld`st
      ensures forall j :: 0 <= j < |ld| ==> ld[j].st == StepAll(ctx, cfgs, cur, n, agg, newx)[j]
    {
      var k := 0;
      while k < |ld|
        invariant 0 <= k <= |ld|
        invariant forall j :: 0 <= j < |ld| ==> ld[j].cfg == cfgs[j]
        invariant forall j :: 0 <= j < k ==> ld[j].st == StepAll(ctx, cfgs, cur, n, agg, newx)[j]
        invariant forall j :: k <= j < |ld| ==> ld[j].st == cur[j]
      {
        var p := ld[k];
        if p.st.active {
          p.st := StepLayer(ctx, p.cfg, p.st, n, agg, newx);
        }
        k := k + 1;
      }
    }
  }

  /**
   * After the reset loop the default layer is the last layer marked default, else the one
   * given before; in a runnable list it is missing exactly when ResolveDefault finds none.
   */
  lemma DefaultLayerFound(defaults: seq<bool>, ls: seq<ProcessLayer>, before: ProcessLayer?, after: ProcessLayer?)
    requires |defaults| == |ls|
    requires before == null || before in ls || exists i :: 0 <= i < |ls| && defaults[i]
    requires var k := LastDefault(defaults); after == if k.Some? then ls[k.value] else before
    ensures var d := ResolveDefault(defaults, ls, before);
      (after == null <==> d.None?) && (d.Some? ==> after == ls[d.value]) && (d.None? ==> after == before)
  {
    LastDefaultIsLast(defaults, |defaults|);
  }

  /** GenFractalCalc: compiles the formula when the type needs one and makes the calculator. */
  method GenFractalCalc(lib: MathLib, fractaltype: FractalType, code: string, compiler: string -> CompileOutcome,
                        deflayer: ProcessLayer?) returns (r: Result<SimpleCalculator, string>)
    ensures r.Failure? <==> CompileFormula(fractaltype, code, compiler).Failure?
    ensures r.Failure? ==> r.error == CompileFormula(fractaltype, code, compiler).error
    ensures r.Success? ==> fresh(r.value) && r.value.lib == lib && r.value.fractaltype == fractaltype
    ensures r.Success? ==> r.value.deflayer == deflayer && r.value.queue == []
    ensures r.Success? ==> r.value.code == CompileFormula(fractaltype, code, compiler).value
  {
    var f := CompileFormula(fractaltype, code, compiler);
    if f.Failure? {
      return Failure(f.error);
    }
    var calculator := new SimpleCalculator(lib, fractaltype, f.value, deflayer);
    r := Success(calculator);
  }
}
