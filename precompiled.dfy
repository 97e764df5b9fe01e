/**
 * The code-generating engine of RestFract/Generators/PreCompiledCalculatorFactory.cs.
 *
 * GenFractalCalc decides once, when the calculator is made, which statements the generated
 * CalcFractal holds: the closed set of sequence modes and the aggregate updates they need, the
 * triangle norm, the iteration statement, and per layer the value its c_x takes, the check it
 * computes, whether it divides its MEAN sum when it stops and whether it ends the loop. Those
 * decisions are the Plan below; the host C# compiler that turns a plan into a routine is a
 * parameter. The calculator itself is a FIFO queue of points that resets the shared layer list
 * before it hands each point to the compiled routine.
 */
module PreCompiledEngine {
  import opened ComplexMath
  import opened Flags
  import opened Layers
  import opened Iteration
  import opened Wrappers
  import opened Calculators

  /** The exceptions GenFractalCalc throws. */
  datatype GenError = NotSupported(message: string) | NotImplemented(message: string)

  const UnknownFractalType := "Unknown FractalType"
  const NoSmoothTriangle := "Smooth triangle algorithm is unavailable in this CalculatorFactory"

  /** The `newx = ...` statement of the loop, chosen by the fractal type. */
  datatype StepCode = MandelStep | MandelNStep | ShipStep | ShipNStep | Snippet(code: string)

  /** The declaration of `trinorm`, emitted only when some layer uses a triangle check. */
  datatype TriNormCode = NoTriNorm | MagnitudeOfC | NormOfC

  /** The aggregate updates of the loop body; the STDDEV update sits inside the VARIANCE one. */
  datatype AggStmt = SumUpdate | MeanUpdate | VarsxUpdate | VarianceUpdate(stddev: bool) | MinUpdate | MaxUpdate | DeltaUpdate

  /** The statements that fold a layer's check value `newd` into c_calc, by check-sequence type. */
  datatype FoldCode = AssignCheck | AddCheck | WelfordSum | WelfordVariance | WelfordStddev | KeepLeast | KeepGreatest | DifferenceCheck

  /** The squared quantity a bailout test compares with c_bailout. */
  datatype Quantity = RealSq | ImagSq | ManhattanSq | ManrSq | NormSq

  /**
   * The bailout test of a layer; greater is the direction (`>` for a divergent type, `<`
   * otherwise). EitherPart and BothParts compare each squared part with c_bailout and join
   * the comparisons; PartsOred and PartsAnded join the two squared parts themselves with `||`
   * or `&&` and compare the result, which is not a C# expression (the operands are doubles).
   */
  datatype BailoutCode =
    | Compare(q: Quantity, greater: bool)
    | EitherPart(greater: bool)
    | BothParts(greater: bool)
    | PartsOred(greater: bool)
    | PartsAnded(greater: bool)

  /** The statements emitted for one layer, inside its `if (p.c_active)`. */
  datatype LayerCode = LayerCode(source: string, check: CheckKind, fold: FoldCode, bailout: BailoutCode, meanFinish: bool, endsLoop: bool)

  /** Everything GenFractalCalc decides before it hands the code to the compiler. */
  datatype Plan = Plan(modes: SeqType, trinorm: TriNormCode, step: StepCode, aggregates: seq<AggStmt>, layers: seq<LayerCode>)

  /**
   * The compiled CalcFractal(x, c, ld, pr): from the start value, the constant, the layers'
   * configurations and their reset states to their final states, one per layer.
   */
  type Routine = f: (Complex, Complex, real, seq<LayerConfig>, seq<LayerState>) -> seq<LayerState>
    | forall x, c, pr, cfgs, sts :: |f(x, c, pr, cfgs, sts)| == |sts|
    witness (x: Complex, c: Complex, pr: real, cfgs: seq<LayerConfig>, sts: seq<LayerState>) => sts

  /** A compiler message: its text, its line as printed, and whether it is only a warning. */
  datatype BuildError = BuildError(text: string, line: string, isWarning: bool)

  /** What the host compiler and the activation of `FractRunner` make of a plan (a foreign call). */
  datatype Build = Build(errors: seq<BuildError>, routine: Routine)

  /** The statement the fractal type selects; the other types are unknown here. */
  function StepOf(ft: FractalType, code: string): (r: Option<StepCode>)
    ensures r.None? <==> ft !in {FRACTAL_MANDEL, FRACTAL_MANDEL_N, FRACTAL_BURNINGSHIP, FRACTAL_BURNINGSHIP_N,
                                 FRACTAL_DIVERGENT, FRACTAL_CONVERGENT}
    ensures r.Some? && r.value.Snippet? ==> r.value.code == code
  {
    if ft == FRACTAL_MANDEL then Some(MandelStep)
    else if ft == FRACTAL_MANDEL_N then Some(MandelNStep)
    else if ft == FRACTAL_BURNINGSHIP then Some(ShipStep)
    else if ft == FRACTAL_BURNINGSHIP_N then Some(ShipNStep)
    else if ft == FRACTAL_DIVERGENT || ft == FRACTAL_CONVERGENT then Some(Snippet(code))
    else None
  }

  /** What the built-in statements compute, as the generated expressions write them. */
  function EmittedStep(s: StepCode, lib: MathLib, x: Complex, c: Complex, pr: real): Complex
    requires !s.Snippet?
  {
    match s
    case MandelStep => Complex(x.re * x.re - x.im * x.im + c.re, x.re * x.im * 2.0 + c.im)
    case MandelNStep => Add(lib.cpow(x, pr), c)
    case ShipStep => Complex(x.re * x.re - x.im * x.im + c.re, AbsVal(x.re * x.im) * 2.0 + c.im)
    case ShipNStep => Add(lib.cpow(Complex(AbsVal(x.re), AbsVal(x.im)), pr), c)
  }

  function TriNormOf(ft: FractalType, hastriangle: bool): TriNormCode {
    if !hastriangle then NoTriNorm else if ft == FRACTAL_MANDEL then MagnitudeOfC else NormOfC
  }

  /** The value the emitted declaration gives `trinorm` (0 when there is none). */
  function TriNormValue(t: TriNormCode, lib: MathLib, c: Complex): real {
    match t
    case NoTriNorm => 0.0
    case MagnitudeOfC => lib.magnitude(c)
    case NormOfC => c.re * c.re + c.im * c.im
  }

  /** The aggregate updates, emitted in the nesting of the generator: VARSX only inside MEAN,
      VARIANCE only inside VARSX, STDDEV only inside VARIANCE. */
  function AggregateCode(modes: SeqType): seq<AggStmt> {
    (if HasFlag(modes, SEQ_SUM) then [SumUpdate] else []) +
    (if !HasFlag(modes, SEQ_MEAN) then []
     else if !HasFlag(modes, SEQ_VARSX) then [MeanUpdate]
     else if !HasFlag(modes, SEQ_VARIANCE) then [MeanUpdate, VarsxUpdate]
     else [MeanUpdate, VarsxUpdate, VarianceUpdate(HasFlag(modes, SEQ_STDDEV))]) +
    (if HasFlag(modes, SEQ_MIN) then [MinUpdate] else []) +
    (if HasFlag(modes, SEQ_MAX) then [MaxUpdate] else []) +
    (if HasFlag(modes, SEQ_DELTA) then [DeltaUpdate] else [])
  }

  /** The variable whose value a layer's c_x takes, by its exact sequence type. */
  function EmittedSource(seqtype: SeqType): string {
    if seqtype == SEQ_NORMAL then "newx"
    else if seqtype == SEQ_SUM then "sumx"
    else if seqtype == SEQ_MEAN then "meanx"
    else if seqtype == SEQ_VARSX then "varsx"
    else if seqtype == SEQ_VARIANCE then "variacex"
    else if seqtype == SEQ_STDDEV then "sdx"
    else if seqtype == SEQ_MIN then "minx"
    else if seqtype == SEQ_MAX then "maxx"
    else if seqtype == SEQ_DELTA then "deltax"
    else "newx"
  }

  /** The generated variable that holds each of the interpreted engine's value sources. */
  function SourceVariable(src: ValueSource): string {
    match src
    case FromNew => "newx"
    case FromSum => "sumx"
    case FromMean => "meanx"
    case FromVarsx => "varsx"
    case FromVariance => "variacex"
    case FromStddev => "sdx"
    case FromMin => "minx"
    case FromMax => "maxx"
    case FromDelta => "deltax"
  }

  /** The fold statements chosen by the exact check-sequence type; an unknown type assigns. */
  function FoldCodeOf(t: SeqType): FoldCode {
    if t == SEQ_SUM || t == SEQ_MEAN then AddCheck
    else if t == SEQ_VARSX then WelfordSum
    else if t == SEQ_VARIANCE then WelfordVariance
    else if t == SEQ_STDDEV then WelfordStddev
    else if t == SEQ_MIN then KeepLeast
    else if t == SEQ_MAX then KeepGreatest
    else if t == SEQ_DELTA then DifferenceCheck
    else AssignCheck
  }

  /**
   * What the emitted fold statements do to the layer p, one statement after the other:
   * `delta = newd - p.c_cmean; p.c_cmean = p.c_cmean + delta/p.c_n; p.c_cvarsx += delta*(newd - p.c_cmean)`
   * and so on, with newd = d.
   */
  function ApplyFold(f: FoldCode, lib: MathLib, p: LayerState, d: real): LayerState
    requires p.n >= 1
  {
    match f
    case AssignCheck => p.(calcValue := d)
    case AddCheck => p.(calcValue := p.calcValue + d)
    case WelfordSum =>
      var delta := d - p.cmean;
      var p1 := p.(cmean := p.cmean + delta / p.n as real);
      p1.(calcValue := p1.calcValue + delta * (d - p1.cmean))
    case WelfordVariance =>
      var delta := d - p.cmean;
      var p1 := p.(cmean := p.cmean + delta / p.n as real);
      var p2 := p1.(cvarsx := p1.cvarsx + delta * (d - p1.cmean));
      if p2.n == 1 then p2 else p2.(calcValue := p2.cvarsx / (p2.n as real - 1.0))
    case WelfordStddev =>
      var delta := d - p.cmean;
      var p1 := p.(cmean := p.cmean + delta / p.n as real);
      var p2 := p1.(cvarsx := p1.cvarsx + delta * (d - p1.cmean));
      var p3 := if p2.n == 1 then p2 else p2.(cvariance := p2.cvarsx / (p2.n as real - 1.0));
      p3.(calcValue := lib.sqrt(p3.cvariance))
    case KeepLeast =>
      if p.n == 1 then p.(calcValue := d)
      else if p.calcValue > d then p.(calcValue := d, resx := p.x, resn := p.n)
      else p
    case KeepGreatest =>
      if p.n == 1 then p.(calcValue := d)
      else if p.calcValue < d then p.(calcValue := d, resx := p.x, resn := p.n)
      else p
    case DifferenceCheck => p.(calcValue := d - p.calcValue)
  }

  /** The emitted statements fold the check value exactly as the interpreted engine does. */
  lemma FoldAgrees(lib: MathLib, t: SeqType, s: LayerState, d: real)
    requires s.n >= 1
    ensures ApplyFold(FoldCodeOf(t), lib, s, d) == FoldCheck(lib, t, s, d)
  {
  }

  function QuantityValue(q: Quantity, x: Complex): real {
    match q
    case RealSq => x.re * x.re
    case ImagSq => x.im * x.im
    case ManhattanSq => (AbsVal(x.im) + AbsVal(x.re)) * (AbsVal(x.im) + AbsVal(x.re))
    case ManrSq => (x.re + x.im) * (x.re + x.im)
    case NormSq => x.re * x.re + x.im * x.im
  }

  /**
   * Whether the emitted test holds for the value x against bailout b, or None when the
   * emitted expression is not well-typed C#, which the host compiler refuses.
   */
  function TestHolds(t: BailoutCode, x: Complex, b: real): Option<bool> {
    match t
    case Compare(q, greater) => Some(Beyond(QuantityValue(q, x), b, greater))
    case EitherPart(greater) => Some(Beyond(x.re * x.re, b, greater) || Beyond(x.im * x.im, b, greater))
    case BothParts(greater) => Some(Beyond(x.re * x.re, b, greater) && Beyond(x.im * x.im, b, greater))
    case PartsOred(_) => None
    case PartsAnded(_) => None
  }

  /** The bailout test of a layer, with OR and AND comparing each part with the bailout. */
  function BailoutOf(conv: ConvCheck, fractdiv: bool): BailoutCode {
    if conv == CONVCHK_REAL then Compare(RealSq, fractdiv)
    else if conv == CONVCHK_IMAG then Compare(ImagSq, fractdiv)
    else if conv == CONVCHK_OR then EitherPart(fractdiv)
    else if conv == CONVCHK_AND then BothParts(fractdiv)
    else if conv == CONVCHK_MANH then Compare(ManhattanSq, fractdiv)
    else if conv == CONVCHK_MANR then Compare(ManrSq, fractdiv)
    else Compare(NormSq, fractdiv)
  }

  /** The bailout test as the generator emits it: OR and AND join the squared parts themselves. */
  function BailoutAsWritten(conv: ConvCheck, fractdiv: bool): BailoutCode {
    if conv == CONVCHK_OR then PartsOred(fractdiv)
    else if conv == CONVCHK_AND then PartsAnded(fractdiv)
    else BailoutOf(conv, fractdiv)
  }

  /** The bailout test of the plan stops a layer exactly when the interpreted engine's does. */
  lemma BailoutAgrees(conv: ConvCheck, x: Complex, b: real, fractdiv: bool)
    ensures TestHolds(BailoutOf(conv, fractdiv), x, b) == Some(Escapes(conv, x, b, fractdiv))
  {
  }

  /**
   * As emitted, the OR and AND tests are not C# at all, whatever the point and the bailout,
   * so a layer list holding one of them never compiles; the other tests are the ones above.
   */
  lemma BailoutAsWrittenIllTyped(conv: ConvCheck, x: Complex, b: real, fractdiv: bool)
    ensures TestHolds(BailoutAsWritten(conv, fractdiv), x, b).None? <==> conv == CONVCHK_OR || conv == CONVCHK_AND
    ensures conv != CONVCHK_OR && conv != CONVCHK_AND ==>
      TestHolds(BailoutAsWritten(conv, fractdiv), x, b) == Some(Escapes(conv, x, b, fractdiv))
  {
    BailoutAgrees(conv, x, b, fractdiv);
  }

  /** The code of one layer that is not a smooth-triangle layer. */
  function LayerCodeOf(cfg: LayerConfig, isDeflayer: bool, fractdiv: bool, mandel: bool): LayerCode {
    LayerCode(EmittedSource(cfg.seqtype), CheckKindOf(cfg, fractdiv, mandel), FoldCodeOf(cfg.checkseqtype),
              BailoutOf(cfg.convchktype, fractdiv), cfg.checkseqtype == SEQ_MEAN, isDeflayer)
  }

  /** The code of every layer, in list order. */
  function LayerCodes(cfgs: seq<LayerConfig>, ends: seq<bool>, fractdiv: bool, mandel: bool): (r: seq<LayerCode>)
    requires |ends| == |cfgs|
    ensures |r| == |cfgs| && forall i :: 0 <= i < |cfgs| ==> r[i] == LayerCodeOf(cfgs[i], ends[i], fractdiv, mandel)
  {
    seq(|cfgs|, i requires 0 <= i < |cfgs| => LayerCodeOf(cfgs[i], ends[i], fractdiv, mandel))
  }

  /** Which layers are the very object passed as `deflayer`. */
  function Ends(ls: seq<ProcessLayer>, deflayer: ProcessLayer?): (r: seq<bool>)
    ensures |r| == |ls| && forall i :: 0 <= i < |ls| ==> (r[i] <==> ls[i] == deflayer)
  {
    seq(|ls|, i requires 0 <= i < |ls| => ls[i] == deflayer)
  }

  predicate HasSmoothTriangle(cfgs: seq<LayerConfig>) {
    exists j :: 0 <= j < |cfgs| && cfgs[j].checktype == CHECK_TRIANGLE_SMOOTH
  }

  /**
   * GenFractalCalc up to the compiler: an unknown fractal type is refused first, then a
   * smooth-triangle layer; otherwise the plan for the layers' configurations, with `ends`
   * marking the layers that are the default layer object.
   */
  function Generate(cfgs: seq<LayerConfig>, ends: seq<bool>, ft: FractalType, code: string): (r: Result<Plan, GenError>)
    requires |ends| == |cfgs|
    ensures r.Failure? ==> r.error == NotSupported(UnknownFractalType) || r.error == NotImplemented(NoSmoothTriangle)
    ensures r.Failure? && r.error.NotSupported? <==> StepOf(ft, code).None?
    ensures r.Failure? && r.error.NotImplemented? <==> StepOf(ft, code).Some? && HasSmoothTriangle(cfgs)
    ensures r.Success? ==> |r.value.layers| == |cfgs| && r.value.step == StepOf(ft, code).value
  {
    var step := StepOf(ft, code);
    if step.None? then Failure(NotSupported(UnknownFractalType))
    else if HasSmoothTriangle(cfgs) then Failure(NotImplemented(NoSmoothTriangle))
    else
      var modes := PointModes(cfgs);
      Success(Plan(modes, TriNormOf(ft, HasTriangle(cfgs)), step.value, AggregateCode(modes),
                   LayerCodes(cfgs, ends, Divergent(ft), ft == FRACTAL_MANDEL)))
  }

  /** The message of the first compiler error that is not a warning. */
  function FirstError(errs: seq<BuildError>): (r: Option<string>)
    ensures r.None? <==> forall i :: 0 <= i < |errs| ==> errs[i].isWarning
    ensures r.Some? ==> exists i :: 0 <= i < |errs| && !errs[i].isWarning && r.value == errs[i].text + " " + errs[i].line &&
                                    forall j :: 0 <= j < i ==> errs[j].isWarning
  {
    if errs == [] then None
    else if !errs[0].isWarning then Some(errs[0].text + " " + errs[0].line)
    else
      var r := FirstError(errs[1..]);
      assert forall i :: 1 <= i < |errs| ==> errs[1..][i - 1] == errs[i];
      r
  }

  /** The updates outside the moment chain are emitted iff their own flag is set, for any mask. */
  lemma {:induction false} PlainUpdates(m: SeqType)
    ensures var code := AggregateCode(m);
      (SumUpdate in code <==> HasFlag(m, SEQ_SUM)) &&
      (MinUpdate in code <==> HasFlag(m, SEQ_MIN)) &&
      (MaxUpdate in code <==> HasFlag(m, SEQ_MAX)) &&
      (DeltaUpdate in code <==> HasFlag(m, SEQ_DELTA))
  {
    var a: seq<AggStmt> := if HasFlag(m, SEQ_SUM) then [SumUpdate] else [];
    var b: seq<AggStmt> :=
      if !HasFlag(m, SEQ_MEAN) then []
      else if !HasFlag(m, SEQ_VARSX) then [MeanUpdate]
      else if !HasFlag(m, SEQ_VARIANCE) then [MeanUpdate, VarsxUpdate]
      else [MeanUpdate, VarsxUpdate, VarianceUpdate(HasFlag(m, SEQ_STDDEV))];
    var c: seq<AggStmt> := if HasFlag(m, SEQ_MIN) then [MinUpdate] else [];
    var d: seq<AggStmt> := if HasFlag(m, SEQ_MAX) then [MaxUpdate] else [];
    var e: seq<AggStmt> := if HasFlag(m, SEQ_DELTA) then [DeltaUpdate] else [];
    assert AggregateCode(m) == a + b + c + d + e;
    forall t: AggStmt
      ensures t in AggregateCode(m) <==> t in a || t in b || t in c || t in d || t in e
    {
    }
  }

  /** The moment chain is emitted as nested: each update needs its flag and all flags before it. */
  lemma {:induction false} MomentUpdates(m: SeqType)
    ensures var code := AggregateCode(m);
      (MeanUpdate in code <==> HasFlag(m, SEQ_MEAN)) &&
      (VarsxUpdate in code <==> HasFlag(m, SEQ_MEAN) && HasFlag(m, SEQ_VARSX)) &&
      (VarianceUpdate(false) in code <==>
         HasFlag(m, SEQ_MEAN) && HasFlag(m, SEQ_VARSX) && HasFlag(m, SEQ_VARIANCE) && !HasFlag(m, SEQ_STDDEV)) &&
      (VarianceUpdate(true) in code <==>
         HasFlag(m, SEQ_MEAN) && HasFlag(m, SEQ_VARSX) && HasFlag(m, SEQ_VARIANCE) && HasFlag(m, SEQ_STDDEV))
  {
    var a: seq<AggStmt> := if HasFlag(m, SEQ_SUM) then [SumUpdate] else [];
    var b: seq<AggStmt> :=
      if !HasFlag(m, SEQ_MEAN) then []
      else if !HasFlag(m, SEQ_VARSX) then [MeanUpdate]
      else if !HasFlag(m, SEQ_VARIANCE) then [MeanUpdate, VarsxUpdate]
      else [MeanUpdate, VarsxUpdate, VarianceUpdate(HasFlag(m, SEQ_STDDEV))];
    var c: seq<AggStmt> := if HasFlag(m, SEQ_MIN) then [MinUpdate] else [];
    var d: seq<AggStmt> := if HasFlag(m, SEQ_MAX) then [MaxUpdate] else [];
    var e: seq<AggStmt> := if HasFlag(m, SEQ_DELTA) then [DeltaUpdate] else [];
    assert AggregateCode(m) == a + b + c + d + e;
    InJoin(a, b, c, d, e, MeanUpdate);
    InJoin(a, b, c, d, e, VarsxUpdate);
    InJoin(a, b, c, d, e, VarianceUpdate(false));
    InJoin(a, b, c, d, e, VarianceUpdate(true));
  }

  /** An update is in the joined groups iff it is in one of them. */
  lemma InJoin(a: seq<AggStmt>, b: seq<AggStmt>, c: seq<AggStmt>, d: seq<AggStmt>, e: seq<AggStmt>, t: AggStmt)
    ensures t in a + b + c + d + e <==> t in a || t in b || t in c || t in d || t in e
  {
  }

  /**
   * The generated code keeps exactly the aggregates the point's modes ask for: once the modes
   * are closed, the nesting drops nothing, so each update is there iff its flag is, and a
   * layer with STDDEV gets the square root inside the variance update.
   */
  lemma AggregatesFollowModes(cfgs: seq<LayerConfig>)
    ensures var code := AggregateCode(PointModes(cfgs)); var m := PointModes(cfgs);
      (SumUpdate in code <==> HasFlag(m, SEQ_SUM)) &&
      (MeanUpdate in code <==> HasFlag(m, SEQ_MEAN)) &&
      (VarsxUpdate in code <==> HasFlag(m, SEQ_VARSX)) &&
      ((VarianceUpdate(false) in code || VarianceUpdate(true) in code) <==> HasFlag(m, SEQ_VARIANCE)) &&
      (VarianceUpdate(true) in code <==> HasFlag(m, SEQ_STDDEV)) &&
      (MinUpdate in code <==> HasFlag(m, SEQ_MIN)) &&
      (MaxUpdate in code <==> HasFlag(m, SEQ_MAX)) &&
      (DeltaUpdate in code <==> HasFlag(m, SEQ_DELTA))
    ensures forall j :: 0 <= j < |cfgs| && HasFlag(cfgs[j].seqtype, SEQ_STDDEV) ==>
      VarianceUpdate(true) in AggregateCode(PointModes(cfgs))
  {
    PointModesClosed(cfgs);
    PlainUpdates(PointModes(cfgs));
    MomentUpdates(PointModes(cfgs));
  }

  /** Without the closure a lone STDDEV layer would get no aggregate update at all. */
  lemma ClosureNeeded()
    ensures AggregateCode(SEQ_STDDEV) == []
    ensures AggregateCode(CloseModes(SEQ_STDDEV)) == [MeanUpdate, VarsxUpdate, VarianceUpdate(true)]
  {
    assert !HasFlag(SEQ_STDDEV, SEQ_MEAN) by { assert 1 in SEQ_MEAN; }
    assert !HasFlag(SEQ_STDDEV, SEQ_SUM) by { assert 0 in SEQ_SUM; }
    assert !HasFlag(SEQ_STDDEV, SEQ_MIN) by { assert 5 in SEQ_MIN; }
    assert !HasFlag(SEQ_STDDEV, SEQ_MAX) by { assert 6 in SEQ_MAX; }
    assert !HasFlag(SEQ_STDDEV, SEQ_DELTA) by { assert 7 in SEQ_DELTA; }
    var m := CloseModes(SEQ_STDDEV);
    assert m == SEQ_STDDEV + SEQ_VARIANCE + SEQ_VARSX + SEQ_MEAN;
    assert !HasFlag(m, SEQ_SUM) by { assert 0 !in m; }
    assert !HasFlag(m, SEQ_MIN) by { assert 5 !in m; }
    assert !HasFlag(m, SEQ_MAX) by { assert 6 !in m; }
    assert !HasFlag(m, SEQ_DELTA) by { assert 7 !in m; }
  }

  /**
   * The two engines move the same aggregates: an aggregate whose update the generated code
   * lacks is one the interpreted step leaves as it was.
   */
  lemma UnemittedAggregatesStay(lib: MathLib, modes: SeqType, a: Aggregates, newx: Complex, x: Complex, n: int)
    requires n >= 1
    ensures var code := AggregateCode(modes); var r := UpdateAggregates(lib, modes, a, newx, x, n);
      (SumUpdate !in code ==> r.sumx == a.sumx) &&
      (MeanUpdate !in code ==> r.meanx == a.meanx) &&
      (VarsxUpdate !in code ==> r.varsx == a.varsx) &&
      (VarianceUpdate(false) !in code && VarianceUpdate(true) !in code ==> r.variacex == a.variacex) &&
      (VarianceUpdate(true) !in code ==> r.sdx == a.sdx) &&
      (MinUpdate !in code ==> r.minx == a.minx) &&
      (MaxUpdate !in code ==> r.maxx == a.maxx) &&
      (DeltaUpdate !in code ==> r.deltax == a.deltax)
  {
  }

  /** c_x is fed from the same aggregate as in the interpreted engine, for every sequence type. */
  lemma SourceAgrees(seqtype: SeqType)
    ensures EmittedSource(seqtype) == SourceVariable(SourceOf(seqtype))
  {
  }

  /** The built-in statements compute the interpreted engine's step for their type. */
  lemma StepAgrees(ctx: PointContext, code: string, x: Complex, prev: Complex, n: int)
    requires StepOf(ctx.fractaltype, code).Some? && !StepOf(ctx.fractaltype, code).value.Snippet?
    ensures EmittedStep(StepOf(ctx.fractaltype, code).value, ctx.lib, x, ctx.c, ctx.param) == FractalStep(ctx, x, prev, n)
  {
    var x2 := FractalStep(ctx, x, prev, n);
    if ctx.fractaltype == FRACTAL_MANDEL {
      assert x.re * x.im * 2.0 == 2.0 * x.re * x.im;
    } else if ctx.fractaltype == FRACTAL_BURNINGSHIP {
      assert AbsVal(x.re * x.im) * 2.0 == 2.0 * AbsVal(x.re * x.im);
    }
  }

  /** `trinorm` has the value the interpreted engine computes for the same layers. */
  lemma TriNormAgrees(lib: MathLib, ft: FractalType, cfgs: seq<LayerConfig>, c: Complex)
    ensures TriNormValue(TriNormOf(ft, HasTriangle(cfgs)), lib, c) == TriNorm(lib, ft, c, HasTriangle(cfgs))
  {
  }

  /**
   * The emitted `if (p.c_active == false) p.c_calc /= p.c_n+1` of a MEAN layer is the
   * interpreted engine's finish of every layer the generator accepts.
   */
  lemma MeanFinishAgrees(ctx: PointContext, cfg: LayerConfig, isDeflayer: bool, s: LayerState)
    requires cfg.checktype != CHECK_TRIANGLE_SMOOTH && s.n >= 1
    ensures var lc := LayerCodeOf(cfg, isDeflayer, Divergent(ctx.fractaltype), ctx.fractaltype == FRACTAL_MANDEL);
      Finish(ctx, cfg, s) == if lc.meanFinish && !s.active then s.(calcValue := s.calcValue / (s.n + 1) as real) else s
  {
  }

  /**
   * Every layer of a generated plan takes the value, folds it and tests it against its
   * bailout as the interpreted engine does for that layer.
   */
  lemma PlanLayersAgree(lib: MathLib, cfgs: seq<LayerConfig>, ends: seq<bool>, ft: FractalType, code: string,
                        i: int, s: LayerState, d: real, x: Complex)
    requires |ends| == |cfgs| && 0 <= i < |cfgs| && s.n >= 1
    requires Generate(cfgs, ends, ft, code).Success?
    ensures var lc := Generate(cfgs, ends, ft, code).value.layers[i];
      lc.source == SourceVariable(SourceOf(cfgs[i].seqtype)) &&
      ApplyFold(lc.fold, lib, s, d) == FoldCheck(lib, cfgs[i].checkseqtype, s, d) &&
      TestHolds(lc.bailout, x, cfgs[i].bailout) == Some(Escapes(cfgs[i].convchktype, x, cfgs[i].bailout, Divergent(ft)))
  {
    var lc := Generate(cfgs, ends, ft, code).value.layers[i];
    assert lc == LayerCodeOf(cfgs[i], ends[i], Divergent(ft), ft == FRACTAL_MANDEL);
    SourceAgrees(cfgs[i].seqtype);
    FoldAgrees(lib, cfgs[i].checkseqtype, s, d);
    BailoutAgrees(cfgs[i].convchktype, x, cfgs[i].bailout, Divergent(ft));
  }

  /**
   * Only the layer that is the very `deflayer` object ends the loop, fixed when the code is
   * generated: when no layer is that object no layer ends it; in a list of distinct objects
   * holding it, exactly its index does.
   */
  lemma EndsAtDeflayer(ls: seq<ProcessLayer>, deflayer: ProcessLayer?, ft: FractalType, code: string, cfgs: seq<LayerConfig>)
    requires |cfgs| == |ls|
    requires Generate(cfgs, Ends(ls, deflayer), ft, code).Success?
    ensures var p := Generate(cfgs, Ends(ls, deflayer), ft, code).value;
      forall i :: 0 <= i < |ls| ==> (p.layers[i].endsLoop <==> ls[i] == deflayer)
    ensures var p := Generate(cfgs, Ends(ls, deflayer), ft, code).value;
      deflayer !in ls ==> forall i :: 0 <= i < |ls| ==> !p.layers[i].endsLoop
    ensures var p := Generate(cfgs, Ends(ls, deflayer), ft, code).value;
      Distinct(ls) && deflayer in ls ==>
        forall i :: 0 <= i < |ls| ==> (p.layers[i].endsLoop <==> Some(i) == IndexIn(ls, deflayer))
  {
    var p := Generate(cfgs, Ends(ls, deflayer), ft, code).value;
    forall i | 0 <= i < |ls|
      ensures p.layers[i].endsLoop <==> ls[i] == deflayer
    {
      assert p.layers[i] == LayerCodeOf(cfgs[i], Ends(ls, deflayer)[i], Divergent(ft), ft == FRACTAL_MANDEL);
    }
  }

  /** The reset loop of GetPoint: every layer starts again from x. */
  method ResetLayers(ls: seq<ProcessLayer>, x: Complex)
    requires Distinct(ls)
    modifies ls`st
    ensures States(ls) == ResetAll(old(States(ls)), x)
    ensures Configs(ls) == old(Configs(ls))
  {
    ghost var s0 := States(ls);
    for i := 0 to |ls|
      invariant forall j :: 0 <= j < i ==> ls[j].st == Reset(s0[j], x)
      invariant forall j :: i <= j < |ls| ==> ls[j].st == s0[j]
    {
      ls[i].st := Reset(ls[i].st, x);
    }
  }

  /** The compiled routine runs on the layer objects: each takes its final state. */
  method RunRoutine(routine: Routine, ls: seq<ProcessLayer>, x: Complex, c: Complex, pr: real)
    requires Distinct(ls)
    modifies ls`st
    ensures States(ls) == routine(x, c, pr, old(Configs(ls)), old(States(ls)))
    ensures Configs(ls) == old(Configs(ls))
  {
    var sts := routine(x, c, pr, Configs(ls), States(ls));
    for i := 0 to |ls|
      invariant forall j :: 0 <= j < i ==> ls[j].st == sts[j]
      invariant forall j :: i <= j < |ls| ==> ls[j].st == old(ls[j].st)
    {
      ls[i].st := sts[i];
    }
  }

  /** The body of GetPoint after the dequeue: the reset loop, then the compiled routine. */
  method ResetAndRun(routine: Routine, ls: seq<ProcessLayer>, x: Complex, c: Complex, pr: real)
    requires Distinct(ls)
    modifies ls`st
    ensures States(ls) == routine(x, c, pr, old(Configs(ls)), ResetAll(old(States(ls)), x))
    ensures Configs(ls) == old(Configs(ls))
  {
    ResetLayers(ls, x);
    RunRoutine(routine, ls, x, c, pr);
  }

  /** The calculator GenFractalCalc returns: a compiled routine and a FIFO queue of points. */
  class PreCompiledCalculator {
    const routine: Routine
    var ld: seq<ProcessLayer>
    var param: real
    var queue: seq<QueuedPoint>

    /** No layer list yet ([] stands for null) and no pending point. */
    constructor (routine: Routine)
      ensures this.routine == routine && ld == [] && queue == []
    {
      this.routine := routine;
      ld := [];
      param := 0.0;
      queue := [];
    }

    /** Takes the layer list and the parameter; pending points are discarded. */
    method InitData(layerData: seq<ProcessLayer>, param: real, count: int)
      modifies this`ld, this`param, this`queue
      ensures ld == layerData && this.param == param && queue == []
    {
      ld := layerData;
      this.param := param;
      queue := [];
    }

    method AddPoint(px: int, py: int, x: Complex, c: Complex)
      modifies this`queue
      ensures queue == old(queue) + [QueuedPoint(px, py, x, c)]
    {
      queue := queue + [QueuedPoint(px, py, x, c)];
    }

    /**
     * Takes the oldest point, resets every layer of the shared list to start from its x, and
     * runs the compiled routine on the list, which it returns; an empty queue gives false,
     * (0, 0) and no layers.
     */
    method GetPoint() returns (ok: bool, px: int, py: int, layers: seq<ProcessLayer>)
      requires Distinct(ld)
      modifies this`queue, ld`st
      ensures old(queue) == [] ==> !ok && px == 0 && py == 0 && layers == []
      ensures old(queue) == [] ==> queue == [] && States(ld) == old(States(ld))
      ensures old(queue) != [] ==> ok && queue == old(queue[1..]) && layers == ld
      ensures old(queue) != [] ==> px == old(queue[0]).px && py == old(queue[0]).py
      ensures old(queue) != [] ==>
        States(ld) == routine(old(queue[0]).x, old(queue[0]).c, param, old(Configs(ld)),
                              ResetAll(old(States(ld)), old(queue[0]).x))
      ensures Configs(ld) == old(Configs(ld))
    {
      if queue == [] {
        return false, 0, 0, [];
      }
      var t := queue[0];
      queue := queue[1..];
      px, py := t.px, t.py;
      layers := ld;
      ResetAndRun(routine, ld, t.x, t.c, param);
      ok := true;
    }

    method EndSend() {
    }

    method EndGet(final: bool) {
    }
  }

  /**
   * The first loop of GenFractalCalc: the or of the layers' sequence types, closed under
   * STDDEV => VARIANCE => VARSX => MEAN, and whether some layer has a triangle flag.
   */
  method GatherModes(ls: seq<ProcessLayer>) returns (modesused: SeqType, hastriangle: bool)
    ensures modesused == PointModes(Configs(ls)) && hastriangle == HasTriangle(Configs(ls))
  {
    ghost var cfgs := Configs(ls);
    hastriangle := false;
    modesused := {};
    for i := 0 to |ls|
      invariant modesused == ModesUpTo(cfgs, i) && hastriangle == TriangleUpTo(cfgs, i)
    {
      if HasFlag(ls[i].cfg.checktype, CHECK_TRIANGLE) { hastriangle := true; }
      if HasFlag(ls[i].cfg.checktype, CHECK_TRIANGLE_SMOOTH) { hastriangle := true; }
      modesused := modesused + ls[i].cfg.seqtype;
    }
    if HasFlag(modesused, SEQ_STDDEV) { modesused := modesused + SEQ_VARIANCE; }
    if HasFlag(modesused, SEQ_VARIANCE) { modesused := modesused + SEQ_VARSX; }
    if HasFlag(modesused, SEQ_VARSX) { modesused := modesused + SEQ_MEAN; }
  }

  /**
   * The layer loop of GenFractalCalc: each layer's code in list order; the first
   * smooth-triangle layer stops generation (ok false).
   */
  method EmitLayers(ls: seq<ProcessLayer>, deflayer: ProcessLayer?, fractdiv: bool, mandel: bool)
    returns (layers: seq<LayerCode>, ok: bool)
    ensures ok <==> !HasSmoothTriangle(Configs(ls))
    ensures ok ==> layers == LayerCodes(Configs(ls), Ends(ls, deflayer), fractdiv, mandel)
  {
    ghost var cfgs := Configs(ls);
    layers := [];
    for i := 0 to |ls|
      invariant |layers| == i
      invariant forall j :: 0 <= j < i ==> cfgs[j].checktype != CHECK_TRIANGLE_SMOOTH
      invariant forall j :: 0 <= j < i ==> layers[j] == LayerCodeOf(ls[j].cfg, ls[j] == deflayer, fractdiv, mandel)
    {
      var p := ls[i];
      var source := EmittedSource(p.cfg.seqtype);
      var check := CheckKindOf(p.cfg, fractdiv, mandel);
      if p.cfg.checktype == CHECK_TRIANGLE_SMOOTH {
        return layers, false;
      }
      var fold := FoldCodeOf(p.cfg.checkseqtype);
      var bailout := BailoutOf(p.cfg.convchktype, fractdiv);
      var meanFinish := p.cfg.checkseqtype == SEQ_MEAN;
      var endsLoop := p == deflayer;
      layers := layers + [LayerCode(source, check, fold, bailout, meanFinish, endsLoop)];
    }
    ok := true;
  }

  /** The error loop after compiling: the message of the first error that is not a warning. */
  method CompileErrorOf(errors: seq<BuildError>) returns (e: Option<string>)
    ensures e == FirstError(errors)
  {
    for i := 0 to |errors|
      invariant forall j :: 0 <= j < i ==> errors[j].isWarning
    {
      if !errors[i].isWarning {
        return Some(errors[i].text + " " + errors[i].line);
      }
    }
    e := None;
  }

  /**
   * GenFractalCalc up to the compiler: gathers the modes and the triangle flag, picks the
   * iteration statement (an unknown type is refused), and emits the aggregates and each
   * layer's code (a smooth-triangle layer is refused).
   */
  method GeneratePlan(ls: seq<ProcessLayer>, ft: FractalType, code: string, deflayer: ProcessLayer?)
    returns (r: Result<Plan, GenError>)
    ensures r == Generate(Configs(ls), Ends(ls, deflayer), ft, code)
  {
    ghost var cfgs := Configs(ls);
    ghost var g := Generate(cfgs, Ends(ls, deflayer), ft, code);
    var modesused, hastriangle := GatherModes(ls);
    var trinorm := TriNormOf(ft, hastriangle);

    var fractdiv := true;
    var step: StepCode;
    if ft == FRACTAL_MANDEL {
      step := MandelStep;
    } else if ft == FRACTAL_MANDEL_N {
      step := MandelNStep;
    } else if ft == FRACTAL_BURNINGSHIP {
      step := ShipStep;
    } else if ft == FRACTAL_BURNINGSHIP_N {
      step := ShipNStep;
    } else if ft == FRACTAL_DIVERGENT {
      step := Snippet(code);
    } else if ft == FRACTAL_CONVERGENT {
      fractdiv := false;
      step := Snippet(code);
    } else {
      return Failure(NotSupported(UnknownFractalType));
    }
    var aggregates := AggregateCode(modesused);

    var layers, ok := EmitLayers(ls, deflayer, fractdiv, ft == FRACTAL_MANDEL);
    if !ok {
      return Failure(NotImplemented(NoSmoothTriangle));
    }
    r := Success(Plan(modesused, trinorm, step, aggregates, layers));
    assert g.Success? && r.value == g.value;
  }

  /**
   * GenFractalCalc: gathers the modes and the triangle flag, picks the iteration statement,
   * emits the aggregates and each layer's code, then compiles. An unknown type, a
   * smooth-triangle layer and a compiler error are refused, in that order.
   */
  method GenFractalCalc(ls: seq<ProcessLayer>, ft: FractalType, code: string, deflayer: ProcessLayer?,
                        compile: Plan -> Build) returns (r: Result<PreCompiledCalculator, GenError>)
    ensures var g := Generate(Configs(ls), Ends(ls, deflayer), ft, code);
      g.Failure? ==> r == Failure(g.error)
    ensures var g := Generate(Configs(ls), Ends(ls, deflayer), ft, code);
      g.Success? && FirstError(compile(g.value).errors).Some? ==>
        r == Failure(NotImplemented(FirstError(compile(g.value).errors).value))
    ensures var g := Generate(Configs(ls), Ends(ls, deflayer), ft, code);
      g.Success? && FirstError(compile(g.value).errors).None? ==>
        r.Success? && fresh(r.value) && r.value.routine == compile(g.value).routine &&
        r.value.ld == [] && r.value.queue == []
  {
    var g := GeneratePlan(ls, ft, code, deflayer);
    if g.Failure? {
      return Failure(g.error);
    }
    var plan := g.value;
    var build := compile(plan);
    var e := CompileErrorOf(build.errors);
    if e.Some? {
      return Failure(NotImplemented(e.value));
    }
    var calculator := new PreCompiledCalculator(build.routine);
    r := Success(calculator);
  }
}
