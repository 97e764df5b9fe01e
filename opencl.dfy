/**
 * The OpenCL engine of RestFract.Generators.OpenCL/OpenCLCalculatorFactory.cs.
 *
 * GenFractalCalc writes the source of one OpenCL kernel, `FractalCalc`, with a
 * StringBuilder. It takes the same generation-time decisions as the pre-compiled engine
 * (closed modes, triangle norm, iteration statement, per-layer code, the two refusals), so
 * those are the pre-compiled engine's Plan; what is particular to this engine is text:
 * the kernel's output parameters (one `out_p<i>` per layer), the per-layer initialisation
 * of the private structs `p<i>`, and the aggregate updates of the loop body. Building the
 * program on the device is a parameter, and so is what the built kernel computes.
 *
 * The calculator packs the submitted points into two host arrays, runs the kernel once
 * over all of them, reads one result array per layer back, and unpacks every point's
 * results into clones of the template layers, which GetPoint hands out in order.
 */
module OpenCLEngine {
  import opened ComplexMath
  import opened Flags
  import opened Layers
  import opened Iteration
  import opened Wrappers
  import opened Calculators
  import opened PreCompiledEngine

  // ---------------------------------------------------------------------------------
  // Decimal numerals, as `"out_p" + i` prints a non-negative int

  predicate IsDigit(ch: char) {
    '0' <= ch <= '9'
  }

  predicate AllDigits(s: string) {
    forall k :: 0 <= k < |s| ==> IsDigit(s[k])
  }

  function Digit(d: nat): (ch: char)
    requires d < 10
    ensures IsDigit(ch)
  {
    (48 + d) as char
  }

  function DigitValue(ch: char): nat
    requires IsDigit(ch)
  {
    ch as int - 48
  }

  /** The shortest decimal numeral of n: digits only, and no leading zero unless n is 0. */
  function Decimal(n: nat): (r: string)
    ensures 1 <= |r| && AllDigits(r)
    ensures r[0] == '0' ==> n == 0
  {
    if n < 10 then [Digit(n)] else Decimal(n / 10) + [Digit(n % 10)]
  }

  /** The value of a string of digits. */
  function ParseDecimal(s: string): nat
    requires AllDigits(s)
  {
    if s == [] then 0 else ParseDecimal(s[..|s| - 1]) * 10 + DigitValue(s[|s| - 1])
  }

  lemma {:induction false} DecimalRoundTrip(n: nat)
    ensures ParseDecimal(Decimal(n)) == n
  {
    if n >= 10 {
      DecimalRoundTrip(n / 10);
      var s := Decimal(n);
      assert s[..|s| - 1] == Decimal(n / 10);
    }
  }

  /** The longest prefix of s made of digits. */
  function LeadingDigits(s: string): (r: string)
    ensures r <= s && AllDigits(r) && (|r| < |s| ==> !IsDigit(s[|r|]))
  {
    if s == [] || !IsDigit(s[0]) then [] else [s[0]] + LeadingDigits(s[1..])
  }

  // ---------------------------------------------------------------------------------
  // The kernel's output parameters

  const OutParamHead := "    global write_only struct ProcessLayer* out_p"

  /** What follows parameter i of count: a comma, or the end of the list and the body's brace. */
  function Separator(i: nat, count: nat): string {
    if i + 1 == count then "\n){" else ",\n"
  }

  function OutParam(i: nat, count: nat): string {
    OutParamHead + Decimal(i) + Separator(i, count)
  }

  /** The parameter declarations of the kernel for count layers, in layer order. */
  function OutParams(count: nat): (r: seq<string>)
    ensures |r| == count && forall i :: 0 <= i < count ==> r[i] == OutParam(i, count)
  {
    seq(count, i requires 0 <= i < count => OutParam(i, count))
  }

  /** The strings of ss, one after the other. */
  function Joined(ss: seq<string>): string {
    if ss == [] then "" else Joined(ss[..|ss| - 1]) + ss[|ss| - 1]
  }

  predicate EndsWith(s: string, t: string) {
    |t| <= |s| && s[|s| - |t|..] == t
  }

  /** The number a parameter declaration names: the digits after `out_p`, if any. */
  function ParseOutParam(p: string): Option<nat> {
    if |p| < |OutParamHead| || p[..|OutParamHead|] != OutParamHead then None
    else
      var ds := LeadingDigits(p[|OutParamHead|..]);
      if ds == [] then None else Some(ParseDecimal(ds))
  }

  /** Joining one more string appends it. */
  lemma JoinedSnoc(kernel: string, ss: seq<string>, i: nat)
    requires i < |ss|
    ensures kernel + Joined(ss[..i + 1]) == kernel + Joined(ss[..i]) + ss[i]
  {
    assert ss[..i + 1][..i] == ss[..i];
  }

  /** The loop over the layers that writes the parameter list. */
  method AppendOutParams(kernel: string, count: nat) returns (k: string)
    ensures k == kernel + Joined(OutParams(count))
  {
    ghost var ps := OutParams(count);
    k := kernel;
    for i := 0 to count
      invariant k == kernel + Joined(ps[..i])
    {
      k := k + (OutParamHead + Decimal(i));
      k := k + Separator(i, count);
      JoinedSnoc(kernel, ps, i);
    }
    assert ps[..count] == ps;
  }

  /** The digits of a numeral stop at the first character that is not a digit. */
  lemma {:induction false} LeadingDigitsOf(d: string, t: string)
    requires AllDigits(d) && (t == [] || !IsDigit(t[0]))
    ensures LeadingDigits(d + t) == d
  {
    if d == [] {
      assert d + t == t;
    } else {
      assert (d + t)[0] == d[0] && (d + t)[1..] == d[1..] + t;
      LeadingDigitsOf(d[1..], t);
      assert d == [d[0]] + d[1..];
    }
  }

  /** A string ends with what was appended to it, and with every ending of that. */
  lemma EndsWithAppend(a: string, b: string, t: string)
    requires t != [] && EndsWith(b, t)
    ensures EndsWith(a + b, t) && (a + b)[|a + b| - 1] == b[|b| - 1]
  {
    assert (a + b)[|a + b| - |t|..] == b[|b| - |t|..];
  }

  /** Parameter i of any list names layer i: the numbers read back are 0, 1, ... in order. */
  lemma OutParamsNumbered(count: nat)
    ensures forall i :: 0 <= i < count ==> ParseOutParam(OutParams(count)[i]) == Some(i)
  {
    forall i | 0 <= i < count
      ensures ParseOutParam(OutParams(count)[i]) == Some(i)
    {
      var p := OutParam(i, count);
      assert p[..|OutParamHead|] == OutParamHead;
      assert p[|OutParamHead|..] == Decimal(i) + Separator(i, count);
      LeadingDigitsOf(Decimal(i), Separator(i, count));
      DecimalRoundTrip(i);
    }
  }

  /**
   * Every parameter but the last ends with ",\n" and only the last with "\n){", so the list
   * is closed exactly when there is at least one layer; with none the signature stays open.
   */
  lemma OutParamsClose(count: nat)
    ensures forall i :: 0 <= i < count ==> (EndsWith(OutParams(count)[i], "\n){") <==> i == count - 1)
    ensures forall i :: 0 <= i < count ==> (EndsWith(OutParams(count)[i], ",\n") <==> i < count - 1)
    ensures EndsWith(Joined(OutParams(count)), "\n){") <==> count > 0
  {
    forall i | 0 <= i < count
      ensures (EndsWith(OutParams(count)[i], "\n){") <==> i == count - 1) &&
              (EndsWith(OutParams(count)[i], ",\n") <==> i < count - 1)
    {
      var sep := Separator(i, count);
      EndsWithAppend(OutParamHead + Decimal(i), sep, sep);
    }
    if count > 0 {
      var ps := OutParams(count);
      assert Joined(ps) == Joined(ps[..count - 1]) + ps[count - 1];
      EndsWithAppend(Joined(ps[..count - 1]), ps[count - 1], "\n){");
    }
  }

  // ---------------------------------------------------------------------------------
  // The per-layer initialisation

  datatype FlagField = ActiveField | IsinField
  datatype NumberField = CalcField | CmeanField | CvarsxField | CvarianceField
  datatype VectorField = XField | OldxField | Old2xField

  /** One emitted assignment to a field of `p<i>`: an int, a float, or a float2 set to `x`. */
  datatype Assignment = SetFlag(flag: FlagField, value: nat) | SetNumber(number: NumberField, value: nat) | SetStart(vector: VectorField)

  /** The nine assignments every layer's struct gets before the loop, in the emitted order. */
  const LayerInit: seq<Assignment> := [
    SetFlag(ActiveField, 1), SetFlag(IsinField, 0),
    SetStart(XField), SetStart(OldxField), SetStart(Old2xField),
    SetNumber(CalcField, 0), SetNumber(CmeanField, 0), SetNumber(CvarsxField, 0), SetNumber(CvarianceField, 0)]

  function FieldName(a: Assignment): string {
    match a
    case SetFlag(f, _) => (match f case ActiveField => "c_active" case IsinField => "c_isin")
    case SetNumber(f, _) =>
      (match f case CalcField => "c_calc" case CmeanField => "c_cmean" case CvarsxField => "c_cvarsx"
               case CvarianceField => "c_cvariance")
    case SetStart(f) => (match f case XField => "c_x" case OldxField => "c_oldx" case Old2xField => "c_old2x")
  }

  function ValueText(a: Assignment): string {
    match a
    case SetFlag(_, v) => Decimal(v)
    case SetNumber(_, v) => Decimal(v)
    case SetStart(_) => "x"
  }

  /** `p<i>.<field> = <value>;` */
  function AssignmentText(i: nat, a: Assignment): string {
    "p" + Decimal(i) + "." + FieldName(a) + " = " + ValueText(a) + ";"
  }

  /** The first j assignments of layer i, in order. */
  function AssignmentsUpTo(i: nat, j: nat): string
    requires j <= |LayerInit|
  {
    if j == 0 then "" else AssignmentsUpTo(i, j - 1) + AssignmentText(i, LayerInit[j - 1])
  }

  /** The declaration of layer i's private struct. */
  function Declaration(i: nat): string {
    "struct ProcessLayer p" + Decimal(i) + ";"
  }

  /** The declaration of layer i's private struct and its nine assignments. */
  function InitText(i: nat): string {
    Declaration(i) + AssignmentsUpTo(i, |LayerInit|)
  }

  function InitTexts(count: nat): (r: seq<string>)
    ensures |r| == count && forall i :: 0 <= i < count ==> r[i] == InitText(i)
  {
    seq(count, i requires 0 <= i < count => InitText(i))
  }

  /**
   * What an assignment does to the layer the struct stands for: an int field is read back
   * as a flag (`!= 0`, as the unpacking does), a float field takes the number, a float2
   * field takes the start value.
   */
  function Store(s: LayerState, a: Assignment, x: Complex): LayerState {
    match a
    case SetFlag(f, v) => (match f case ActiveField => s.(active := v != 0) case IsinField => s.(isin := v != 0))
    case SetNumber(f, v) =>
      (match f
       case CalcField => s.(calcValue := v as real)
       case CmeanField => s.(cmean := v as real)
       case CvarsxField => s.(cvarsx := v as real)
       case CvarianceField => s.(cvariance := v as real))
    case SetStart(f) => (match f case XField => s.(x := x) case OldxField => s.(oldx := x) case Old2xField => s.(old2x := x))
  }

  /** The assignments from position k on, in order. */
  function ExecFrom(k: nat, s: LayerState, x: Complex): LayerState
    decreases |LayerInit| - k
  {
    if k >= |LayerInit| then s else ExecFrom(k + 1, Store(s, LayerInit[k], x), x)
  }

  /**
   * The emitted initialisation is the reset of the interpreted engines: active, outside, the
   * three history slots at the start value and zero statistics. c_n, c_resx and c_resn are
   * not assigned: they keep whatever the struct holds.
   */
  lemma InitIsReset(s: LayerState, x: Complex)
    ensures ExecFrom(0, s, x) == Reset(s, x)
  {
    var s1 := s.(active := true);
    var s2 := s1.(isin := false);
    var s3 := s2.(x := x);
    var s4 := s3.(oldx := x);
    var s5 := s4.(old2x := x);
    var s6 := s5.(calcValue := 0.0);
    var s7 := s6.(cmean := 0.0);
    var s8 := s7.(cvarsx := 0.0);
    var s9 := s8.(cvariance := 0.0);
    assert ExecFrom(9, s9, x) == s9;
    assert ExecFrom(8, s8, x) == s9;
    assert ExecFrom(7, s7, x) == s9;
    assert ExecFrom(6, s6, x) == s9;
    assert ExecFrom(5, s5, x) == s9;
    assert ExecFrom(4, s4, x) == s9;
    assert ExecFrom(3, s3, x) == s9;
    assert ExecFrom(2, s2, x) == s9;
    assert ExecFrom(1, s1, x) == s9;
  }

  /** Appending assignment j after the first j extends them by one. */
  lemma AssignmentAppended(k0: string, d: string, i: nat, j: nat)
    requires j < |LayerInit|
    ensures k0 + (d + AssignmentsUpTo(i, j)) + AssignmentText(i, LayerInit[j]) == k0 + (d + AssignmentsUpTo(i, j + 1))
  {
  }

  /** Appending the declaration and the nine assignments one by one appends InitText. */
  lemma InitTextAppended(k0: string, i: nat)
    ensures k0 + Declaration(i) +
      AssignmentText(i, SetFlag(ActiveField, 1)) + AssignmentText(i, SetFlag(IsinField, 0)) +
      AssignmentText(i, SetStart(XField)) + AssignmentText(i, SetStart(OldxField)) +
      AssignmentText(i, SetStart(Old2xField)) + AssignmentText(i, SetNumber(CalcField, 0)) +
      AssignmentText(i, SetNumber(CmeanField, 0)) + AssignmentText(i, SetNumber(CvarsxField, 0)) +
      AssignmentText(i, SetNumber(CvarianceField, 0)) == k0 + InitText(i)
  {
    var d := Declaration(i);
    assert k0 + d == k0 + (d + AssignmentsUpTo(i, 0));
    AssignmentAppended(k0, d, i, 0);
    AssignmentAppended(k0, d, i, 1);
    AssignmentAppended(k0, d, i, 2);
    AssignmentAppended(k0, d, i, 3);
    AssignmentAppended(k0, d, i, 4);
    AssignmentAppended(k0, d, i, 5);
    AssignmentAppended(k0, d, i, 6);
    AssignmentAppended(k0, d, i, 7);
    AssignmentAppended(k0, d, i, 8);
  }

  /** The loop that declares and initialises one struct per layer. */
  method AppendInits(kernel: string, count: nat) returns (k: string)
    ensures k == kernel + Joined(InitTexts(count))
  {
    ghost var ts := InitTexts(count);
    k := kernel;
    for i := 0 to count
      invariant k == kernel + Joined(ts[..i])
    {
      ghost var k0 := k;
      k := k + ("struct ProcessLayer p" + Decimal(i) + ";");
      k := k + AssignmentText(i, SetFlag(ActiveField, 1));
      k := k + AssignmentText(i, SetFlag(IsinField, 0));
      k := k + AssignmentText(i, SetStart(XField));
      k := k + AssignmentText(i, SetStart(OldxField));
      k := k + AssignmentText(i, SetStart(Old2xField));
      k := k + AssignmentText(i, SetNumber(CalcField, 0));
      k := k + AssignmentText(i, SetNumber(CmeanField, 0));
      k := k + AssignmentText(i, SetNumber(CvarsxField, 0));
      k := k + AssignmentText(i, SetNumber(CvarianceField, 0));
      InitTextAppended(k0, i);
      JoinedSnoc(kernel, ts, i);
    }
    assert ts[..count] == ts;
  }

  // ---------------------------------------------------------------------------------
  // The aggregate updates of the loop body

  /** The text of one aggregate update. MIN and MAX compare norms where the interpreted
      engine compares magnitudes; both order the values alike. */
  function UpdateText(a: AggStmt): string {
    match a
    case SumUpdate => "sumx += newx;"
    case MeanUpdate => "deltax = newx-meanx;" + "meanx += deltax/(float)n;"
    case VarsxUpdate => "varsx += MULC(deltax,(newx-meanx));"
    case VarianceUpdate(stddev) =>
      "if (n!=1) {" + "variacex = varsx / (float)((float)n-(float)1.0f);" +
      (if stddev then "sdx = powc(variacex,0.5f);" else "") + "}"
    case MinUpdate => "if (n==1) minx = newx; else {" + "if (NORM(newx)<NORM(minx)) { minx = newx; } }"
    case MaxUpdate => "if (n==1) maxx = newx; else {" + "if (NORM(newx)>NORM(maxx)) { maxx = newx; } }"
    case DeltaUpdate => "deltax = newx - x;"
  }

  /** The text as the generator writes it: the DELTA update lacks its semicolon. */
  function UpdateTextAsWritten(a: AggStmt): string {
    if a == DeltaUpdate then "deltax = newx - x" else UpdateText(a)
  }

  function UpdatesText(code: seq<AggStmt>): string {
    if code == [] then "" else UpdatesText(code[..|code| - 1]) + UpdateText(code[|code| - 1])
  }

  function UpdatesTextAsWritten(code: seq<AggStmt>): string {
    if code == [] then "" else UpdatesTextAsWritten(code[..|code| - 1]) + UpdateTextAsWritten(code[|code| - 1])
  }

  /** A C statement or block ends with ';' or '}'. */
  predicate Terminated(t: string) {
    t != [] && (t[|t| - 1] == ';' || t[|t| - 1] == '}')
  }

  /** Appending one statement's text to a kernel appends the extended list's text. */
  lemma UpdatesSnoc(kernel: string, code: seq<AggStmt>, a: AggStmt)
    ensures kernel + UpdatesText(code + [a]) == kernel + UpdatesText(code) + UpdateText(a)
  {
    assert (code + [a])[..|code|] == code;
  }

  /** Appends one statement to a kernel whose updates so far are the text of `code`. */
  method EmitUpdate(k0: string, ghost kernel: string, ghost code: seq<AggStmt>, a: AggStmt) returns (k: string)
    requires k0 == kernel + UpdatesText(code)
    ensures k == kernel + UpdatesText(code + [a])
  {
    UpdatesSnoc(kernel, code, a);
    k := k0 + UpdateText(a);
  }

  /** The statement `a` when its mode is in use, and nothing otherwise. */
  function Optional(used: bool, a: AggStmt): (r: seq<AggStmt>)
    ensures |r| <= 1 && (used <==> r == [a])
  {
    if used then [a] else []
  }

  /** The MEAN chain of the statement list: MEAN, VARSX and VARIANCE, each inside the last. */
  function MomentCode(modes: SeqType): (r: seq<AggStmt>)
    ensures HasFlag(modes, SEQ_MEAN) <==> MeanUpdate in r
    ensures |r| <= 3
  {
    if !HasFlag(modes, SEQ_MEAN) then []
    else if !HasFlag(modes, SEQ_VARSX) then [MeanUpdate]
    else if !HasFlag(modes, SEQ_VARIANCE) then [MeanUpdate, VarsxUpdate]
    else [MeanUpdate, VarsxUpdate, VarianceUpdate(HasFlag(modes, SEQ_STDDEV))]
  }

  /** The statement list falls into the five groups the generator emits one after the other. */
  lemma AggregateGroups(modes: SeqType)
    ensures AggregateCode(modes) ==
            Optional(HasFlag(modes, SEQ_SUM), SumUpdate) + MomentCode(modes) +
            Optional(HasFlag(modes, SEQ_MIN), MinUpdate) + Optional(HasFlag(modes, SEQ_MAX), MaxUpdate) +
            Optional(HasFlag(modes, SEQ_DELTA), DeltaUpdate)
  {
  }

  /** Appends statement `a` when its mode is in use. */
  method AppendIf(k0: string, ghost kernel: string, ghost code: seq<AggStmt>, used: bool, a: AggStmt)
    returns (k: string)
    requires k0 == kernel + UpdatesText(code)
    ensures k == kernel + UpdatesText(code + Optional(used, a))
  {
    k := k0;
    if used {
      k := EmitUpdate(k, kernel, code, a);
    } else {
      assert code + [] == code;
    }
  }

  lemma SnocTwo(code: seq<AggStmt>, x: AggStmt, y: AggStmt)
    ensures code + [x] + [y] == code + [x, y]
  {
  }

  lemma SnocThree(code: seq<AggStmt>, x: AggStmt, y: AggStmt, z: AggStmt)
    ensures code + [x] + [y] + [z] == code + [x, y, z]
  {
  }

  /** Appends the MEAN chain: VARSX only inside MEAN, VARIANCE only inside VARSX. */
  method AppendMoments(k0: string, ghost kernel: string, ghost code: seq<AggStmt>, modes: SeqType)
    returns (k: string)
    requires k0 == kernel + UpdatesText(code)
    ensures k == kernel + UpdatesText(code + MomentCode(modes))
  {
    k := k0;
    if HasFlag(modes, SEQ_MEAN) {
      k := EmitUpdate(k, kernel, code, MeanUpdate);
      if HasFlag(modes, SEQ_VARSX) {
        k := EmitUpdate(k, kernel, code + [MeanUpdate], VarsxUpdate);
        if HasFlag(modes, SEQ_VARIANCE) {
          var v := VarianceUpdate(HasFlag(modes, SEQ_STDDEV));
          k := EmitUpdate(k, kernel, code + [MeanUpdate] + [VarsxUpdate], v);
          assert MomentCode(modes) == [MeanUpdate, VarsxUpdate, v];
          SnocThree(code, MeanUpdate, VarsxUpdate, v);
        } else {
          assert MomentCode(modes) == [MeanUpdate, VarsxUpdate];
          SnocTwo(code, MeanUpdate, VarsxUpdate);
        }
      }
    } else {
      assert code + [] == code;
    }
  }

  /**
   * The aggregate updates as the generator writes them: SUM, then the MEAN chain, then MIN,
   * MAX and DELTA; the text is the pre-compiled engine's statement list, rendered.
   */
  method AppendUpdates(kernel: string, modes: SeqType) returns (k: string)
    ensures k == kernel + UpdatesText(AggregateCode(modes))
  {
    ghost var code: seq<AggStmt> := [];
    assert kernel + UpdatesText(code) == kernel;
    k := AppendIf(kernel, kernel, code, HasFlag(modes, SEQ_SUM), SumUpdate);
    code := code + Optional(HasFlag(modes, SEQ_SUM), SumUpdate);
    k := AppendMoments(k, kernel, code, modes);
    code := code + MomentCode(modes);
    k := AppendIf(k, kernel, code, HasFlag(modes, SEQ_MIN), MinUpdate);
    code := code + Optional(HasFlag(modes, SEQ_MIN), MinUpdate);
    k := AppendIf(k, kernel, code, HasFlag(modes, SEQ_MAX), MaxUpdate);
    code := code + Optional(HasFlag(modes, SEQ_MAX), MaxUpdate);
    k := AppendIf(k, kernel, code, HasFlag(modes, SEQ_DELTA), DeltaUpdate);
    code := code + Optional(HasFlag(modes, SEQ_DELTA), DeltaUpdate);
    AggregateGroups(modes);
    assert [] + Optional(HasFlag(modes, SEQ_SUM), SumUpdate) == Optional(HasFlag(modes, SEQ_SUM), SumUpdate);
  }

  /** Every update the corrected generator writes is a terminated statement, and so is
      their text as a whole. */
  lemma {:induction false} UpdatesTerminated(code: seq<AggStmt>)
    ensures forall j :: 0 <= j < |code| ==> Terminated(UpdateText(code[j]))
    ensures code != [] ==> Terminated(UpdatesText(code))
  {
    forall j | 0 <= j < |code|
      ensures Terminated(UpdateText(code[j]))
    {
      var t := UpdateText(code[j]);
      match code[j]
      case VarianceUpdate(sd) =>
        assert t[|t| - 1] == '}';
      case MinUpdate =>
        assert t[|t| - 1] == '}';
      case MaxUpdate =>
        assert t[|t| - 1] == '}';
      case _ =>
        assert t[|t| - 1] == ';';
    }
    if code != [] {
      var last := UpdateText(code[|code| - 1]);
      assert UpdatesText(code) == UpdatesText(code[..|code| - 1]) + last;
      assert UpdatesText(code)[|UpdatesText(code)| - 1] == last[|last| - 1];
    }
  }

  /**
   * As written, a layer with the DELTA sequence type makes the update text end in the
   * unterminated `deltax = newx - x`, which runs into the next statement: with a first layer
   * that is `p = &p0;`, giving `deltax = newx - xp = &p0;`.
   */
  lemma DeltaLayerUnterminated(cfgs: seq<LayerConfig>, j: nat)
    requires j < |cfgs| && HasFlag(cfgs[j].seqtype, SEQ_DELTA)
    ensures !Terminated(UpdatesTextAsWritten(AggregateCode(PointModes(cfgs))))
    ensures UpdateTextAsWritten(DeltaUpdate) + "p = &p" + Decimal(0) + ";" == "deltax = newx - xp = &p0;"
  {
    var m := PointModes(cfgs);
    PointModesClosed(cfgs);
    assert HasFlag(m, SEQ_DELTA);
    var code := AggregateCode(m);
    var front := code[..|code| - 1];
    assert code[|code| - 1] == DeltaUpdate;
    var t := UpdatesTextAsWritten(code);
    assert t == UpdatesTextAsWritten(front) + "deltax = newx - x";
    assert t[|t| - 1] == 'x';
  }

  /** Without a DELTA update the text as written is the corrected one. */
  lemma {:induction false} AsWrittenWithoutDelta(code: seq<AggStmt>)
    requires DeltaUpdate !in code
    ensures UpdatesTextAsWritten(code) == UpdatesText(code)
  {
    if code != [] {
      AsWrittenWithoutDelta(code[..|code| - 1]);
    }
  }

  /**
   * As written, the update text of a layer list is empty or terminated exactly when no layer
   * asks for the DELTA sequence type.
   */
  lemma AsWrittenTerminatedIff(cfgs: seq<LayerConfig>)
    ensures var t := UpdatesTextAsWritten(AggregateCode(PointModes(cfgs)));
      (t == "" || Terminated(t)) <==> !HasFlag(PointModes(cfgs), SEQ_DELTA)
  {
    var m := PointModes(cfgs);
    var code := AggregateCode(m);
    if HasFlag(m, SEQ_DELTA) {
      LastIsDelta(m);
      UnterminatedAfterDelta(code);
    } else {
      PlainUpdates(m);
      AsWrittenWithoutDelta(code);
      UpdatesTerminated(code);
    }
  }

  /** With the DELTA flag the DELTA update is the last one emitted. */
  lemma LastIsDelta(m: SeqType)
    requires HasFlag(m, SEQ_DELTA)
    ensures var code := AggregateCode(m); code != [] && code[|code| - 1] == DeltaUpdate
  {
  }

  /** A text as written that ends with the DELTA update ends unterminated. */
  lemma UnterminatedAfterDelta(code: seq<AggStmt>)
    requires code != [] && code[|code| - 1] == DeltaUpdate
    ensures var t := UpdatesTextAsWritten(code); t != "" && !Terminated(t)
  {
    var front := UpdatesTextAsWritten(code[..|code| - 1]);
    var last := UpdateTextAsWritten(code[|code| - 1]);
    assert last == "deltax = newx - x";
    assert UpdatesTextAsWritten(code) == front + last;
    LastOfJoin(front, last);
  }

  /** The last character of a join is that of its non-empty right part. */
  lemma LastOfJoin(a: string, b: string)
    requires b != []
    ensures (a + b)[|a + b| - 1] == b[|b| - 1]
  {
  }

  // ---------------------------------------------------------------------------------
  // The kernel as generated

  /**
   * What GenFractalCalc writes that is particular to this engine: the output parameters,
   * the per-layer initialisation and the aggregate updates, with the decisions it shares with
   * the pre-compiled engine (modes, triangle norm, iteration statement, layer code).
   */
  datatype Kernel = Kernel(outParams: string, inits: string, updates: string, plan: Plan)

  /**
   * The kernel for a layer list: refused exactly when the pre-compiled engine refuses it,
   * for the same reason; otherwise one output parameter and one initialisation per layer and
   * the rendered statement list of the plan.
   */
  function KernelFor(cfgs: seq<LayerConfig>, ends: seq<bool>, ft: FractalType, code: string): (r: Result<Kernel, GenError>)
    requires |ends| == |cfgs|
    ensures r.Failure? <==> PreCompiledEngine.Generate(cfgs, ends, ft, code).Failure?
    ensures r.Failure? ==> r.error == PreCompiledEngine.Generate(cfgs, ends, ft, code).error
    ensures r.Success? ==> r.value.plan == PreCompiledEngine.Generate(cfgs, ends, ft, code).value
  {
    match PreCompiledEngine.Generate(cfgs, ends, ft, code)
    case Failure(e) => Failure(e)
    case Success(plan) =>
      Success(Kernel(Joined(OutParams(|cfgs|)), Joined(InitTexts(|cfgs|)), UpdatesText(plan.aggregates), plan))
  }

  /**
   * A generated kernel names one output parameter per layer, `out_p0` to `out_p<n-1>` in
   * order, closes its parameter list after the last one, and every aggregate update in it is
   * a terminated statement.
   */
  lemma KernelWellFormed(cfgs: seq<LayerConfig>, ends: seq<bool>, ft: FractalType, code: string)
    requires |ends| == |cfgs| && KernelFor(cfgs, ends, ft, code).Success?
    ensures var k := KernelFor(cfgs, ends, ft, code).value;
      k.outParams == Joined(OutParams(|cfgs|)) &&
      (forall i :: 0 <= i < |cfgs| ==> ParseOutParam(OutParams(|cfgs|)[i]) == Some(i)) &&
      (EndsWith(k.outParams, "\n){") <==> |cfgs| > 0) &&
      (k.updates == "" || Terminated(k.updates)) &&
      k.updates == UpdatesText(AggregateCode(PointModes(cfgs)))
  {
    var k := KernelFor(cfgs, ends, ft, code).value;
    OutParamsNumbered(|cfgs|);
    OutParamsClose(|cfgs|);
    UpdatesTerminated(k.plan.aggregates);
    assert k.plan.aggregates == AggregateCode(PointModes(cfgs));
  }

  /** A generated plan gives the kernel of its layer list; the kernel sections start empty. */
  lemma KernelOfPlan(cfgs: seq<LayerConfig>, ends: seq<bool>, ft: FractalType, code: string, plan: Plan)
    requires |ends| == |cfgs| && PreCompiledEngine.Generate(cfgs, ends, ft, code) == Success(plan)
    ensures KernelFor(cfgs, ends, ft, code) ==
            Success(Kernel("" + Joined(OutParams(|cfgs|)), "" + Joined(InitTexts(|cfgs|)),
                           "" + UpdatesText(AggregateCode(plan.modes)), plan))
  {
    assert "" + Joined(OutParams(|cfgs|)) == Joined(OutParams(|cfgs|));
    assert "" + Joined(InitTexts(|cfgs|)) == Joined(InitTexts(|cfgs|));
    assert "" + UpdatesText(plan.aggregates) == UpdatesText(plan.aggregates);
  }

  /**
   * GenFractalCalc up to the build: the output parameters and the initialisations, the
   * decisions it shares with the pre-compiled engine (an unknown type and a smooth-triangle
   * layer are refused there), and the updates of the closed modes. The source interleaves
   * these appends with the decisions; each append depends only on the layer count or the
   * modes, so the order does not change the kernel.
   */
  method GenerateKernel(ls: seq<ProcessLayer>, ft: FractalType, code: string, deflayer: ProcessLayer?)
    returns (r: Result<Kernel, GenError>)
    ensures r == KernelFor(Configs(ls), Ends(ls, deflayer), ft, code)
  {
    var outParams := AppendOutParams("", |ls|);
    var inits := AppendInits("", |ls|);
    var g := GeneratePlan(ls, ft, code, deflayer);
    if g.Failure? {
      return Failure(g.error);
    }
    var plan := g.value;
    var updates := AppendUpdates("", plan.modes);
    KernelOfPlan(Configs(ls), Ends(ls, deflayer), ft, code, plan);
    r := Success(Kernel(outParams, inits, updates, plan));
  }

  // ---------------------------------------------------------------------------------
  // The device's record of a layer, and the host's view of it

  /** PrProcessLayer: the record the kernel writes for a point and a layer; flags are ints. */
  datatype PrLayer = PrLayer(old2x: Complex, oldx: Complex, x: Complex, resx: Complex,
                             calcValue: real, cmean: real, cvarsx: real, cvariance: real,
                             active: int, isin: int, n: int, resn: int)

  /** A record whose every field is zero, as a new host array holds. */
  const Blank := PrLayer(Zero, Zero, Zero, Zero, 0.0, 0.0, 0.0, 0.0, 0, 0, 0, 0)

  /** The state EndSend copies into a cloned layer: a flag is set when its int is not 0. */
  function StateOf(p: PrLayer): (r: LayerState)
    ensures r.active <==> p.active != 0
    ensures r.isin <==> p.isin != 0
  {
    LayerState(p.active != 0, p.isin != 0, p.old2x, p.oldx, p.x, p.n, p.calcValue, p.cmean, p.cvarsx, p.cvariance,
               p.resx, p.resn)
  }

  /** The record a layer state is written as on the device: a set flag as 1, a clear one as 0. */
  function DeviceLayer(s: LayerState): (r: PrLayer)
    ensures 0 <= r.active <= 1 && 0 <= r.isin <= 1
  {
    PrLayer(s.old2x, s.oldx, s.x, s.resx, s.calcValue, s.cmean, s.cvarsx, s.cvariance,
            if s.active then 1 else 0, if s.isin then 1 else 0, s.n, s.resn)
  }

  /** Reading a written state back loses nothing. */
  lemma StateRoundTrip(s: LayerState)
    ensures StateOf(DeviceLayer(s)) == s
  {
  }

  /** Writing a read record back gives the record exactly when its flags are 0 or 1, which
      are the only values the kernel stores in them. */
  lemma DeviceRoundTrip(p: PrLayer)
    ensures DeviceLayer(StateOf(p)) == p <==> 0 <= p.active <= 1 && 0 <= p.isin <= 1
  {
    if 0 <= p.active <= 1 && 0 <= p.isin <= 1 {
      assert DeviceLayer(StateOf(p)).active == p.active;
      assert DeviceLayer(StateOf(p)).isin == p.isin;
    }
  }

  /** What the built kernel computes for layer `i` of one work item, from its start point
      and its constant. */
  type Device = (Complex, Complex, nat) -> PrLayer

  /** One result array of length n per layer, every record zero. */
  function Blanks(layers: nat, n: nat): (r: seq<seq<PrLayer>>)
    ensures |r| == layers && forall i :: 0 <= i < layers ==> |r[i]| == n
    ensures forall i, j :: 0 <= i < layers && 0 <= j < n ==> r[i][j] == Blank
  {
    seq(layers, _ => seq(n, _ => Blank))
  }

  /**
   * The result buffers after the kernel has run over the first n work items and each
   * buffer has been read back: work item j writes record j of every layer, and the records
   * past n keep what the buffer held.
   */
  function Readback(dev: Device, xs: seq<Complex>, cs: seq<Complex>, n: nat, buffers: seq<seq<PrLayer>>)
    : (r: seq<seq<PrLayer>>)
    requires n <= |xs| && n <= |cs|
    ensures |r| == |buffers| && forall i :: 0 <= i < |r| ==> |r[i]| == |buffers[i]|
    ensures forall i, j :: 0 <= i < |r| && 0 <= j < |r[i]| && j < n ==> r[i][j] == dev(xs[j], cs[j], i)
    ensures forall i, j :: 0 <= i < |r| && n <= j < |r[i]| ==> r[i][j] == buffers[i][j]
  {
    seq(|buffers|, i requires 0 <= i < |buffers| =>
      seq(|buffers[i]|, j requires 0 <= j < |buffers[i]| => if j < n then dev(xs[j], cs[j], i) else buffers[i][j]))
  }

  /** Work items are independent: what a point gets back depends on its own start point and
      constant only, not on the other points of the batch nor on its place in it. */
  lemma {:induction false} ReadbackIsLocal(dev: Device, xs: seq<Complex>, cs: seq<Complex>, n: nat,
                                           xs': seq<Complex>, cs': seq<Complex>, n': nat,
                                           buffers: seq<seq<PrLayer>>, j: nat, j': nat, i: nat)
    requires n <= |xs| && n <= |cs| && n' <= |xs'| && n' <= |cs'|
    requires i < |buffers| && j < n && j' < n' && j < |buffers[i]| && j' < |buffers[i]|
    requires xs[j] == xs'[j'] && cs[j] == cs'[j']
    ensures Readback(dev, xs, cs, n, buffers)[i][j] == Readback(dev, xs', cs', n', buffers)[i][j']
  {
  }

  // ---------------------------------------------------------------------------------
  // The calculator

  /** A point's results, as EndSend queues them: its pixel and a clone of every layer. */
  datatype Entry = Entry(px: int, py: int, layers: seq<ProcessLayer>)

  /**
   * The first loop of EndSend: start point and constant of point i go to slot i of the two
   * host arrays. More points than slots stops the loop at the first slot past the end
   * (ok false), after the slots before it have been written.
   */
  method Pack(points: seq<QueuedPoint>, inx: array<Complex>, inc: array<Complex>) returns (ok: bool)
    requires inx != inc && inx.Length == inc.Length
    modifies inx, inc
    ensures ok <==> |points| <= inx.Length
    ensures forall j :: 0 <= j < inx.Length ==> inx[j] == if j < |points| then points[j].x else old(inx[j])
    ensures forall j :: 0 <= j < inc.Length ==> inc[j] == if j < |points| then points[j].c else old(inc[j])
  {
    var i := 0;
    while i < |points|
      invariant 0 <= i <= |points| && i <= inx.Length
      invariant forall j :: 0 <= j < inx.Length ==> inx[j] == if j < i then points[j].x else old(inx[j])
      invariant forall j :: 0 <= j < inc.Length ==> inc[j] == if j < i then points[j].c else old(inc[j])
    {
      if i == inx.Length {
        return false;
      }
      inx[i] := points[i].x;
      inc[i] := points[i].c;
      i := i + 1;
    }
    ok := true;
  }

  /** The states of point k across the layers' result arrays. */
  function Column(opl: seq<seq<PrLayer>>, k: nat): (r: seq<LayerState>)
    requires forall ii :: 0 <= ii < |opl| ==> k < |opl[ii]|
    ensures |r| == |opl| && forall ii :: 0 <= ii < |opl| ==> r[ii] == StateOf(opl[ii][k])
  {
    seq(|opl|, ii requires 0 <= ii < |opl| => StateOf(opl[ii][k]))
  }

  /**
   * The last loop of EndSend: for every submitted point in order, its pixel and a clone of
   * every template layer carrying the state read back for that point.
   */
  method Unpack(points: seq<QueuedPoint>, template: seq<ProcessLayer>, opl: seq<seq<PrLayer>>)
    returns (out: seq<Entry>)
    requires |opl| == |template| && forall ii :: 0 <= ii < |opl| ==> |points| <= |opl[ii]|
    ensures |out| == |points|
    ensures forall k :: 0 <= k < |out| ==>
      out[k].px == points[k].px && out[k].py == points[k].py && |out[k].layers| == |template|
    ensures forall k, ii :: 0 <= k < |out| && 0 <= ii < |template| ==> fresh(out[k].layers[ii])
    ensures forall k, ii :: 0 <= k < |out| && 0 <= ii < |template| ==>
      out[k].layers[ii].cfg == template[ii].cfg && out[k].layers[ii].isDefault == template[ii].isDefault
    ensures forall k, ii :: 0 <= k < |out| && 0 <= ii < |template| ==> out[k].layers[ii].st == StateOf(opl[ii][k])
  {
    out := [];
    var k := 0;
    while k < |points|
      invariant 0 <= k <= |points| && |out| == k
      invariant forall t :: 0 <= t < k ==>
        out[t].px == points[t].px && out[t].py == points[t].py && |out[t].layers| == |template|
      invariant forall t, ii :: 0 <= t < k && 0 <= ii < |template| ==> fresh(out[t].layers[ii])
      invariant forall t, ii :: 0 <= t < k && 0 <= ii < |template| ==> out[t].layers[ii].cfg == template[ii].cfg
      invariant forall t, ii :: 0 <= t < k && 0 <= ii < |template| ==> out[t].layers[ii].isDefault == template[ii].isDefault
      invariant forall t, ii :: 0 <= t < k && 0 <= ii < |template| ==> out[t].layers[ii].st == StateOf(opl[ii][t])
    {
      var pl := CloneWith(template, Column(opl, k));
      out := out + [Entry(points[k].px, points[k].py, pl)];
      k := k + 1;
    }
  }

  /**
   * The calculator GenFractalCalc returns: the built kernel, the layer templates, the queued
   * points, the two host input arrays of `count` slots, the device's result buffers (one per
   * layer, `count` records each) and their host copies, and the queue of finished points.
   * A field the source leaves null until InitData or EndSend is empty here.
   */
  class OpenCLCalculator {
    const device: Device
    var param: real
    var count: int
    var ld: seq<ProcessLayer>
    var points: seq<QueuedPoint>
    var output: seq<Entry>
    var inx: array<Complex>
    var inc: array<Complex>
    var outp: seq<seq<PrLayer>>
    var opl: seq<seq<PrLayer>>

    /** Two host arrays and one buffer and one host copy of `count` records per layer. */
    ghost predicate Valid()
      reads this
    {
      inx != inc && inx.Length == count && inc.Length == count &&
      |outp| == |ld| && |opl| == |ld| &&
      (forall i :: 0 <= i < |ld| ==> |outp[i]| == count && |opl[i]| == count)
    }

    constructor (device: Device)
      ensures this.device == device && Valid()
      ensures count == 0 && ld == [] && points == [] && output == [] && outp == [] && opl == []
      ensures fresh(inx) && fresh(inc)
    {
      this.device := device;
      param := 0.0;
      count := 0;
      ld := [];
      points := [];
      output := [];
      inx := new Complex[0];
      inc := new Complex[0];
      outp := [];
      opl := [];
    }

    /**
     * Keeps the layers, the parameter and the size, clears the points, and allocates zeroed
     * host arrays and result buffers of `count` slots; a negative size fails at the first
     * allocation, after the first four fields are set.
     */
    method InitData(layerData: seq<ProcessLayer>, param: real, count: int) returns (ok: bool)
      modifies this
      ensures this.param == param && ld == layerData && this.count == count && points == []
      ensures output == old(output)
      ensures ok <==> count >= 0
      ensures ok ==> Valid() && fresh(inx) && fresh(inc) && outp == Blanks(|layerData|, count) &&
                     opl == Blanks(|layerData|, count)
      ensures ok ==> forall j :: 0 <= j < count ==> inx[j] == Zero && inc[j] == Zero
      ensures !ok ==> inx == old(inx) && inc == old(inc) && outp == old(outp) && opl == old(opl)
    {
      this.param := param;
      ld := layerData;
      this.count := count;
      points := [];
      if count < 0 {
        return false;
      }
      inx := new Complex[count](_ => Zero);
      inc := new Complex[count](_ => Zero);
      opl := Blanks(|layerData|, count);
      outp := Blanks(|layerData|, count);
      ok := true;
    }

    /** Queues a point for the next batch. */
    method AddPoint(px: int, py: int, x: Complex, c: Complex)
      modifies this
      ensures points == old(points) + [QueuedPoint(px, py, x, c)]
      ensures param == old(param) && count == old(count) && ld == old(ld) && output == old(output)
      ensures inx == old(inx) && inc == old(inc) && outp == old(outp) && opl == old(opl)
    {
      points := points + [QueuedPoint(px, py, x, c)];
    }

    /** Dequeues the next finished point; with none left, false and a zero pixel. */
    method GetPoint() returns (ok: bool, px: int, py: int, layers: seq<ProcessLayer>)
      modifies this
      ensures ok <==> old(output) != []
      ensures ok ==> px == old(output)[0].px && py == old(output)[0].py && layers == old(output)[0].layers &&
                     output == old(output)[1..]
      ensures !ok ==> px == 0 && py == 0 && layers == [] && output == []
      ensures param == old(param) && count == old(count) && ld == old(ld) && points == old(points)
      ensures inx == old(inx) && inc == old(inc) && outp == old(outp) && opl == old(opl)
    {
      if |output| > 0 {
        var t := output[0];
        output := output[1..];
        return true, t.px, t.py, t.layers;
      } else {
        return false, 0, 0, [];
      }
    }

    /**
     * Packs the points, runs the kernel over them and reads every layer's buffer back, then
     * replaces the queue by one entry per point, in submission order, whose layers are clones
     * of the templates carrying the device's results for that point. More points than slots
     * fails (ok false) after packing the slots there are; the queue and the buffers stay.
     */
    method EndSend() returns (ok: bool)
      requires Valid()
      modifies this, inx, inc
      ensures Valid()
      ensures param == old(param) && count == old(count) && ld == old(ld) && points == old(points)
      ensures inx == old(inx) && inc == old(inc)
      ensures ok <==> |points| <= count
      ensures forall j :: 0 <= j < count ==> inx[j] == if j < |points| then points[j].x else old(inx[j])
      ensures forall j :: 0 <= j < count ==> inc[j] == if j < |points| then points[j].c else old(inc[j])
      ensures !ok ==> outp == old(outp) && opl == old(opl) && output == old(output)
      ensures ok ==> outp == Readback(device, inx[..], inc[..], |points|, old(outp)) && opl == outp
      ensures ok ==> |output| == |points| && forall k :: 0 <= k < |points| ==>
        output[k].px == points[k].px && output[k].py == points[k].py && |output[k].layers| == |ld|
      ensures ok ==> forall k, ii :: 0 <= k < |points| && 0 <= ii < |ld| ==> fresh(output[k].layers[ii])
      ensures ok ==> forall k, ii :: 0 <= k < |points| && 0 <= ii < |ld| ==>
        output[k].layers[ii].cfg == ld[ii].cfg && output[k].layers[ii].isDefault == ld[ii].isDefault
      ensures ok ==> forall k, ii :: 0 <= k < |points| && 0 <= ii < |ld| ==>
        output[k].layers[ii].st == StateOf(device(points[k].x, points[k].c, ii))
    {
      ok := Pack(points, inx, inc);
      if !ok {
        return;
      }
      Run();
    }

    /**
     * The rest of EndSend, once the points are packed: the kernel runs over one work item per
     * point, every layer's buffer is read back, and the queue is rebuilt from the copies.
     */
    method Run()
      requires Valid() && |points| <= count
      requires forall j :: 0 <= j < |points| ==> inx[j] == points[j].x && inc[j] == points[j].c
      modifies this
      ensures Valid()
      ensures param == old(param) && count == old(count) && ld == old(ld) && points == old(points)
      ensures inx == old(inx) && inc == old(inc)
      ensures outp == Readback(device, inx[..], inc[..], |points|, old(outp)) && opl == outp
      ensures |output| == |points| && forall k :: 0 <= k < |points| ==>
        output[k].px == points[k].px && output[k].py == points[k].py && |output[k].layers| == |ld|
      ensures forall k, ii :: 0 <= k < |points| && 0 <= ii < |ld| ==> fresh(output[k].layers[ii])
      ensures forall k, ii :: 0 <= k < |points| && 0 <= ii < |ld| ==>
        output[k].layers[ii].cfg == ld[ii].cfg && output[k].layers[ii].isDefault == ld[ii].isDefault
      ensures forall k, ii :: 0 <= k < |points| && 0 <= ii < |ld| ==>
        output[k].layers[ii].st == StateOf(device(points[k].x, points[k].c, ii))
    {
      outp := Readback(device, inx[..], inc[..], |points|, outp);
      opl := outp;
      var entries := Unpack(points, ld, opl);
      output := entries;
      forall k, ii | 0 <= k < |points| && 0 <= ii < |ld|
        ensures entries[k].layers[ii].st == StateOf(device(points[k].x, points[k].c, ii))
      {
        assert entries[k].layers[ii].st == StateOf(opl[ii][k]);
        assert opl[ii][k] == device(inx[k], inc[k], ii);
      }
    }

    /** Ends a batch: the queued points are dropped. */
    method EndGet(final: bool)
      modifies this
      ensures points == []
      ensures param == old(param) && count == old(count) && ld == old(ld) && output == old(output)
      ensures inx == old(inx) && inc == old(inc) && outp == old(outp) && opl == old(opl)
    {
      points := [];
    }
  }

  /** Building the kernel on the device: the built kernel's function, or the build log. */
  datatype BuildOutcome = Built(device: Device) | BuildLog(log: string)

  /** Why GenFractalCalc threw: a refusal while generating, or a failed build. */
  datatype KernelError = Refused(reason: GenError) | BuildFailed(message: string)

  const BuildErrorPrefix := "Error while building: "

  /**
   * GenFractalCalc: generates the kernel, builds it, and wraps the built kernel in a new
   * calculator. A refusal is passed on; a failed build carries the build log.
   */
  method GenFractalCalc(ls: seq<ProcessLayer>, ft: FractalType, code: string, deflayer: ProcessLayer?,
                        build: Kernel -> BuildOutcome) returns (r: Result<OpenCLCalculator, KernelError>)
    ensures var g := KernelFor(Configs(ls), Ends(ls, deflayer), ft, code);
      g.Failure? ==> r == Failure(Refused(g.error))
    ensures var g := KernelFor(Configs(ls), Ends(ls, deflayer), ft, code);
      g.Success? && build(g.value).BuildLog? ==> r == Failure(BuildFailed(BuildErrorPrefix + build(g.value).log))
    ensures var g := KernelFor(Configs(ls), Ends(ls, deflayer), ft, code);
      g.Success? && build(g.value).Built? ==>
        r.Success? && fresh(r.value) && r.value.device == build(g.value).device &&
        r.value.ld == [] && r.value.points == [] && r.value.output == []
  {
    var k := GenerateKernel(ls, ft, code, deflayer);
    if k.Failure? {
      return Failure(Refused(k.error));
    }
    var outcome := build(k.value);
    if outcome.BuildLog? {
      return Failure(BuildFailed(BuildErrorPrefix + outcome.log));
    }
    var calculator := new OpenCLCalculator(outcome.device);
    r := Success(calculator);
  }
}
