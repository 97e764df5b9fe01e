# RestFract in Dafny

RestFract draws escape-time fractals (Mandelbrot, Julia, Burning Ship and user formulas) by
iterating every pixel through a list of processing layers. Each layer has its own bailout test,
iteration limit, followed sequence (plain, sum, mean, variance, min, max, delta ...) and check
value (smooth, triangle inequality, orbit trap ...). Colour layers then map what the processing
layers found to colours, and an output sink receives the pixels.

This project models the control logic of that pipeline and proves properties of it:

- the layer record (`Layers`): construction, `LoadFrom`, `Clone`, `Similar`;
- the per-point iteration as a value-level specification (`Iteration`), with the reset, the
  closure of the sequence modes, the active-layer step, the bailout and iteration-limit stop,
  and the folds of the check values;
- the interpreting engine (`SimpleEngine`): a FIFO queue and `CalcFractal`, an in-place loop
  over layer objects, proved to leave exactly the states the `Iteration` run computes;
- the code-generating engines: the generation-time decisions of the CodeDom engine
  (`PreCompiledEngine`) and of the OpenCL engine (`OpenCLEngine`), including the kernel header,
  initialisation and aggregate-update text, the device record layout, point packing, result
  unpacking and the output queue;
- the distributed engine: the little-endian wire records (`Binary`, `Wire`), the frames on a
  connection (`Frames`), the client (`DistributedClient`), the server session loop
  (`DistributedServer`) and the end-to-end protocol lemmas (`Protocol`);
- the driver (`Drawing`): the `Type`/`Factory`/`Fractal`/`setFunction` setters and the order of
  calculator calls in `Draw`, in line mode and global mode;
- colour-layer management (`Coloring`): `AddLayer` deduplication, `setDefaultLayer`,
  `SwapLayers`, `DeleteLayer` and the selection and clamping of `PutPoint`;
- colours and gradients (`Colors`, `Gradients`): clamping, RGB/HSV conversion, blending, the
  sorted stop map with keys 0 and 1, `getPoint` bracketing, `Reverse`;
- the output sinks (`Flattening`, `BmpOutput`): the pixel-coalescing state machine and the
  buffered 24-bit BMP writer (header bytes, pitch, bottom-up pixel offsets).

Complex numbers are pairs of exact reals. Transcendental functions (`exp`, `log`, `sqrt`,
`Complex.Pow`, `Complex.Sqrt`, `Complex.Atan`, magnitude, phase, rounding) are fields of a
`MathLib` value passed in, so they stay uninterpreted. Doubles on the wire are opaque 64-bit
words, with the conversion between reals and words as a parameter (IEEE 754-2008 binary64,
section 3.4, is not modelled bit by bit). Foreign calls (the host C# compiler, the compiled
routine, the OpenCL device and program build, TCP peers, BinaryFormatter) are parameters or
opaque values.

## Model

| member | source | states |
|---|---|---|
| Flags.CloseModes | RestFract/Generators/SimpleCalculatorFactory.cs:159-161 | the closed mask contains the input, satisfies STDDEV ⇒ VARIANCE ⇒ VARSX ⇒ MEAN, and adds no flag outside MEAN, VARSX and VARIANCE |
| Flags.CloseModesLeast | RestFract/Generators/SimpleCalculatorFactory.cs:159-161 | the closure is contained in every closed mask that contains the input, so closing twice changes nothing |
| ComplexMath.Norm | RestFract/Generators/SimpleCalculatorFactory.cs:22 | the squared modulus is never negative |
| ComplexMath.AbsVal | RestFract/Generators/SimpleCalculatorFactory.cs:21 | the result is non-negative and is x or -x |
| ComplexMath.FractalMandel | RestFract/Generators/SimpleCalculatorFactory.cs:24-29 | the step written on the parts is the complex x·x + c |
| ComplexMath.FractalBurningShip | RestFract/Generators/SimpleCalculatorFactory.cs:36-41 | the Burning Ship step is the Mandelbrot step taken from the point with both parts made non-negative |
| ComplexMath.AbsProduct | RestFract/Generators/SimpleCalculatorFactory.cs:40 | \|a·b\| = \|a\|·\|b\| and \|a\|² = a², which makes the two forms of the Burning Ship step agree |
| ComplexMath.PowerTwoSteps | RestFract/Generators/SimpleCalculatorFactory.cs:24-46 | with exponent 2 and a power function that squares, the power steps Fractal_Mandel_n and Fractal_BurningShip_n coincide with the closed-form steps Fractal_Mandel and Fractal_BurningShip |
| ComplexMath.OriginFixed | RestFract/Generators/SimpleCalculatorFactory.cs:24-41 | with c = 0 the origin is a fixed point of both quadratic steps |
| Layers.ResetStartsFresh | RestFract/Generators/SimpleCalculatorFactory.cs:142-157 | a reset layer is active, not inside, has x = oldx = old2x = start and zero statistics, and keeps n, resx and resn |
| Layers.Reset | RestFract/Generators/SimpleCalculatorFactory.cs:144-156 | the reset of one layer; ResetStartsFresh states what it leaves |
| Layers.ProcessLayer.Empty | RestFract/ProcessLayer.cs:65-83 | the parameterless constructor sets the default configuration, default = false and the all-zero state |
| Layers.ProcessLayer.constructor | RestFract/ProcessLayer.cs:86-104 | the configuration fields are the arguments; active, default and isin are false and n, calc, x, resx are zero |
| Layers.ProcessLayer.LoadFrom | RestFract/ProcessLayer.cs:106-131 | afterwards all 22 fields equal those the source layer had; loading from itself changes nothing |
| Layers.ProcessLayer.Clone | RestFract/ProcessLayer.cs:133-136 | a fresh object, field-wise equal to the original; later changes to it cannot reach the original |
| Layers.ProcessLayer.Similar | RestFract/ProcessLayer.cs:138-149 | true exactly when the nine configuration fields agree; the default flag and the state do not matter |
| Layers.SimilarEquivalence | RestFract/ProcessLayer.cs:138-149 | Similar is reflexive, symmetric and transitive (doubles compared as exact reals) |
| Layers.ValuesAt | RestFract/ProcessLayer.cs:152-177 | the value list of a layer list holds each layer's 22 fields at its index |
| Layers.CloneWith | RestFract.Generators.OpenCL/OpenCLCalculatorFactory.cs:131-150 | one fresh clone per template layer, with the template's configuration and default flag and the given state |
| Layers.IndexIn | RestFract.Generators.Distributed/DistributedCalculatorFactory.cs:160-163 | a found index holds that very object; none is found exactly when the object is not in the list |
| Iteration.FoldCheck | RestFract/Generators/SimpleCalculatorFactory.cs:351-390 | folding a check value changes only calc, cmean, cvarsx, cvariance and the MIN/MAX witness; resn becomes n or stays |
| Iteration.OriginNeverEscapes | RestFract/Generators/SimpleCalculatorFactory.cs:391-430 | no escape test fires on the origin for a divergent type with a positive bailout |
| Iteration.Finish | RestFract/Generators/SimpleCalculatorFactory.cs:432-469 | the finish of a stopped layer keeps active, isin and resn, and adds two iterations only for an outside smooth-triangle layer |
| Iteration.SmoothTriangleFinish | RestFract/Generators/SimpleCalculatorFactory.cs:434-459 | the smooth-triangle finish takes two more Mandelbrot steps from x and counts them in n |
| Iteration.StepLayer | RestFract/Generators/SimpleCalculatorFactory.cs:240-470 | after step n the layer is inside iff it was or n > nlimit, stays active only if it was and n ≤ nlimit, and has c_n = n (n + 2 after the smooth-triangle finish) |
| Iteration.StepAll | RestFract/Generators/SimpleCalculatorFactory.cs:238-471 | every active layer takes the step and every stopped layer is left exactly as it was |
| Iteration.ModesUpToExact | RestFract/Generators/SimpleCalculatorFactory.cs:142-149 | the or-ed mask contains every layer's sequence type and nothing else |
| Iteration.PointModesClosed | RestFract/Generators/SimpleCalculatorFactory.cs:140-161 | the modes of a point are closed, contain every layer's sequence type, and any other flag in them comes from some layer |
| Iteration.TriangleUpToExists | RestFract/Generators/SimpleCalculatorFactory.cs:147-148 | hastriangle holds iff some layer has the TRIANGLE or TRIANGLE_SMOOTH flag |
| Iteration.ResetAll | RestFract/Generators/SimpleCalculatorFactory.cs:142-157 | every layer is reset to start at x |
| Iteration.LastDefaultIsLast | RestFract/Generators/SimpleCalculatorFactory.cs:146 | the rebound default layer is marked default and no later layer is |
| Iteration.CalcPoint | RestFract/Generators/SimpleCalculatorFactory.cs:175-482 | without a default layer the point fails with "No default layer found" after the reset; otherwise it succeeds |
| Iteration.StepAllKeepsInv | RestFract/Generators/SimpleCalculatorFactory.cs:238-471 | one pass keeps every layer's invariant: active layers have c_n = n and stopped inside layers have c_n = nlimit + 1 |
| Iteration.RunFromKeepsInv | RestFract/Generators/SimpleCalculatorFactory.cs:180-477 | the invariant holds after the whole run |
| Iteration.RunPointOutcome | RestFract/Generators/SimpleCalculatorFactory.cs:180-242 | the run ends with the default layer stopped after 1 to nlimit + 1 iterations; still-active layers have c_n = iterations; inside layers have c_n = nlimit + 1 |
| Iteration.RunFromBound | RestFract/Generators/SimpleCalculatorFactory.cs:431-476 | the loop runs at most nlimit + 1 times for the default layer |
| Iteration.StoppedLayersFrozen | RestFract/Generators/SimpleCalculatorFactory.cs:238-240 | a layer that has stopped is never changed again |
| Iteration.OriginIsInside | RestFract/Generators/SimpleCalculatorFactory.cs:427-431 | from 0 with c = 0, a plain default layer with positive bailout ends inside with c_n = nlimit + 1 after nlimit + 1 iterations |
| Iteration.OriginRun | RestFract/Generators/SimpleCalculatorFactory.cs:180-477 | the same from any iteration of the run at the origin |
| Iteration.OriginStep | RestFract/Generators/SimpleCalculatorFactory.cs:427-431 | at the origin the default layer stays active exactly while n ≤ nlimit |
| Iteration.FoldAll | RestFract/Generators/SimpleCalculatorFactory.cs:351-390 | after k check values the layer's c_n is k |
| Iteration.FoldSumAdds | RestFract/Generators/SimpleCalculatorFactory.cs:354-355 | SUM and MEAN add the check values to calc |
| Iteration.FoldMinIsLeast | RestFract/Generators/SimpleCalculatorFactory.cs:386 | MIN keeps the least check value; resn is the later step that reached it, or unchanged when the first value is the least |
| Iteration.FoldMaxIsGreatest | RestFract/Generators/SimpleCalculatorFactory.cs:387 | MAX keeps the greatest check value, with resn as for MIN |
| Iteration.FoldWelfordMean | RestFract/Generators/SimpleCalculatorFactory.cs:356-384 | the Welford folds keep cmean equal to the mean of the check values so far |
| Iteration.FoldWelfordSpread | RestFract/Generators/SimpleCalculatorFactory.cs:356-384 | VARSX accumulates in c_calc, and VARIANCE and STDDEV in c_cvarsx, the squared deviations of the check values from their mean; from the second value on VARIANCE's c_calc is c_cvarsx/(n-1), and STDDEV's c_cvariance is that variance and its c_calc the square root |
| Iteration.SqDevAroundMean | RestFract/Generators/SimpleCalculatorFactory.cs:356-384 | the squared deviations around the mean are the sum of squares less k times the squared mean, the closed form the Welford spread is compared with |
| Iteration.FoldSpreadSquares | RestFract/Generators/SimpleCalculatorFactory.cs:356-384 | the spread after a Welford fold, in terms of the sums of the squares and of the values |
| Iteration.FractalStep | RestFract/Generators/SimpleCalculatorFactory.cs:183-212 | a formula type without compiled code keeps the value computed before; a type outside the six known ones leaves the iterate at x |
| Iteration.UpdateAggregates | RestFract/Generators/SimpleCalculatorFactory.cs:213-237 | no modes leave every aggregate as it was; MIN takes the first iterate and then keeps whichever of the old minimum and the new iterate has the smaller magnitude, MAX likewise the larger |
| Iteration.Welford | RestFract/Generators/SimpleCalculatorFactory.cs:358-359 | only cmean and cvarsx change, and the new mean times n is the old mean times n - 1 plus the check value |
| Iteration.EscapesMonotone | RestFract/Generators/SimpleCalculatorFactory.cs:391-430 | a divergent escape at a bailout is also one at any smaller bailout, and a convergent escape at any larger |
| Iteration.CheckValueReadsHistory | RestFract/Generators/SimpleCalculatorFactory.cs:258-350 | the check value depends on a layer only through x, oldx and old2x, never on its statistics or counters |
| Iteration.RunFrom | RestFract/Generators/SimpleCalculatorFactory.cs:180-477 | the loop stops with the default layer inactive after more than n and at most nlimit + 1 iterations, with one state per layer |
| Iteration.RunPoint | RestFract/Generators/SimpleCalculatorFactory.cs:142-477 | the reset and the loop end with the default layer inactive after 1 to nlimit + 1 iterations, with one state per layer |
| Iteration.CounterAsWritten | RestFract/Generators/SimpleCalculatorFactory.cs:177-431 | the C# counter after k increments, Wrap32(k), is never above int.MaxValue, and the increment past int.MaxValue gives int.MinValue, so with c_nlimit = int.MaxValue the iteration-limit test never fires |
| Iteration.CounterExactBelowMax | RestFract/Generators/SimpleCalculatorFactory.cs:177-431 | with c_nlimit below int.MaxValue every count the run reaches fits in an int, so the model's unbounded counter is the source's |
| SimpleEngine.EvalSource | RestFract/Generators/SimpleCalculatorFactory.cs:70-72 | the user code appears verbatim between the fixed prefix and suffix |
| SimpleEngine.CompileFormula | RestFract/Generators/SimpleCalculatorFactory.cs:57-95 | only DIVERGENT and CONVERGENT compile the formula; they fail exactly when the compiler fails and otherwise use its instance |
| SimpleEngine.ResolveDefault | RestFract/Generators/SimpleCalculatorFactory.cs:142-175 | the last layer marked default wins; otherwise the given layer if it is in the list; otherwise none |
| SimpleEngine.DefaultLayerFound | RestFract/Generators/SimpleCalculatorFactory.cs:142-175 | after the reset loop the default layer is the one ResolveDefault names, and missing exactly when it names none |
| SimpleEngine.SimpleCalculator.constructor | RestFract/Generators/SimpleCalculatorFactory.cs:57-97 | keeps the type, the compiled formula and the default layer; no layers and no points yet |
| SimpleEngine.SimpleCalculator.InitData | RestFract/Generators/SimpleCalculatorFactory.cs:99-104 | takes the layer list and parameter and empties the queue |
| SimpleEngine.SimpleCalculator.AddPoint | RestFract/Generators/SimpleCalculatorFactory.cs:106-109 | appends the point at the back of the queue |
| SimpleEngine.SimpleCalculator.GetPoint | RestFract/Generators/SimpleCalculatorFactory.cs:111-123 | empty queue: false, (0, 0), no layers, nothing changed; otherwise the oldest point is removed, its px, py returned, and the shared layers hold its CalcPoint result |
| SimpleEngine.SimpleCalculator.CalcFractal | RestFract/Generators/SimpleCalculatorFactory.cs:133-483 | the layers end exactly as CalcPoint computes, with the error iff there is no default layer |
| SimpleEngine.SimpleCalculator.Setup | RestFract/Generators/SimpleCalculatorFactory.cs:142-173 | the layers are reset, the context holds the closed modes and trinorm, and the default layer is resolved |
| SimpleEngine.SimpleCalculator.PrepareLayers | RestFract/Generators/SimpleCalculatorFactory.cs:142-157 | each layer is reset, modes is the or of the sequence types, hastriangle is exact, and the default layer is the last one marked |
| SimpleEngine.SimpleCalculator.RunPointInPlace | RestFract/Generators/SimpleCalculatorFactory.cs:175-182 | the layer objects end with the states RunPoint computes |
| SimpleEngine.SimpleCalculator.Run | RestFract/Generators/SimpleCalculatorFactory.cs:177-477 | the `while (!end)` loop leaves the layers in the states RunFrom computes |
| SimpleEngine.SimpleCalculator.Step | RestFract/Generators/SimpleCalculatorFactory.cs:180-476 | one pass advances n by one and either ends with the final states or leaves a state from which RunFrom gives the same result |
| SimpleEngine.SimpleCalculator.Iterate | RestFract/Generators/SimpleCalculatorFactory.cs:182-471 | the next iterate, the aggregate update and one StepAll pass, done in place |
| SimpleEngine.SimpleCalculator.StepLayers | RestFract/Generators/SimpleCalculatorFactory.cs:238-471 | the layer loop leaves each layer as StepAll says |
| SimpleEngine.GenFractalCalc | RestFract/Generators/SimpleCalculatorFactory.cs:486-489 | fails exactly when the formula does not compile; otherwise a fresh calculator with an empty queue |
| PreCompiledEngine.StepOf | RestFract/Generators/PreCompiledCalculatorFactory.cs:159-264 | the six known fractal types select a statement (the two formula types the user code verbatim); any other type none |
| PreCompiledEngine.Generate | RestFract/Generators/PreCompiledCalculatorFactory.cs:79-653 | fails with NotSupported exactly for an unknown type, else with NotImplemented exactly when a layer is smooth-triangle; a plan has one code per layer and the selected statement, and each layer's code folds and tests as the interpreted engine does (PlanLayersAgree) |
| PreCompiledEngine.LayerCodes | RestFract/Generators/PreCompiledCalculatorFactory.cs:318-651 | one code per layer, in list order |
| PreCompiledEngine.Ends | RestFract/Generators/PreCompiledCalculatorFactory.cs:645 | a layer ends the loop exactly when it is the very deflayer object |
| PreCompiledEngine.FirstError | RestFract/Generators/PreCompiledCalculatorFactory.cs:684-689 | no message iff every compiler message is a warning; otherwise the first non-warning's text and line |
| PreCompiledEngine.PlainUpdates | RestFract/Generators/PreCompiledCalculatorFactory.cs:265-314 | the SUM, MIN, MAX and DELTA updates are emitted exactly when their flag is set |
| PreCompiledEngine.MomentUpdates | RestFract/Generators/PreCompiledCalculatorFactory.cs:270-294 | each moment update needs its own flag and every flag it is nested under |
| PreCompiledEngine.AggregatesFollowModes | RestFract/Generators/PreCompiledCalculatorFactory.cs:83-314 | after the closure every aggregate update is emitted exactly when its flag is set; a STDDEV layer always gets the square root |
| PreCompiledEngine.ClosureNeeded | RestFract/Generators/PreCompiledCalculatorFactory.cs:92-94 | without the closure a lone STDDEV mode emits no update; with it, mean, varsx and variance with the square root |
| PreCompiledEngine.UnemittedAggregatesStay | RestFract/Generators/PreCompiledCalculatorFactory.cs:265-314 | an aggregate whose update is not emitted is one the interpreted step leaves unchanged |
| PreCompiledEngine.SourceAgrees | RestFract/Generators/PreCompiledCalculatorFactory.cs:330-342 | each sequence type feeds c_x from the same aggregate as in the interpreted engine |
| PreCompiledEngine.StepAgrees | RestFract/Generators/PreCompiledCalculatorFactory.cs:159-262 | the emitted statement computes the interpreted engine's step for every known type |
| PreCompiledEngine.TriNormAgrees | RestFract/Generators/PreCompiledCalculatorFactory.cs:130-146 | the emitted trinorm has the interpreted engine's value |
| PreCompiledEngine.MeanFinishAgrees | RestFract/Generators/PreCompiledCalculatorFactory.cs:640-644 | the emitted division of a MEAN layer is the interpreted finish of every accepted layer |
| PreCompiledEngine.EndsAtDeflayer | RestFract/Generators/PreCompiledCalculatorFactory.cs:645-649 | only the layer that is the deflayer object ends the loop; none if it is absent; exactly its index in a list of distinct layers |
| PreCompiledEngine.FoldAgrees | RestFract/Generators/PreCompiledCalculatorFactory.cs:493-570 | the emitted check-sequence fold statements change the layer exactly as the interpreted engine's fold does, for every check-sequence type |
| PreCompiledEngine.BailoutAgrees | RestFract/Generators/PreCompiledCalculatorFactory.cs:572-605 | the plan's bailout test, with OR and AND comparing each squared part with the bailout, holds exactly when the interpreted engine's escape test does, in the direction of the type |
| PreCompiledEngine.BailoutAsWrittenIllTyped | RestFract/Generators/PreCompiledCalculatorFactory.cs:582-589 | as emitted, the OR and AND tests join the squared parts with `\|\|` and `&&` on doubles, which is not C#, for every point and bailout; every other test agrees with the interpreted engine |
| PreCompiledEngine.PlanLayersAgree | RestFract/Generators/PreCompiledCalculatorFactory.cs:318-651 | every layer of a generated plan takes its value, folds its check value and tests its bailout as the interpreted engine does |
| PreCompiledEngine.ResetLayers | RestFract/Generators/PreCompiledCalculatorFactory.cs:52-63 | every layer of the shared list is reset to start at x; configurations unchanged |
| PreCompiledEngine.RunRoutine | RestFract/Generators/PreCompiledCalculatorFactory.cs:66 | the layers take the states the compiled routine gives |
| PreCompiledEngine.ResetAndRun | RestFract/Generators/PreCompiledCalculatorFactory.cs:52-66 | the routine runs on the reset layers |
| PreCompiledEngine.PreCompiledCalculator.constructor | RestFract/Generators/PreCompiledCalculatorFactory.cs:27-30 | keeps the routine; no layers and no points |
| PreCompiledEngine.PreCompiledCalculator.InitData | RestFract/Generators/PreCompiledCalculatorFactory.cs:32-37 | takes the layer list and parameter and discards pending points |
| PreCompiledEngine.PreCompiledCalculator.AddPoint | RestFract/Generators/PreCompiledCalculatorFactory.cs:39-42 | appends the point at the back of the queue |
| PreCompiledEngine.PreCompiledCalculator.GetPoint | RestFract/Generators/PreCompiledCalculatorFactory.cs:44-68 | empty queue: false, (0, 0), no layers, nothing changed; otherwise FIFO, the same list returned, holding the routine's result from the reset states |
| PreCompiledEngine.GatherModes | RestFract/Generators/PreCompiledCalculatorFactory.cs:81-94 | the closed mode mask of the layers and the exact hastriangle flag |
| PreCompiledEngine.EmitLayers | RestFract/Generators/PreCompiledCalculatorFactory.cs:318-651 | succeeds iff no layer is smooth-triangle, and then gives each layer's code in order |
| PreCompiledEngine.CompileErrorOf | RestFract/Generators/PreCompiledCalculatorFactory.cs:684-689 | the loop finds the first non-warning message |
| PreCompiledEngine.GeneratePlan | RestFract/Generators/PreCompiledCalculatorFactory.cs:79-653 | the generation loop computes Generate |
| PreCompiledEngine.GenFractalCalc | RestFract/Generators/PreCompiledCalculatorFactory.cs:79-694 | a generation refusal is returned as is; a compiler error becomes NotImplemented with its message; otherwise a fresh calculator around the compiled routine |
| OpenCLEngine.Decimal | RestFract.Generators.OpenCL/OpenCLCalculatorFactory.cs:244 | the decimal text of a layer index is a non-empty digit string without a leading zero |
| OpenCLEngine.DecimalRoundTrip | RestFract.Generators.OpenCL/OpenCLCalculatorFactory.cs:244 | reading the decimal text back gives the index |
| OpenCLEngine.LeadingDigits | RestFract.Generators.OpenCL/OpenCLCalculatorFactory.cs:244-245 | the longest digit prefix of a text |
| OpenCLEngine.OutParams | RestFract.Generators.OpenCL/OpenCLCalculatorFactory.cs:243-246 | one parameter text per layer, the i-th for layer i |
| OpenCLEngine.AppendOutParams | RestFract.Generators.OpenCL/OpenCLCalculatorFactory.cs:243-246 | the append loop adds exactly the parameter texts, in order |
| OpenCLEngine.OutParamsNumbered | RestFract.Generators.OpenCL/OpenCLCalculatorFactory.cs:244 | parameter i is named `out_p` followed by i, for every i |
| OpenCLEngine.OutParamsClose | RestFract.Generators.OpenCL/OpenCLCalculatorFactory.cs:245 | only the last parameter ends with "\n){", every other one with ",\n"; the list is closed iff there is a layer |
| OpenCLEngine.InitTexts | RestFract.Generators.OpenCL/OpenCLCalculatorFactory.cs:286-298 | one declaration and initialisation block per layer, the i-th for `p` i |
| OpenCLEngine.InitIsReset | RestFract.Generators.OpenCL/OpenCLCalculatorFactory.cs:289-297 | executing the emitted assignments on a layer record is the reset every engine applies: active, not inside, x = oldx = old2x = start, zero statistics |
| OpenCLEngine.AppendInits | RestFract.Generators.OpenCL/OpenCLCalculatorFactory.cs:286-298 | the append loop adds exactly the initialisation texts of the layers, in order |
| OpenCLEngine.UpdatesSnoc | RestFract.Generators.OpenCL/OpenCLCalculatorFactory.cs:355-401 | appending one more update appends its text |
| OpenCLEngine.EmitUpdate | RestFract.Generators.OpenCL/OpenCLCalculatorFactory.cs:355-401 | one append keeps the kernel equal to the prefix and the rendered updates so far |
| OpenCLEngine.Optional | RestFract.Generators.OpenCL/OpenCLCalculatorFactory.cs:355-401 | an update is emitted exactly when its flag is used |
| OpenCLEngine.MomentCode | RestFract.Generators.OpenCL/OpenCLCalculatorFactory.cs:360-384 | the moment chain holds the mean update exactly when MEAN is set, and at most three updates |
| OpenCLEngine.AggregateGroups | RestFract.Generators.OpenCL/OpenCLCalculatorFactory.cs:355-401 | the emitted update list is SUM, the moment chain, MIN, MAX, DELTA, each group as its flag says |
| OpenCLEngine.AppendIf | RestFract.Generators.OpenCL/OpenCLCalculatorFactory.cs:355-359 | a flag-guarded append adds the update's text exactly when the flag is set |
| OpenCLEngine.AppendMoments | RestFract.Generators.OpenCL/OpenCLCalculatorFactory.cs:360-384 | the nested appends add the moment chain's text |
| OpenCLEngine.AppendUpdates | RestFract.Generators.OpenCL/OpenCLCalculatorFactory.cs:355-401 | the append sequence adds the text of exactly the aggregate updates of the modes |
| OpenCLEngine.UpdatesTerminated | RestFract.Generators.OpenCL/OpenCLCalculatorFactory.cs:355-401 | with DELTA written as a full statement, every update text ends with ';' or '}', and so does the whole update section |
| OpenCLEngine.DeltaLayerUnterminated | RestFract.Generators.OpenCL/OpenCLCalculatorFactory.cs:397-406 | as written, any layer list with a DELTA layer gives an update section that does not end a statement, and the next append runs into it: "deltax = newx - xp = &p0;" |
| OpenCLEngine.UpdateText | RestFract.Generators.OpenCL/OpenCLCalculatorFactory.cs:355-401 | the text of one aggregate update, with DELTA as a full statement; UpdatesTerminated states that each ends a statement |
| OpenCLEngine.UpdateTextAsWritten | RestFract.Generators.OpenCL/OpenCLCalculatorFactory.cs:397-401 | the same texts with DELTA as the source appends it, without the `;`; AsWrittenTerminatedIff states the consequence |
| OpenCLEngine.AsWrittenTerminatedIff | RestFract.Generators.OpenCL/OpenCLCalculatorFactory.cs:355-406 | the update section the source builds is empty or ends a statement exactly when no layer's sequence type has the DELTA flag |
| OpenCLEngine.KernelFor | RestFract.Generators.OpenCL/OpenCLCalculatorFactory.cs:168-699 | the kernel is refused exactly when the shared generation decisions refuse it, for the same reason (unknown type, smooth-triangle layer); otherwise it carries their plan |
| OpenCLEngine.KernelWellFormed | RestFract.Generators.OpenCL/OpenCLCalculatorFactory.cs:243-401 | a generated kernel has `out_p0` .. `out_p{L-1}` in order, is closed iff L > 0, has terminated updates, and its updates are those of the closed modes of the layers |
| OpenCLEngine.KernelOfPlan | RestFract.Generators.OpenCL/OpenCLCalculatorFactory.cs:241-401 | a plan gives the kernel whose sections are the appends started from empty text |
| OpenCLEngine.GenerateKernel | RestFract.Generators.OpenCL/OpenCLCalculatorFactory.cs:241-699 | the generating code computes KernelFor of the layers' configurations and the deflayer marks |
| OpenCLEngine.StateOf | RestFract.Generators.OpenCL/OpenCLCalculatorFactory.cs:137-148 | active and isin are read as "not zero"; the other fields are copied |
| OpenCLEngine.DeviceLayer | RestFract.Generators.OpenCL/OpenCLCalculatorFactory.cs:22-35 | a layer state is written with flags 0 or 1 |
| OpenCLEngine.StateRoundTrip | RestFract.Generators.OpenCL/OpenCLCalculatorFactory.cs:137-148 | reading back a written layer state gives the state |
| OpenCLEngine.DeviceRoundTrip | RestFract.Generators.OpenCL/OpenCLCalculatorFactory.cs:137-148 | a device record survives a read and a write iff its flags are 0 or 1 |
| OpenCLEngine.Blanks | RestFract.Generators.OpenCL/OpenCLCalculatorFactory.cs:72-73 | one array of count blank records per layer |
| OpenCLEngine.Readback | RestFract.Generators.OpenCL/OpenCLCalculatorFactory.cs:118-127 | slots below the point count hold the kernel's result for that point's x and c; the other slots keep their contents |
| OpenCLEngine.ReadbackIsLocal | RestFract.Generators.OpenCL/OpenCLCalculatorFactory.cs:122-125 | what a point gets back depends only on its own x and c, not on the other points or its position |
| OpenCLEngine.Pack | RestFract.Generators.OpenCL/OpenCLCalculatorFactory.cs:103-109 | slot j of the two input arrays holds point j's x and c; it succeeds iff the points fit, and no other slot changes |
| OpenCLEngine.Column | RestFract.Generators.OpenCL/OpenCLCalculatorFactory.cs:134-148 | the read-back states of point k, one per layer |
| OpenCLEngine.Unpack | RestFract.Generators.OpenCL/OpenCLCalculatorFactory.cs:129-152 | one entry per point, in order, with its px, py and a fresh clone of every template layer whose state is the decoded record |
| OpenCLEngine.OpenCLCalculator.constructor | RestFract.Generators.OpenCL/OpenCLCalculatorFactory.cs:56-61 | keeps the built kernel; no layers, points or output |
| OpenCLEngine.OpenCLCalculator.InitData | RestFract.Generators.OpenCL/OpenCLCalculatorFactory.cs:63-78 | succeeds iff count ≥ 0; then fresh zero input arrays of length count and one blank result array of length count per layer, and no points |
| OpenCLEngine.OpenCLCalculator.AddPoint | RestFract.Generators.OpenCL/OpenCLCalculatorFactory.cs:80-83 | appends the point and changes nothing else |
| OpenCLEngine.OpenCLCalculator.GetPoint | RestFract.Generators.OpenCL/OpenCLCalculatorFactory.cs:85-99 | an empty output queue gives false, (0, 0) and no layers; otherwise the oldest entry is removed and returned |
| OpenCLEngine.OpenCLCalculator.EndSend | RestFract.Generators.OpenCL/OpenCLCalculatorFactory.cs:101-153 | the points are packed, the kernel runs, and the output queue holds one entry per point in order, whose layers are fresh clones with the states the device computed for that point |
| OpenCLEngine.OpenCLCalculator.Run | RestFract.Generators.OpenCL/OpenCLCalculatorFactory.cs:111-152 | the results are read back and unpacked into the output queue |
| OpenCLEngine.OpenCLCalculator.EndGet | RestFract.Generators.OpenCL/OpenCLCalculatorFactory.cs:155-158 | empties the submitted points and changes nothing else |
| OpenCLEngine.GenFractalCalc | RestFract.Generators.OpenCL/OpenCLCalculatorFactory.cs:168-717 | a refusal is passed on; a failed build becomes "Error while building: " followed by the log; otherwise a fresh calculator around the built kernel |
| Binary.DecodeEncodeLE | RestFract.Generators.Distributed/DistributedCalculatorServer.cs:87-94 | reading k little-endian bytes back gives the number that was written, for every number below 256^k |
| Binary.EncodeDecodeLE | RestFract.Generators.Distributed/DistributedCalculatorServer.cs:87-94 | every byte string is the k-byte encoding of the number it decodes to |
| Binary.Wrap32 | RestFract.Generators.Distributed/DistributedCalculatorServer.cs:73 | the result is a C# int and differs from the input by a multiple of 2^32; an int is left as it is |
| Binary.Int32RoundTrip | RestFract.Generators.Distributed/DistributedCalculatorServer.cs:87-88 | BinaryReader.ReadInt32 of what BinaryWriter.Write(int) wrote gives the value wrapped to 32 bits, so an int comes back unchanged |
| Binary.Int32BytesRoundTrip | RestFract.Generators.Distributed/DistributedCalculatorFactory.cs:75-76 | every four bytes are the encoding of the int they decode to |
| Binary.BoolRoundTrip | RestFract.Generators.Distributed/DistributedCalculatorFactory.cs:89-90 | a flag written as 1 or 0 is read back by the "not zero" test as the same flag |
| Binary.DoubleRoundTrip | RestFract.Generators.Distributed/DistributedCalculatorServer.cs:89-94 | a value held exactly in a double is read back as that value |
| Binary.DoubleBytesRoundTrip | RestFract.Generators.Distributed/DistributedCalculatorFactory.cs:81-88 | every eight bytes that decode to an exact double are its encoding |
| Binary.EncodeInt32 | RestFract.Generators.Distributed/DistributedCalculatorFactory.cs:59-60 | BinaryWriter.Write(int) puts out four bytes |
| Binary.DecodeInt32 | RestFract.Generators.Distributed/DistributedCalculatorFactory.cs:75-76 | BinaryReader.ReadInt32 gives a C# int |
| Binary.EncodeDouble | RestFract.Generators.Distributed/DistributedCalculatorFactory.cs:61-64 | BinaryWriter.Write(double) puts out eight bytes |
| Binary.DecodeDouble | RestFract.Generators.Distributed/DistributedCalculatorFactory.cs:81-88 | BinaryReader.ReadDouble reads eight bytes as a double; DoubleRoundTrip and DoubleBytesRoundTrip relate it to EncodeDouble |
| Wire.ResultSize | RestFract.Generators.Distributed/DistributedCalculatorServer.cs:99 | a result record takes two ints plus, per layer, four ints and twelve doubles: 8 + 112 bytes per layer |
| Wire.ComplexRoundTrip | RestFract.Generators.Distributed/DistributedCalculatorServer.cs:89-94 | a complex number written as its real then imaginary part is read back unchanged |
| Wire.EncodePoint | RestFract.Generators.Distributed/DistributedCalculatorFactory.cs:59-64 | a point record is 40 bytes: px, py, then x and c |
| Wire.PointRoundTrip | RestFract.Generators.Distributed/DistributedCalculatorServer.cs:87-94 | the server decodes a point record to the px, py, x and c the client wrote |
| Wire.EncodeLayer | RestFract.Generators.Distributed/DistributedCalculatorServer.cs:112-127 | a layer state takes 112 bytes |
| Wire.LayerRoundTrip | RestFract.Generators.Distributed/DistributedCalculatorFactory.cs:81-92 | the client reads back every field of the layer state the server wrote |
| Wire.EncodeLayers | RestFract.Generators.Distributed/DistributedCalculatorServer.cs:110-128 | the states of L layers take 112·L bytes |
| Wire.DecodeLayers | RestFract.Generators.Distributed/DistributedCalculatorFactory.cs:78-94 | reading L layer states gives exactly L states |
| Wire.LayersRoundTrip | RestFract.Generators.Distributed/DistributedCalculatorFactory.cs:78-94 | the client reads back the list of layer states the server wrote, in order |
| Wire.EncodeResult | RestFract.Generators.Distributed/DistributedCalculatorServer.cs:108-128 | a result record with L layers takes ResultSize(L) bytes |
| Wire.DecodeResult | RestFract.Generators.Distributed/DistributedCalculatorFactory.cs:75-94 | reading a result record for L layers gives L layer states |
| Wire.ResultRoundTrip | RestFract.Generators.Distributed/DistributedCalculatorFactory.cs:75-94 | the client reads back the px, py and layer states the server wrote for a point |
| Wire.EncodePoints | RestFract.Generators.Distributed/DistributedCalculatorFactory.cs:59-64 | n point records take 40·n bytes |
| Wire.DecodePoints | RestFract.Generators.Distributed/DistributedCalculatorServer.cs:82-96 | reading n point records gives n points |
| Wire.PointsRoundTrip | RestFract.Generators.Distributed/DistributedCalculatorServer.cs:82-96 | the server's decode loop gives back the points the client wrote, in order |
| Wire.ResultsSize | RestFract.Generators.Distributed/DistributedCalculatorServer.cs:99-103 | n result records of L layers take exactly n·ResultSize(L) bytes |
| Wire.ResultAt | RestFract.Generators.Distributed/DistributedCalculatorFactory.cs:72-94 | the j-th result record lies where the first j records end |
| Wire.DecodePoint | RestFract.Generators.Distributed/DistributedCalculatorServer.cs:87-94 | the server reads a point record's px and py as C# ints |
| Wire.DecodeLayer | RestFract.Generators.Distributed/DistributedCalculatorFactory.cs:81-92 | the client reads a layer state's n and resn as C# ints |
| Frames.Raw | RestFract.Generators.Distributed/DistributedCalculatorFactory.cs:114 | raw bytes go on the stream one by one, unchanged |
| Frames.Tag | RestFract.Generators.Distributed/DistributedCalculatorServer.cs:53 | an action tag takes four bytes on the stream |
| Frames.IntObjects | RestFract.Generators.Distributed/DistributedCalculatorFactory.cs:160-163 | one serialised int per index, in order |
| Frames.InitFrames | RestFract.Generators.Distributed/DistributedCalculatorFactory.cs:45-48 | InitData sends seven units: tag 0, then the layer list, the parameter and the count |
| Frames.ConfigureFrames | RestFract.Generators.Distributed/DistributedCalculatorFactory.cs:150-163 | GenFractalCalc sends tag 1, the layer list, the type, the formula, then one int per index |
| Frames.BatchFrames | RestFract.Generators.Distributed/DistributedCalculatorFactory.cs:112-114 | EndSend sends tag 3, the four bytes of the count, then the records byte for byte |
| Frames.AnswerSize | RestFract.Generators.Distributed/DistributedCalculatorFactory.cs:115 | the answer buffer size as the C# int expression computes it: exact when count·ResultSize fits in an int, negative when it wraps past int.MaxValue |
| DistributedClient.IndicesOf | RestFract.Generators.Distributed/DistributedCalculatorFactory.cs:160-163 | the increasing list of every position that holds the default layer, and no other |
| DistributedClient.IndicesOfDistinct | RestFract.Generators.Distributed/DistributedCalculatorFactory.cs:160-163 | when the default layer occurs once, exactly one index is sent |
| DistributedClient.Connection.constructor | RestFract.Generators.Distributed/DistributedCalculatorFactory.cs:147 | a new connection has sent nothing and is open |
| DistributedClient.Connection.Write | RestFract.Generators.Distributed/DistributedCalculatorFactory.cs:111-114 | appends the frames to what was sent |
| DistributedClient.Connection.Read | RestFract.Generators.Distributed/DistributedCalculatorFactory.cs:120 | delivers the next min(max, chunk, available) bytes that the peer sent, in order |
| DistributedClient.Connection.Close | RestFract.Generators.Distributed/DistributedCalculatorFactory.cs:176 | the connection is closed |
| DistributedClient.ReadFully | RestFract.Generators.Distributed/DistributedCalculatorFactory.cs:117-121 | blocks iff the peer sent fewer than n bytes; otherwise takes exactly the next n bytes |
| DistributedClient.WriteTo | RestFract.Generators.Distributed/DistributedCalculatorFactory.cs:59-64 | a write fails iff the stream has a fixed buffer that would overflow; otherwise the bytes land at the position, which moves past them, and a growable stream written at its end just gets longer |
| DistributedClient.WriteToData | RestFract.Generators.Distributed/DistributedCalculatorFactory.cs:59-64 | after a write that goes through, the bytes before the position are kept, the written bytes follow, and the bytes after them are the old ones |
| DistributedClient.WriteToTwice | RestFract.Generators.Distributed/DistributedCalculatorFactory.cs:59-64 | two writes in a row are one write of the two byte strings joined |
| DistributedClient.WriteChunks | RestFract.Generators.Distributed/DistributedCalculatorFactory.cs:59-64 | the writes go through one by one until the first that the stream refuses; the count of writes made is at most the number of chunks |
| DistributedClient.WriteChunksPrefix | RestFract.Generators.Distributed/DistributedCalculatorFactory.cs:59-64 | the stream after the writes that went through is one write of those chunks joined |
| DistributedClient.WriteChunksWhole | RestFract.Generators.Distributed/DistributedCalculatorFactory.cs:59-64 | every chunk goes through exactly when the joined chunks can be written at once, and the two streams are then equal |
| DistributedClient.PointChunks | RestFract.Generators.Distributed/DistributedCalculatorFactory.cs:59-64 | the six values of a point record, whose bytes joined are the 40-byte record |
| DistributedClient.PointWriteWhole | RestFract.Generators.Distributed/DistributedCalculatorFactory.cs:59-64 | all six writes of a point go through iff the whole record fits, and a growable stream always takes them |
| DistributedClient.Capacity | RestFract.Generators.Distributed/DistributedCalculatorFactory.cs:49 | the capacity ((int)count/peers + 1)·40 is computed in C# ints, truncating division and wrap-around included |
| DistributedClient.Quot | RestFract.Generators.Distributed/DistributedCalculatorFactory.cs:49 | C#'s int division, which truncates toward zero: the remainder has the sign of the dividend and is smaller than the divisor |
| DistributedClient.CapacityExact | RestFract.Generators.Distributed/DistributedCalculatorFactory.cs:49 | without wrap-around the capacity is the positive (count/peers + 1)·40 |
| DistributedClient.CapacityNegative | RestFract.Generators.Distributed/DistributedCalculatorFactory.cs:49 | a count at or below -2·peers gives a negative capacity |
| DistributedClient.CapacityWraps | RestFract.Generators.Distributed/DistributedCalculatorFactory.cs:49 | one peer and an 8000×8000 drawing give the negative capacity -1734967256 |
| DistributedClient.DistributedCalculator.WriteValues | RestFract.Generators.Distributed/DistributedCalculatorFactory.cs:58-64 | the writes of one point record, one BinaryWriter.Write per value, stop at the first refused and leave the stream WriteChunks gives |
| DistributedClient.FirstPending | RestFract.Generators.Distributed/DistributedCalculatorFactory.cs:70-72 | the first buffer from index i on that still has unread bytes, or none when every one is read |
| DistributedClient.Broadcast | RestFract.Generators.Distributed/DistributedCalculatorFactory.cs:41-51 | every connection in the list gets the same frames, or only the first when the pass raises after it, and nothing else about them changes |
| DistributedClient.NextAnswer | RestFract.Generators.Distributed/DistributedCalculatorFactory.cs:74-94 | a record is read iff a whole one is left at the position, and it is the decoding of the bytes there |
| DistributedClient.AfterAnswer | RestFract.Generators.Distributed/DistributedCalculatorFactory.cs:74-94 | the position moves forward past the record and never past the end |
| DistributedClient.DistributedCalculator.constructor | RestFract.Generators.Distributed/DistributedCalculatorFactory.cs:28-33 | the calculator keeps the connections and starts with the shard counter at 0 |
| DistributedClient.DistributedCalculator.InitData | RestFract.Generators.Distributed/DistributedCalculatorFactory.cs:35-53 | every point buffer is empty and every counter 0; each peer is sent tag 0 and the layers, param and count, except that a negative capacity ((int)count/peers + 1)·40 is an out-of-range fault raised after the first peer's frames |
| DistributedClient.DistributedCalculator.AddPoint | RestFract.Generators.Distributed/DistributedCalculatorFactory.cs:55-66 | no peers is a division by zero; otherwise the six values are written one by one into the first peer's buffer, those that fit landing before a fixed buffer refuses one, and the counter goes up by one (wrapping at 32 bits) only when all six went in |
| DistributedClient.DistributedCalculator.GetPoint | RestFract.Generators.Distributed/DistributedCalculatorFactory.cs:68-103 | with no unread answer left, false, (0, 0) and no layers; otherwise the next record of the first buffer with unread bytes, decoded against clones of the layers, and a record cut short is an end-of-stream fault |
| DistributedClient.DistributedCalculator.FindPending | RestFract.Generators.Distributed/DistributedCalculatorFactory.cs:70-72 | the scan finds the first buffer with unread bytes |
| DistributedClient.DistributedCalculator.ReadAnswer | RestFract.Generators.Distributed/DistributedCalculatorFactory.cs:74-96 | reads one result record from the given buffer and builds the layer list from clones |
| DistributedClient.DistributedCalculator.EndSend | RestFract.Generators.Distributed/DistributedCalculatorFactory.cs:105-124 | succeeds iff every peer's batch goes through, and each needs a growable buffer; then each peer was sent tag 3, its count and its records, its answer of count·ResultSize bytes became its fixed buffer, and its counter is 0; when the first peer's buffer is a fixed one (a second EndSend with no EndGet between), GetBuffer raises before anything is sent |
| DistributedClient.DistributedCalculator.SendBatch | RestFract.Generators.Distributed/DistributedCalculatorFactory.cs:109-122 | one peer's batch goes through iff its buffer is growable, its records fit the buffer, the answer size is not negative and the whole answer arrives; then frames sent, answer read whole, buffer replaced by a fixed one, counter reset; a fixed buffer is refused by GetBuffer before anything is written |
| DistributedClient.DistributedCalculator.EndGet | RestFract.Generators.Distributed/DistributedCalculatorFactory.cs:126-135 | every peer is sent 4 for the last batch and 5 otherwise and gets an empty buffer; a negative capacity is an out-of-range fault raised after the first peer's tag, before any buffer changes |
| DistributedClient.DistributedFactory.constructor | RestFract.Generators.Distributed/DistributedCalculatorFactory.cs:140-143 | no connections yet |
| DistributedClient.DistributedFactory.AddClient | RestFract.Generators.Distributed/DistributedCalculatorFactory.cs:145-148 | the connection is appended; after Dispose the list is null |
| DistributedClient.DistributedFactory.GenFractalCalc | RestFract.Generators.Distributed/DistributedCalculatorFactory.cs:150-166 | every peer is sent tag 1, the layers, type, formula and each index of the default layer; the result is a fresh calculator over the same connections |
| DistributedClient.DistributedFactory.Dispose | RestFract.Generators.Distributed/DistributedCalculatorFactory.cs:168-180 | every peer is sent -1 and closed, once; the connection list becomes null |
| DistributedServer.ReadBytes | RestFract.Generators.Distributed/DistributedCalculatorServer.cs:72-78 | the read gives n bytes iff n raw bytes are there, and the rest follows them; it ends iff fewer bytes come |
| DistributedServer.ReadInt | RestFract.Generators.Distributed/DistributedCalculatorServer.cs:53 | an int read takes four bytes and gives a C# int |
| DistributedServer.ReadObjects | RestFract.Generators.Distributed/DistributedCalculatorServer.cs:57-60 | k deserialised objects are the next k serialised units, in order |
| DistributedServer.FillAnswers | RestFract.Generators.Distributed/DistributedCalculatorServer.cs:99-130 | a filled answer buffer has exactly the size asked for; a fill that fails made at least one GetPoint, and it failed with the hosted exception iff its last GetPoint raised |
| DistributedServer.Session.constructor | RestFract.Generators.Distributed/DistributedCalculatorServer.cs:41-50 | no calculator, no layer list, nothing written, the stream open |
| DistributedServer.Session.MainThread | RestFract.Generators.Distributed/DistributedCalculatorServer.cs:41-154 | the loop ends as the session function says, and the stream stays open only when a read never completes |
| DistributedServer.Session.Dispatch | RestFract.Generators.Distributed/DistributedCalculatorServer.cs:55-140 | each tag runs its action; an unknown tag does nothing |
| DistributedServer.Session.Configure | RestFract.Generators.Distributed/DistributedCalculatorServer.cs:55-62 | tag 1: four objects read, then GenFractalCalc with the default layer at the index read, which makes the calculator or raises and ends the session with the hosted exception, as ConfigureStep says |
| DistributedServer.Session.Init | RestFract.Generators.Distributed/DistributedCalculatorServer.cs:63-69 | tag 0: three objects read, then InitData on the calculator; a missing calculator is a null reference and an InitData that raises ends the session, as InitStep says |
| DistributedServer.Session.EndGet | RestFract.Generators.Distributed/DistributedCalculatorServer.cs:133-140 | tag 4 calls EndGet(false), tag 5 EndGet(true); an EndGet that raises ends the session with the hosted exception |
| DistributedServer.Session.Points | RestFract.Generators.Distributed/DistributedCalculatorServer.cs:70-132 | tag 3: the count, its records, then the batch |
| DistributedServer.Session.Batch | RestFract.Generators.Distributed/DistributedCalculatorServer.cs:79-131 | one AddPoint per whole record, EndSend, then the answer buffer filled and written, as BatchStep says, including the stop at the first AddPoint, EndSend or GetPoint that raises |
| DistributedServer.Session.ReadBlock | RestFract.Generators.Distributed/DistributedCalculatorServer.cs:72-78 | the read loop gets exactly the bytes ReadBytes describes, however the stream splits them |
| DistributedServer.Session.AddRecords | RestFract.Generators.Distributed/DistributedCalculatorServer.cs:79-97 | one AddPoint per whole 40-byte record, in order, up to and including the first that raises, which ends the session with the hosted exception; otherwise a partial record is an I/O failure; with no calculator the first record is a null reference |
| DistributedServer.Session.WriteAnswers | RestFract.Generators.Distributed/DistributedCalculatorServer.cs:99-130 | the buffer is filled as FillAnswers says, and one GetPoint is made per record attempted |
| DistributedServer.FillLoop | RestFract.Generators.Distributed/DistributedCalculatorServer.cs:103-129 | the encode loop fills the buffer as FillAnswers says |
| DistributedServer.FillStep | RestFract.Generators.Distributed/DistributedCalculatorServer.cs:105-127 | one pass of the encode loop: a GetPoint whose answer either writes a whole record and keeps the buffer on course for FillAnswers, or ends the whole fill with the exception FillAnswers gives (the GetPoint raised, no room for the coordinates, no answer, a record that overruns the buffer) |
| DistributedServer.DecodeRecords | RestFract.Generators.Distributed/DistributedCalculatorServer.cs:82-96 | decodes the whole records of the buffer to points, and reports the partial or null-calculator cases |
| DistributedServer.Serve | RestFract.Generators.Distributed/DistributedCalculatorServer.cs:41-154 | the session only appends to what was written and to the calculator calls |
| DistributedServer.Action | RestFract.Generators.Distributed/DistributedCalculatorServer.cs:51-141 | each action only extends the output and the calls, and a tag other than 1, 0, 3, 4 and 5 changes nothing |
| DistributedServer.ConfigureStep | RestFract.Generators.Distributed/DistributedCalculatorServer.cs:55-62 | a read of the four objects leads to one more call, Generate, whose layer list becomes the session's and whose default index lies in it; the session goes on, with a calculator, iff that call does not raise, and a raise ends it with the hosted exception and no new calculator |
| DistributedServer.InitStep | RestFract.Generators.Distributed/DistributedCalculatorServer.cs:63-69 | without a calculator the session stops with no call made; otherwise one more call, InitData, whose layer list becomes the session's; the session goes on iff that call does not raise, and a raise ends it with the hosted exception |
| DistributedServer.PointsStep | RestFract.Generators.Distributed/DistributedCalculatorServer.cs:70-132 | tag 3 only extends the output and the calls |
| DistributedServer.BatchStep | RestFract.Generators.Distributed/DistributedCalculatorServer.cs:79-131 | the batch only extends the output and the calls, and leaves the input to the next action |
| DistributedServer.SendStep | RestFract.Generators.Distributed/DistributedCalculatorServer.cs:98-131 | EndSend and the answers, once every AddPoint returned, only extend the output and the calls |
| DistributedServer.FirstThrowFrom | RestFract.Generators.Distributed/DistributedCalculatorServer.cs:95 | the index found is the first AddPoint of the batch, from the given one on, that raises; none found means none of them raises |
| DistributedServer.AddAll | RestFract.Generators.Distributed/DistributedCalculatorServer.cs:82-97 | AddPoint on each point in order: it stops right after the first call that raises, as FirstThrowFrom finds it, and otherwise has added every point |
| DistributedServer.BatchOutput | RestFract.Generators.Distributed/DistributedCalculatorServer.cs:79-131 | a batch that goes through had a calculator, a layer list and whole records, and adds exactly the answer buffer of count records to the output |
| Protocol.ReadTag | RestFract.Generators.Distributed/DistributedCalculatorServer.cs:53 | a tag the client writes is read back by the server as that tag |
| Protocol.QuitFinishes | RestFract.Generators.Distributed/DistributedCalculatorServer.cs:54 | tag -1 ends the session normally and leaves the rest unread |
| Protocol.UnknownTagSkipped | RestFract.Generators.Distributed/DistributedCalculatorServer.cs:51-141 | any other tag than -1, 0, 1, 3, 4 and 5 changes nothing |
| Protocol.ConfigureDelivered | RestFract.Generators.Distributed/DistributedCalculatorServer.cs:55-62 | a client's GenFractalCalc with one default layer makes the server's factory build a calculator with the same layers, type, formula and default layer, when the factory returns |
| Protocol.ConfigureRaises | RestFract.Generators.Distributed/DistributedCalculatorServer.cs:55-62 | when the server's factory raises on those arguments, the session ends with the hosted exception, the call made and no new calculator |
| Protocol.ConfigureTwoIndicesDesync | RestFract.Generators.Distributed/DistributedCalculatorFactory.cs:160-163 | a default layer that occurs twice sends a second index, which the server reads as a tag: the stream falls out of step |
| Protocol.InitDelivered | RestFract.Generators.Distributed/DistributedCalculatorServer.cs:63-69 | a client's InitData reaches the server's calculator with the same layers, param and count, when that call returns |
| Protocol.InitRaises | RestFract.Generators.Distributed/DistributedCalculatorServer.cs:63-69 | an InitData that raises on the server ends the session with the hosted exception, after the call |
| Protocol.InitBeforeConfigure | RestFract.Generators.Distributed/DistributedCalculatorServer.cs:68 | InitData before any GenFractalCalc is a null reference on the server |
| Protocol.EndGetRaises | RestFract.Generators.Distributed/DistributedCalculatorServer.cs:133-140 | an EndGet that raises on the server ends the session before the next tag is read |
| Protocol.EndGetInverted | RestFract.Generators.Distributed/DistributedCalculatorServer.cs:133-140 | the client's EndGet(final) arrives at the server's calculator as EndGet(not final), because the client sends 4 for the last batch and the server reads 4 as "not last" |
| Protocol.FillAll | RestFract.Generators.Distributed/DistributedCalculatorServer.cs:103-129 | when every GetPoint answers with a record of R bytes, a buffer of R·n bytes holds the n answers in the order asked |
| Protocol.Answers | RestFract.Generators.Distributed/DistributedCalculatorServer.cs:107 | the j-th answer is what the calculator gives for the j-th GetPoint after the batch |
| Protocol.BatchRead | RestFract.Generators.Distributed/DistributedCalculatorServer.cs:72-78 | the server reads the count and the records the client's EndSend wrote |
| Protocol.BatchRaises | RestFract.Generators.Distributed/DistributedCalculatorServer.cs:79-97 | a batch whose j-th AddPoint is the first to raise ends the session after the AddPoints up to j, with no EndSend and nothing written back |
| Protocol.BatchDecoded | RestFract.Generators.Distributed/DistributedCalculatorServer.cs:79-97 | the server splits the batch back into the client's points |
| Protocol.BatchFilled | RestFract.Generators.Distributed/DistributedCalculatorServer.cs:99-130 | n answers of L layers fill the answer buffer exactly |
| Protocol.BatchAnswered | RestFract.Generators.Distributed/DistributedCalculatorServer.cs:70-131 | a whole batch: every point added in order, EndSend, then one result record per point in the order asked |
| Protocol.BatchDelivered | RestFract.Generators.Distributed/DistributedCalculatorServer.cs:70-131 | the client's EndSend frames, as the session loop sees them: the calls and answers of a whole batch |
| Protocol.ResponseSize | RestFract.Generators.Distributed/DistributedCalculatorFactory.cs:115 | the server's answer has exactly the size the client reads |
| Protocol.AnswerDecoded | RestFract.Generators.Distributed/DistributedCalculatorFactory.cs:74-94 | the client's j-th read decodes the j-th record the server wrote |
| Protocol.AnswerAdvances | RestFract.Generators.Distributed/DistributedCalculatorFactory.cs:74-94 | after the j-th read the client stands where the first j + 1 records end |
| Drawing.Retype | RestFract/Mandel.cs:168-191 | leaving MANDEL saves the view, takes its centre as the Julia constant and shows centre 0, radius 2; returning to MANDEL restores the saved view; otherwise only the type changes |
| Drawing.JuliaAndBack | RestFract/Mandel.cs:174-188 | MANDEL to a Julia type and back restores the Mandelbrot centre and radius, and the Julia constant is the old centre |
| Drawing.Half | RestFract/Mandel.cs:64-65 | C#'s int division by 2, which truncates toward zero |
| Drawing.PointAtMapping | RestFract/Mandel.cs:84-91 | pixel (x, y) submits (pos, pos) for MANDEL, (julia, pos) for INVJULIA and (pos, julia) for JULIA, pos being x and y spacings from the corner |
| Drawing.SendsInOrder | RestFract/Mandel.cs:83-92 | a row submits each pixel 0 .. width-1 once, in order |
| Drawing.GetsInOrder | RestFract/Mandel.cs:94-102 | each answer is fetched and then painted with the layer values it carries, in order |
| Drawing.FirstDefaultIsFirst | RestFract/Mandel.cs:69-73 | the first layer marked default is found, and none only when no layer is |
| Drawing.LineRowCount | RestFract/Mandel.cs:82-106 | a row in line mode submits and fetches each pixel once; its EndGet is final only on the last row |
| Drawing.LineModeCount | RestFract/Mandel.cs:80-106 | line mode submits and fetches width·height points and makes exactly one final EndGet |
| Drawing.GlobalRowsCount | RestFract/Mandel.cs:107-141 | global mode submits and fetches width·height points and ends with the one final EndGet |
| Drawing.LoadAll | RestFract/Mandel.cs:98-99 | each processing layer takes the value at its index |
| Drawing.FindDefault | RestFract/Mandel.cs:69-73 | the loop stops at the first default layer, or past the end |
| Drawing.SendRow | RestFract/Mandel.cs:83-92 | the AddPoint calls of one row |
| Drawing.ReceiveRow | RestFract/Mandel.cs:94-102 | one GetPoint and one PutPoint per answer; the layers end up holding the last answer's values |
| Drawing.DrawLines | RestFract/Mandel.cs:80-106 | line mode's calls, and the layers hold the last loaded answer |
| Drawing.SendAll | RestFract/Mandel.cs:109-125 | every row is submitted before anything is fetched |
| Drawing.ReceiveAll | RestFract/Mandel.cs:128-140 | global mode's fetches, each row closed by NextLine(0, y + 1) |
| Drawing.DrawRows | RestFract/Mandel.cs:80-142 | the calls of whichever mode is set, and the layers hold the last loaded answer |
| Drawing.GenerationFirstDefault | RestFract/Mandel.cs:67-76 | the calculator is regenerated iff the driver is stale and some layer is default, and then from the first default layer |
| Drawing.Generation | RestFract/Mandel.cs:67-76 | the regeneration decision; GenerationFirstDefault states it |
| Drawing.DrawTrace | RestFract/Mandel.cs:60-148 | the calls and outcome of Draw; DrawTraceShape, DrawTraceRefused and DrawTraceDrawn state them |
| Drawing.PointCount | RestFract/Mandel.cs:78 | InitData gets the width in line mode and width·height, as a C# int, otherwise |
| Drawing.DrawTraceShape | RestFract/Mandel.cs:60-148 | Draw stops right after InitDraw with a null reference exactly when the factory or calculator it needs is missing; it stops after the GenFractalCalc call exactly when the factory throws; otherwise it runs from InitDraw to EndDraw |
| Drawing.Render | RestFract/Mandel.cs:78-144 | InitData, the rows, then EndDraw; the layers hold the last loaded answer |
| Drawing.DrawTraceRefused | RestFract/Mandel.cs:67-78 | without the factory or the calculator it needs, only InitDraw happens |
| Drawing.DrawTraceDrawn | RestFract/Mandel.cs:60-144 | after a successful regeneration step Draw renders with the driver's view and settings |
| Drawing.Mandel.GetView | RestFract/Mandel.cs:238-246 | the view fields of the driver |
| Drawing.Mandel.constructor | RestFract/Mandel.cs:35-54 | centre 0, radius 2, MANDEL, no layers, no calculator, formula "", one process, line mode, marked changed |
| Drawing.Mandel.SetBounds | RestFract/Mandel.cs:152 | sets the centre and radius |
| Drawing.Mandel.SetFactory | RestFract/Mandel.cs:165 | a new factory drops the calculator and marks the driver changed |
| Drawing.Mandel.SetType | RestFract/Mandel.cs:171-190 | the view becomes Retype of the old view, and the driver is marked changed |
| Drawing.Mandel.SetJuliaCenter | RestFract/Mandel.cs:195 | sets the Julia constant |
| Drawing.Mandel.SetProcessType | RestFract/Mandel.cs:204 | selects line or global mode |
| Drawing.Mandel.SetFractal | RestFract/Mandel.cs:209 | sets the fractal type and marks the driver changed |
| Drawing.Mandel.SetFractalParam | RestFract/Mandel.cs:215 | sets the parameter; the calculator is kept |
| Drawing.Mandel.SetProcessNum | RestFract/Mandel.cs:225 | always refused |
| Drawing.Mandel.SetFunction | RestFract/Mandel.cs:228-233 | stores the formula, marks the driver changed and accepts |
| Drawing.Mandel.Snapshot | RestFract/Mandel.cs:67 | the settings Draw reads, with staleness as changed, a different list hash, or no calculator |
| Drawing.Mandel.Draw | RestFract/Mandel.cs:60-148 | the calls and outcome of DrawTrace; a drawn driver is fresh afterwards and its layers hold the last loaded answer; when the factory throws, the driver keeps its staleness and its layers |
| Drawing.Mandel.Finish | RestFract/Mandel.cs:78-144 | the rendering calls after the regeneration step |
| Drawing.Mandel.Regenerate | RestFract/Mandel.cs:67-76 | a stale driver regenerates from its first default layer; a missing factory fails before anything changes, and a factory that throws leaves the driver stale; a regenerated driver is fresh afterwards |
| Coloring.ShotsAt | RestFract/ColoredMandel.cs:76-86 | what PutPoint reads of each colour layer, in order |
| Coloring.Refs | RestFract/ColoredMandel.cs:78 | the processing layer each colour layer reads, in order |
| Coloring.Clamped | RestFract/ColoredMandel.cs:150-162 | with cycle 1 the datum is pulled into [min, max], or into [max, min] when the range is reversed, and a datum in range is kept; any other cycle keeps the datum |
| Coloring.Datum | RestFract/ColoredMandel.cs:92-149 | the iteration counts map from [0, nlimit], the phases from [0, π], the other data from [param1, param2]; a dataused that is not one of the eleven kinds gives datum -1 and range [0, 0] |
| Coloring.Adjust | RestFract/ColoredMandel.cs:193-236 | the INC and DEC extras of a factor; ExtrasInRange and ExtrasKeep state them |
| Coloring.Shade | RestFract/ColoredMandel.cs:237-245 | the colour a painting layer emits is a valid colour |
| Coloring.LayeredSound | RestFract/ColoredMandel.cs:82-248 | every point after the base comes from a layer that paints this kind of point, numbered from 1 in layer order, in that layer's shade |
| Coloring.LayeredComplete | RestFract/ColoredMandel.cs:82-248 | every layer that paints this kind of point emits a point |
| Coloring.PaintingShape | RestFract/ColoredMandel.cs:72-250 | first the base point numbered 0 in the inside or outside colour, then one point per painting layer in order, and nothing else |
| Coloring.PaintsOneSide | RestFract/ColoredMandel.cs:86 | an INSIDE layer paints only inside points, an OUTSIDE layer only outside points, a BOTH layer every point |
| Coloring.SaturatesAtEnds | RestFract/ColoredMandel.cs:150-166 | with cycle 1 and min < max, a datum at or below min maps to gradient position 0 and one at or above max to 1 |
| Coloring.SaturatesReversed | RestFract/ColoredMandel.cs:157-166 | with cycle 1 and max < min a datum at or above min maps to 0 and one at or below max to 1; with min = max every datum maps to 0 |
| Coloring.LinearInUnit | RestFract/ColoredMandel.cs:150-186 | with cycle 1 and linear interpolation (or min 0) the gradient position lies in [0, 1] |
| Coloring.ExtrasInRange | RestFract/ColoredMandel.cs:193-206 | the linear INC and DEC extras keep a positive factor within [0, x] while the iteration count is within [0, nlimit], and together they split x |
| Coloring.ExtrasKeep | RestFract/ColoredMandel.cs:193-236 | a factor that is not positive, or has neither INC nor DEC, is kept |
| Coloring.InsideSwapsFactors | RestFract/ColoredMandel.cs:237-245 | an inside shade is the outside shade of the same layer with the value and saturation factors exchanged, when no extras apply |
| Coloring.LastMatchIsLast | RestFract/ColoredMandel.cs:268-271 | the last colour layer whose processing layer is Similar is found, and none only when there is none |
| Coloring.FindSimilar | RestFract/ColoredMandel.cs:267-271 | the scan keeps the processing layer of the last Similar colour layer, or null |
| Coloring.ColoredMandel.constructor | RestFract/ColoredMandel.cs:58-64 | no colour layers, inside black, outside white, over a fresh driver |
| Coloring.ColoredMandel.SetInsideColor | RestFract/ColoredMandel.cs:255 | sets the inside colour |
| Coloring.ColoredMandel.SetOutsideColor | RestFract/ColoredMandel.cs:261 | sets the outside colour |
| Coloring.ColoredMandel.AddLayer | RestFract/ColoredMandel.cs:264-285 | marks the driver changed and appends the colour layer, bound to the processing layer of the last Similar colour layer, or else to a fresh clone of the given layer that is appended to the driver's layers |
| Coloring.ColoredMandel.ClearLayers | RestFract/ColoredMandel.cs:287 | the colour layers go; the processing layers stay |
| Coloring.ColoredMandel.DeleteLayer | RestFract/ColoredMandel.cs:288-291 | removes exactly colour layer a; an index out of range throws and changes nothing |
| Coloring.ColoredMandel.SwapLayers | RestFract/ColoredMandel.cs:293-298 | exchanges colour layers a and b and nothing else; an index out of range throws and changes nothing |
| Coloring.ColoredMandel.SetDefaultLayer | RestFract/ColoredMandel.cs:299-306 | every processing layer a colour layer reads loses its default flag, then layer a's gains it; an index out of range throws after the clearing |
| Coloring.ColoredMandel.GetLayer | RestFract/ColoredMandel.cs:308-311 | colour layer a, or nothing where the source throws |
| Coloring.ColoredMandel.PutPoint | RestFract/ColoredMandel.cs:72-250 | the points of Painted for the colour layers' current values: the base point, then every painting layer's shade |
| Coloring.Shading | RestFract/ColoredMandel.cs:82-248 | the loop over the colour layers emits the points of Layered |
| Coloring.LayerColour | RestFract/ColoredMandel.cs:88-245 | one painting layer's colour is its Shade |
| Colors.Clamp | RestFract/Color/ColorValue.cs:13-18 | the result lies in [0, 1], and a value already there is kept |
| Colors.Wrapped | RestFract/Color/ColorValue.cs:154-155 | the hue is moved by whole turns into [0, 1], and a hue already there is kept |
| Colors.Wrap | RestFract/Color/ColorValue.cs:154-155 | the two while loops give the Wrapped hue |
| Colors.HsvToRgb | RestFract/Color/ColorValue.cs:67-97 | no saturation gives the grey of the value; a value in [0, 1] gives components in [0, 1] |
| Colors.HueDegrees | RestFract/Color/ColorValue.cs:71-72 | a hue in [0, 1] becomes degrees in [0, 360), with a full turn mapped to 0 |
| Colors.RgbToHsv | RestFract/Color/ColorValue.cs:99-137 | the value is the largest component, the saturation the spread over it, and a grey has hue and saturation 0 |
| Colors.RgbToHsvInRange | RestFract/Color/ColorValue.cs:99-137 | components in [0, 1] give a hue, saturation and value in [0, 1] |
| Colors.HsvToRgbExtremes | RestFract/Color/ColorValue.cs:78-95 | the largest RGB component is v and the smallest v·(1 - s) |
| Colors.ValueSaturationRoundTrip | RestFract/Color/ColorValue.cs:67-137 | HSV to RGB and back keeps the value and the saturation |
| Colors.GreyRoundTrip | RestFract/Color/ColorValue.cs:67-137 | a grey goes to HSV and back unchanged |
| Colors.FromRgb | RestFract/Color/ColorValue.cs:19-25 | an RGB colour keeps its components and gets the matching HSV |
| Colors.FromHsv | RestFract/Color/ColorValue.cs:26-32 | an HSV colour keeps its components and gets the matching RGB |
| Colors.NewColor | RestFract/Color/ColorValue.cs:10-33 | the four-argument constructor clamps each component into [0, 1] and sets alpha to 1 |
| Colors.NewColorAlpha | RestFract/Color/ColorValue.cs:35-65 | the five-argument constructor wraps an HSV hue by whole turns, clamps the rest and alpha |
| Colors.SetRgb | RestFract/Color/ColorValue.cs:139-151 | setRGB clamps the components and keeps alpha |
| Colors.SetHsv | RestFract/Color/ColorValue.cs:152-164 | setHSV wraps the hue, clamps saturation and value, and keeps alpha |
| Colors.SetRed | RestFract/Color/ColorValue.cs:245-249 | the Red setter clamps the new red and keeps green, blue and alpha |
| Colors.SetGreen | RestFract/Color/ColorValue.cs:250-254 | the Green setter clamps the new green and keeps the others |
| Colors.SetBlue | RestFract/Color/ColorValue.cs:240-244 | the Blue setter clamps the new blue and keeps the others |
| Colors.SetAlpha | RestFract/Color/ColorValue.cs:255-259 | the Alpha setter clamps alpha and changes nothing else |
| Colors.SetHue | RestFract/Color/ColorValue.cs:260-264 | the Hue setter clamps the new hue and keeps saturation, value and alpha |
| Colors.SetSaturation | RestFract/Color/ColorValue.cs:265-269 | the Saturation setter clamps and keeps hue, value and alpha |
| Colors.SetValue | RestFract/Color/ColorValue.cs:270-274 | the Value setter clamps and keeps hue, saturation and alpha |
| Colors.Scaled | RestFract/Color/ColorValue.cs:176-184 | scaling saturation and value keeps alpha, and factors of 1 keep the colour |
| Colors.Mix | RestFract/Color/ColorValue.cs:187-203 | the RGB components move towards the other colour; alpha is kept |
| Colors.Blend | RestFract/Color/ColorValue.cs:166-215 | nothing changes when alpha or the other colour's alpha is not positive; a fully opaque colour at alpha 1 replaces the colour, with its saturation and value scaled; otherwise alpha is kept |
| Colors.BlendSelf | RestFract/Color/ColorValue.cs:217-238 | alpha is multiplied by the clamped factor, and factors of 1 keep the colour |
| Gradients.Interpolate | RestFract/Color/DictGradientMap.cs:89-132 | the colour between two stops is valid and its alpha is the clamped linear interpolation |
| Gradients.HsvBetween | RestFract/Color/DictGradientMap.cs:98-131 | the hue runs linearly from the starting hue to the end hue, wrapped into [0, 1] |
| Gradients.Position | RestFract/Color/DictGradientMap.cs:58-65 | the looked-up position lies in [0, 1]; without cycling or shift it is the clamped position |
| Gradients.Lookup | RestFract/Color/DictGradientMap.cs:55-134 | an end gives the stop at 0 or 1, an exact hit gives that stop, and otherwise the colour is interpolated between the surrounding stops |
| Gradients.Bracketed | RestFract/Color/DictGradientMap.cs:78-89 | there are stops below and above the position, and the colour interpolates between them |
| Gradients.BracketedBetween | RestFract/Color/DictGradientMap.cs:78-89 | the interpolation uses the largest stop below and the smallest stop above |
| Gradients.BracketExists | RestFract/Color/DictGradientMap.cs:78-87 | a position in [0, 1] always lies between a largest stop below and a smallest stop above |
| Gradients.MirrorKeys | RestFract/Color/DictGradientMap.cs:147-150 | after mirroring, the keys are the old ones plus 1 - k for every mirrored interior stop k |
| Gradients.ReversedStops | RestFract/Color/DictGradientMap.cs:142-151 | a reversed gradient still has stops at 0 and 1, keeps every old key, and holds only valid colours in [0, 1] |
| Gradients.ReversedMirrors | RestFract/Color/DictGradientMap.cs:142-151 | the stop at k is found at 1 - k after Reverse |
| Gradients.ReverseKeepsInterior | RestFract/Color/DictGradientMap.cs:142-151 | an interior stop with no mirror partner stays where it was and also appears at its mirror position |
| Gradients.ReverseTwiceSymmetric | RestFract/Color/DictGradientMap.cs:142-151 | reversing a symmetric set of stops twice restores it |
| Gradients.DictGradientMap.constructor | RestFract/Color/DictGradientMap.cs:13-20 | RGB mapping, no shift, black at 0 and white at 1 |
| Gradients.DictGradientMap.Single | RestFract/Color/DictGradientMap.cs:22-29 | one colour at both ends |
| Gradients.DictGradientMap.Between | RestFract/Color/DictGradientMap.cs:31-38 | start at 0 and end at 1 |
| Gradients.DictGradientMap.SetPoint | RestFract/Color/DictGradientMap.cs:48-53 | the colour is stored at the position clamped into [0, 1] |
| Gradients.DictGradientMap.ClearPoint | RestFract/Color/DictGradientMap.cs:136-139 | only an interior stop is removed; the ends stay |
| Gradients.DictGradientMap.SetMappingType | RestFract/Color/DictGradientMap.cs:156 | sets the mapping type |
| Gradients.DictGradientMap.SetShift | RestFract/Color/DictGradientMap.cs:252 | sets the shift |
| Gradients.DictGradientMap.Reverse | RestFract/Color/DictGradientMap.cs:142-151 | the stops become Reversed of the old stops |
| Gradients.DictGradientMap.GetPoint | RestFract/Color/DictGradientMap.cs:55-134 | getPoint returns the colour Lookup gives |
| Gradients.DictGradientMap.Below | RestFract/Color/DictGradientMap.cs:80-83 | the forward scan ends on the largest stop not above the position |
| Gradients.DictGradientMap.Above | RestFract/Color/DictGradientMap.cs:84-87 | the backward scan ends on the smallest stop not below the position |
| Flattening.Cleared | RestFract/Output/FlattenedOutput.cs:17-18 | the pending slot is emptied (x = -1); its colour is kept |
| Flattening.Put | RestFract/Output/FlattenedOutput.cs:21-40 | a first point or a point at a new place flushes the pending one (if any) and takes its place; a point at the same place is blended into it and emits nothing |
| Flattening.Emits | RestFract/Output/FlattenedOutput.cs:31 | one SetPoint per pixel, in order |
| Flattening.RunFlushesAllButLast | RestFract/Output/FlattenedOutput.cs:21-40 | a run of distinct pixels emits each pixel but the last, in order, and keeps the last pending |
| Flattening.LineEmitsEachPixelOnce | RestFract/Output/FlattenedOutput.cs:14-40 | a line of distinct pixels followed by NextLine emits each pixel exactly once, in order |
| Flattening.EmitsAppend | RestFract/Output/FlattenedOutput.cs:31 | emitting two runs is emitting each in turn |
| Flattening.SamePlaceEmitsNothing | RestFract/Output/FlattenedOutput.cs:36-39 | points at the pending place only blend; nothing is emitted |
| Flattening.FlattenedOutput.Pending | RestFract/Output/FlattenedOutput.cs:47-48 | the pending slot: its place and colour |
| Flattening.FlattenedOutput.constructor | RestFract/Output/FlattenedOutput.cs:47-48 | an occupied slot at (0, 0) holding the all-zero colour; nothing emitted |
| Flattening.FlattenedOutput.InitDraw | RestFract/Output/FlattenedOutput.cs:12 | clears the pending slot, then SetInitDraw |
| Flattening.FlattenedOutput.EndDraw | RestFract/Output/FlattenedOutput.cs:13 | SetEndDraw only |
| Flattening.FlattenedOutput.NextLine | RestFract/Output/FlattenedOutput.cs:14-20 | the pending point is flushed, even when the slot is empty, then the slot is cleared and SetNextLine is called |
| Flattening.FlattenedOutput.PutPoint | RestFract/Output/FlattenedOutput.cs:21-40 | the pending slot and emitted calls follow Put |
| BmpOutput.Pitch | RestFract/Output/FileOutput.cs:36-37 | a row takes 3 bytes per pixel rounded up to a multiple of 4 |
| BmpOutput.FileSize | RestFract/Output/FileOutput.cs:38 | the file is 54 header bytes plus the pixel rows |
| BmpOutput.Header | RestFract/Output/FileOutput.cs:41-58 | the header is 54 bytes |
| BmpOutput.HeaderFields | RestFract/Output/FileOutput.cs:41-58 | read back, the header holds "BM", the file size, 0, offset 54, info size 40, the width, the height, one plane and 24 bits per pixel, then zeros |
| BmpOutput.FileHeaderFields | RestFract/Output/FileOutput.cs:42-49 | the file header holds "BM", the file size, the reserved zeros and the offset 54 |
| BmpOutput.InfoHeaderFields | RestFract/Output/FileOutput.cs:50-57 | the info header holds 40, the width, the height, one plane and 24 bits per pixel |
| BmpOutput.PixelInside | RestFract/Output/FileOutput.cs:115-117 | a pixel of the image is stored inside the pixel area |
| BmpOutput.PixelsApart | RestFract/Output/FileOutput.cs:115-117 | two different pixels never share a byte, and lower rows are stored first |
| BmpOutput.EmptySlotLandsOnTopRow | RestFract/Output/FileOutput.cs:115-117 | the empty slot (-1, -1) lands on the last three bytes of the image |
| BmpOutput.Channel | RestFract/Output/FileOutput.cs:115-117 | (byte)Math.Floor(v·255) for a component in [0, 1] |
| BmpOutput.Stored | RestFract/Output/FileOutput.cs:115-117 | three stores inside the buffer replace exactly those bytes |
| BmpOutput.FileOutput.constructor | RestFract/Output/FileOutput.cs:13-19 | unbuffered, with the given size |
| BmpOutput.FileOutput.SetSize | RestFract/Output/FileOutput.cs:21 | sets the size |
| BmpOutput.FileOutput.SetBuffer | RestFract/Output/FileOutput.cs:121 | sets the buffered flag |
| BmpOutput.FileOutput.SetInitDraw | RestFract/Output/FileOutput.cs:33-59 | buffered: a fresh buffer of filesize + 10 bytes holding the header and zeros |
| BmpOutput.FileOutput.WriteFileHeader | RestFract/Output/FileOutput.cs:41-49 | the first header writes lay down the file header on a zeroed buffer |
| BmpOutput.FileOutput.WriteInfoHeader | RestFract/Output/FileOutput.cs:50-58 | the remaining writes lay down the info header |
| BmpOutput.FileOutput.CopyBytes | RestFract/Output/FileOutput.cs:46 | one foreach copy extends the written prefix by the bytes |
| BmpOutput.FileOutput.SetPoint | RestFract/Output/FileOutput.cs:105-119 | buffered: blue, green and red stored at the pixel's offset, so a pixel of the image is written whole and nothing else; out-of-range stores throw; no buffer is a null reference |
| BmpOutput.FileOutput.StorePixel | RestFract/Output/FileOutput.cs:115-117 | the three stores, throwing at the first index outside the buffer |

## Left out

- Floating point: doubles are exact reals; bit-exact rounding and the float32 narrowing of the OpenCL kernel are not modelled.
- IEEE infinities and NaN: a division by zero yields 0 in `Coloring.Ratio`, `ComplexMath.Recip` and `Drawing.Spacing` (a width below 2), and a NaN in complex division; no property depends on those values.
- Transcendental functions (Complex.Abs, Phase, Pow, Sqrt, Atan, Math.Exp, Log, Sqrt, Round) are the uninterpreted fields of `ComplexMath.MathLib`; every property holds whatever they compute.
- The numerical content of the smooth-triangle finish and of the curvature check goes through the same uninterpreted functions.
- Runtime compilation is a parameter: CSharpCodeProvider, Activator and the C++ path of the pre-compiled engine, and the compile of the user formula in the interpreting engine.
- The full CodeDom trees of the pre-compiled engine are not built; the plan (`PreCompiledEngine.Plan`) records, per layer, the sequence source, the check kind, the check-sequence fold, the bailout test, the MEAN finish and the loop end, and the emitted formula statement and trinorm; the text of the other statements (the smooth-triangle and curvature arithmetic, the layer copy-back) is not modelled.
- PreCompiledEngine.Generate: the plan holds the OR and AND bailout tests comparing each squared part with the bailout, the evidently intended form; the source emits them in a form the host compiler refuses (see Findings and `BailoutAsWrittenIllTyped`), so as written a layer list with an OR or AND test makes GenFractalCalc fail with a compile error.
- OpenCL device calls (buffers, queue, program build) are parameters; what the built kernel computes for a point is a parameter too.
- OpenCLEngine.GenerateKernel: only the output parameters, the initialisations, the aggregate updates and the shared decisions of the kernel text are modelled, and the appends are made in a different order from the source (each depends only on the layer count or the modes, so the text does not change).
- RestFract/Generators/ThreadCalculatorFactory.cs: its behaviour is threads, concurrent queues and busy-polling, which the model does not cover.
- TCP sockets, the accept loop and the thread per connection of the server (RestFract.Generators.Distributed/DistributedCalculatorServer.cs:27-39) are not modelled; a connection is a byte stream given as a value.
- BinaryFormatter: the layer list, fractal type, formula, parameter and count it writes are opaque payloads; the bytes it uses are not modelled, so a server fed raw bytes where a payload is expected ends in the Unmodelled outcome.
- The server's calculator is a parameter (`Backend`): whether the last of a given sequence of calls raises, and the answer GetPoint gives after it. Which exception a hosted call raises is not modelled: every one is the single hosted outcome. Like every `Crash` outcome, it stands for an exception other than a socket or I/O one, which the session loop does not catch: it escapes the session's thread, and so it ends the whole server process and every other session with it. The model follows one session, and its `Crash` outcome ends that session only.
- A server that waits for more input is the Hang outcome, and a client that waits for more answer bytes is Blocked; waiting itself is not modelled.
- DistributedClient.DistributedCalculator: the source never changes `_num`, which stays 0, so every point goes to the first peer's buffer; the model has no shard counter and `AddPoint` writes only buffer 0.
- DistributedClient.DistributedCalculator.InitData: after the capacity fault the source leaves the buffer and counter arrays with null and zero slots for the peers it did not reach; the model's arrays hold empty buffers there, which no later call reads before the next InitData.
- File I/O: the unbuffered path of `FileOutput`, `SetNextLine` and `SetEndDraw` (which write or close the file), and `setFilename` are not modelled.
- BmpOutput.FileOutput.SetInitDraw: requires non-negative sizes and a file size below 2^31 in buffered mode; the 32-bit overflow and the exception of a negative array size are not modelled.
- BmpOutput.FileOutput.SetPoint: in unbuffered mode only the outcome is stated; the bytes written to the file are not modelled.
- DictGradientMap's file constructor, `LoadFromFile` and `SaveToFile` are file I/O and are not modelled. With a missing file the constructor leaves the stop map empty and getPoint then raises on the missing stops at 0 and 1; this is why Coloring.ColoredMandel.PutPoint requires every gradient to hold both stops.
- CLI programs MandelTest/Program.cs and SimpleCalcServer/Program.cs, and the console callback RestFract/Callbacks/DotWriterCallback.cs, are not part of this model.
- The calculation callbacks in `Mandel.Draw` (SetPoint and SetLine on the callback object), the timing through TickCount and `getLastTimeUsed` are not modelled.
- Drawing.Mandel.Draw: the calculator's answers are given as rows of answers, and the call requires that they fit the image and the layer count; the calls the calculator receives are recorded in a trace.
- Plain getters of Mandel, ColoredMandel and FileOutput that only return a field are not modelled as members.
- The hash code of the layer list is a parameter (`listHash`).
- ColoredMandel.ChangeLayer has an empty body; there is nothing to model.
- Null lists are modelled as empty lists or `None`.
- SimpleEngine.SimpleCalculator.GetPoint: computes the point before it removes the head of the queue, while the source removes it first; the computation does not read the queue, so the result is the same.
- Binary.DoubleRoundTrip: requires a value that is exactly a double; rounding of other reals is not modelled.
- RunPointOutcome: the counter is unbounded. The source's n and c_n are C# ints; with c_nlimit = int.MaxValue the test c_n > c_nlimit never fires and the counter wraps (`CounterAsWritten`), so a point that never escapes never stops. Below that the counter is exact (`CounterExactBelowMax`) and the bound holds of the source.
- RunFromBound: the same unbounded counter; at c_nlimit = int.MaxValue the source's loop has no bound.
- OriginIsInside: the same; at c_nlimit = int.MaxValue the origin iterates forever in the source.
- OriginRun: the same as OriginIsInside.
- Iteration.RunFrom: the same unbounded counter.
- Iteration.RunPoint: the same unbounded counter.
- SimpleEngine.SimpleCalculator.Run: the same unbounded counter; the in-place loop is proved to end after at most nlimit + 1 passes, which the source's does not at c_nlimit = int.MaxValue.
- SimpleEngine.SimpleCalculator.GetPoint: requires `Runnable()`: the layers are distinct objects, and the default layer is in the list or some layer is marked default. Both hold for the lists the driver passes (colour layers add fresh clones, and the calculator is generated from a layer of the list); for a default layer outside the list that nothing stops, the source loops forever when that layer is active (an inactive one ends after one pass).
- PreCompiledEngine.PreCompiledCalculator.GetPoint: requires `Distinct(ld)`, for the same reason; the same object twice in the list would be stepped twice per iteration.
- OpenCLEngine.GenerateKernel: the kernel text is built from the DELTA update written as a full statement, `deltax = newx - x;`; the source appends it without the `;` (see Findings), so for a layer list with a DELTA layer the source's update section does not end a statement (`AsWrittenTerminatedIff`).
- OpenCLEngine.AppendUpdates: the same corrected DELTA text.
- OpenCLEngine.KernelFor: the same corrected DELTA text.
- OpenCLEngine.KernelWellFormed: "terminated updates" holds of the corrected text; of the text as written it holds exactly when no layer has DELTA (`AsWrittenTerminatedIff`).
- OpenCLEngine.GenFractalCalc: the same corrected DELTA text; as written the device build would refuse such a kernel.
- Interface and record files (ICalculator.cs, ICalculatorFactory.cs, IMandelOut.cs, IGradientMap.cs, ICalculationCallback.cs, ColorLayer.cs) have no behaviour; they appear only as types and signatures.

## Findings

| source | as written | input that shows it | evidently intended | confidence | as-written member | corrected member |
|---|---|---|---|---|---|---|
| RestFract.Generators.OpenCL/OpenCLCalculatorFactory.cs:397-401 | the DELTA update appends `deltax = newx - x` with no `;`, so it runs into the next statement, giving `deltax = newx - xp = &p0;` | any layer list with a layer whose sequence type has the DELTA flag | `deltax = newx - x;`, as in the commented line below it | not executed | OpenCLEngine.DeltaLayerUnterminated | OpenCLEngine.UpdatesTerminated |
| RestFract/Generators/PreCompiledCalculatorFactory.cs:582-589 | the OR and AND bailout tests are emitted as the squared parts joined by `\|\|` or `&&`, then compared with c_bailout, which is `\|\|`/`&&` on doubles | any layer whose convchktype is OR or AND | each squared part compared with c_bailout, then joined, as the interpreting engine does | not executed | PreCompiledEngine.BailoutAsWrittenIllTyped | PreCompiledEngine.BailoutAgrees |
