/**
 * Complex numbers as pairs of reals, the closed-form fractal step functions of
 * RestFract/Generators/SimpleCalculatorFactory.cs, and the transcendental functions the
 * engines call (System.Numerics and System.Math) as uninterpreted parameters.
 */
module ComplexMath {

  /** System.Numerics.Complex, with exact real parts. */
  datatype Complex = Complex(re: real, im: real)

  const Zero := Complex(0.0, 0.0)

  function Add(a: Complex, b: Complex): Complex { Complex(a.re + b.re, a.im + b.im) }
  function Sub(a: Complex, b: Complex): Complex { Complex(a.re - b.re, a.im - b.im) }
  function Mul(a: Complex, b: Complex): Complex {
    Complex(a.re * b.re - a.im * b.im, a.re * b.im + a.im * b.re)
  }

  /** Division of a complex number by a real (a double in the source). */
  function Scale(a: Complex, d: real): Complex
    requires d != 0.0
  {
    Complex(a.re / d, a.im / d)
  }

  /** The squared modulus, `norm` in the source. */
  function Norm(z: Complex): (r: real)
    ensures r >= 0.0
  {
    z.re * z.re + z.im * z.im
  }

  /**
   * Complex division. A zero divisor yields a NaN in the source; the only division the
   * model performs is guarded by a test that the divisor is non-zero, so the first branch
   * stands for a value that is never used.
   */
  function Div(a: Complex, b: Complex): Complex {
    var d := Norm(b);
    if d == 0.0 then Zero
    else Complex((a.re * b.re + a.im * b.im) / d, (a.im * b.re - a.re * b.im) / d)
  }

  /** `absval` in the source. */
  function AbsVal(x: real): (r: real)
    ensures r >= 0.0 && (r == x || r == -x)
  {
    if x >= 0.0 then x else -x
  }

  /** The user-supplied formula of the DIVERGENT and CONVERGENT types, compiled by the host. */
  type Formula = (Complex, Complex, real, real) -> Complex

  /**
   * The transcendental functions the source calls. Their numerical behaviour is not part of
   * this model: every property proved holds whatever these functions compute.
   *   magnitude  Complex.Abs / Complex.Magnitude      phase     Complex.Phase
   *   exp, log, sqrt, round                             Math.Exp, Math.Log, Math.Sqrt, Math.Round
   *   csqrt, cpow, catan                                Complex.Sqrt, Complex.Pow, Complex.Atan
   */
  datatype MathLib = MathLib(
    magnitude: Complex -> real,
    phase: Complex -> real,
    exp: real -> real,
    log: real -> real,
    sqrt: real -> real,
    round: real -> real,
    csqrt: Complex -> Complex,
    cpow: (Complex, real) -> Complex,
    catan: Complex -> Complex)

  /** 1/v; the infinity IEEE arithmetic gives for v = 0 is not modelled (0 instead). */
  function Recip(v: real): real {
    if v == 0.0 then 0.0 else 1.0 / v
  }

  /** Fractal_Mandel: the step x*x + c written out on the parts. */
  function FractalMandel(x: Complex, c: Complex): (r: Complex)
    ensures r == Add(Mul(x, x), c)
  {
    var sx, sy := x.re, x.im;
    Complex(sx * sx - sy * sy + c.re, 2.0 * sx * sy + c.im)
  }

  /** Fractal_Mandel_n: Pow(x, n) + c. */
  function FractalMandelN(lib: MathLib, x: Complex, c: Complex, n: real): Complex {
    Add(lib.cpow(x, n), c)
  }

  /** Both parts replaced by their absolute values, as the Burning Ship steps do. */
  function Fold(x: Complex): (r: Complex)
    ensures r.re >= 0.0 && r.im >= 0.0
  {
    Complex(AbsVal(x.re), AbsVal(x.im))
  }

  /** Fractal_BurningShip: the Mandelbrot step taken from the folded point. */
  function FractalBurningShip(x: Complex, c: Complex): (r: Complex)
    ensures r == FractalMandel(Fold(x), c)
  {
    var sx, sy := x.re, x.im;
    AbsProduct(sx, sy);
    Complex(sx * sx - sy * sy + c.re, 2.0 * AbsVal(sx * sy) + c.im)
  }

  lemma AbsProduct(a: real, b: real)
    ensures AbsVal(a * b) == AbsVal(a) * AbsVal(b)
    ensures AbsVal(a) * AbsVal(a) == a * a
  {
    if a < 0.0 && b < 0.0 { assert a * b == (-a) * (-b); }
  }

  /** Fractal_BurningShip_n: Pow(|re| + i|im|, n) + c. */
  function FractalBurningShipN(lib: MathLib, x: Complex, c: Complex, n: real): (r: Complex)
    ensures r == FractalMandelN(lib, Fold(x), c, n)
  {
    Add(lib.cpow(Complex(AbsVal(x.re), AbsVal(x.im)), n), c)
  }

  /**
   * With an exponent of 2 and a power function that squares, the general steps are the
   * closed-form ones: Fractal_Mandel_n is Fractal_Mandel and Fractal_BurningShip_n is
   * Fractal_BurningShip.
   */
  lemma PowerTwoSteps(lib: MathLib, x: Complex, c: Complex)
    requires lib.cpow(x, 2.0) == Mul(x, x) && lib.cpow(Fold(x), 2.0) == Mul(Fold(x), Fold(x))
    ensures FractalMandelN(lib, x, c, 2.0) == FractalMandel(x, c)
    ensures FractalBurningShipN(lib, x, c, 2.0) == FractalBurningShip(x, c)
  {
  }

  /** The origin is a fixed point of the Mandelbrot and Burning Ship steps when c is zero. */
  lemma OriginFixed()
    ensures FractalMandel(Zero, Zero) == Zero
    ensures FractalBurningShip(Zero, Zero) == Zero
  {
  }
}
