/**
 * The [Flags] enumerations of RestFract/ProcessLayer.cs, RestFract/Mandel.cs and
 * RestFract/ColoredMandel.cs, HasFlag, and the closure of the aggregate modes every engine
 * applies before iterating a point.
 *
 * A flag value is the set of the bit positions that are set in it: the value 2^k is Bit(k),
 * bitwise or is set union, HasFlag is inclusion and 0 is the empty set.
 */
module Flags {

  type Mask = set<nat>

  /** The enum member whose value is 2^k. */
  function Bit(k: nat): Mask { {k} }

  /** ConvCheck: which test ends the iteration of a layer. */
  type ConvCheck = Mask
  const CONVCHK_NORMAL: ConvCheck := Bit(0)
  const CONVCHK_REAL: ConvCheck := Bit(1)
  const CONVCHK_IMAG: ConvCheck := Bit(2)
  const CONVCHK_OR: ConvCheck := Bit(3)
  const CONVCHK_AND: ConvCheck := Bit(4)
  const CONVCHK_MANH: ConvCheck := Bit(5)
  const CONVCHK_MANR: ConvCheck := Bit(6)
  const CONVCHK_EXPR: ConvCheck := Bit(7)

  /** SeqType: which sequence a layer follows, and how it folds its check values. */
  type SeqType = Mask
  const SEQ_NORMAL: SeqType := {}
  const SEQ_SUM: SeqType := Bit(0)
  const SEQ_MEAN: SeqType := Bit(1)
  const SEQ_VARSX: SeqType := Bit(2)
  const SEQ_VARIANCE: SeqType := Bit(3)
  const SEQ_STDDEV: SeqType := Bit(4)
  const SEQ_MIN: SeqType := Bit(5)
  const SEQ_MAX: SeqType := Bit(6)
  const SEQ_DELTA: SeqType := Bit(7)
  const SEQ_EXPR: SeqType := Bit(8)

  /** SeqCheck: which value a layer computes from its sequence at each step. */
  type SeqCheck = Mask
  const CHECK_NORMAL: SeqCheck := Bit(0)
  const CHECK_SMOOTH: SeqCheck := Bit(1)
  const CHECK_TRIANGLE: SeqCheck := Bit(2)
  const CHECK_TRIANGLE_SMOOTH: SeqCheck := Bit(3)
  const CHECK_ORBIT_TRAP: SeqCheck := Bit(4)
  const CHECK_REAL: SeqCheck := Bit(5)
  const CHECK_IMAG: SeqCheck := Bit(6)
  const CHECK_ARG: SeqCheck := Bit(7)
  const CHECK_ABS: SeqCheck := Bit(8)
  const CHECK_CURVATURE: SeqCheck := Bit(9)

  /** OrbitTrap: the shape of the trap of an orbit-trap layer. */
  type OrbitTrap = Mask
  const TRAP_POINT: OrbitTrap := Bit(0)
  const TRAP_LINE: OrbitTrap := Bit(1)
  const TRAP_GAUSS: OrbitTrap := Bit(2)

  /** FractalType: the iteration formula. */
  type FractalType = Mask
  const FRACTAL_MANDEL: FractalType := Bit(0)
  const FRACTAL_MANDEL_N: FractalType := Bit(1)
  const FRACTAL_BURNINGSHIP: FractalType := Bit(2)
  const FRACTAL_BURNINGSHIP_N: FractalType := Bit(3)
  const FRACTAL_NEWTON: FractalType := Bit(4)
  const FRACTAL_DIVERGENT: FractalType := Bit(15)
  const FRACTAL_CONVERGENT: FractalType := Bit(16)

  /** LayerType: which points a colour layer paints. */
  type LayerType = Mask
  const LAYER_INSIDE: LayerType := Bit(0)
  const LAYER_OUTSIDE: LayerType := Bit(1)
  const LAYER_BOTH: LayerType := Bit(0) + Bit(1)

  /** LayerExtra: adjustments of an outside colour layer. */
  type LayerExtra = Mask
  const EXTRA_NORMAL: LayerExtra := Bit(0)
  const EXTRA_INC: LayerExtra := Bit(1)
  const EXTRA_DEC: LayerExtra := Bit(2)
  const EXTRA_LOG: LayerExtra := Bit(3)

  /** DataUsed: which datum of a layer a colour layer maps to a colour. */
  type DataUsed = Mask
  const USE_ITER: DataUsed := Bit(0)
  const USE_VALUE: DataUsed := Bit(1)
  const USE_X_REAL: DataUsed := Bit(2)
  const USE_X_IMAG: DataUsed := Bit(3)
  const USE_X_ARG: DataUsed := Bit(4)
  const USE_X_ABS: DataUsed := Bit(5)
  const USE_RES_REAL: DataUsed := Bit(6)
  const USE_RES_IMAG: DataUsed := Bit(7)
  const USE_RES_ARG: DataUsed := Bit(8)
  const USE_RES_ABS: DataUsed := Bit(9)
  const USE_RES_N: DataUsed := Bit(10)

  /** Interp: how a colour layer interpolates between its minimum and maximum. */
  type Interp = Mask
  const INTERP_LINEAR: Interp := Bit(0)
  const INTERP_LOG: Interp := Bit(1)
  const INTERP_EXP: Interp := Bit(2)

  /** Enum.HasFlag: every bit of f is set in v. */
  predicate HasFlag(v: Mask, f: Mask) {
    f <= v
  }

  /**
   * The closure applied to the union of the layers' sequence types before a point is
   * iterated: STDDEV needs VARIANCE, VARIANCE needs VARSX, VARSX needs MEAN, applied once in
   * that order.
   */
  function CloseModes(m: SeqType): (r: SeqType)
    ensures m <= r
    ensures HasFlag(r, SEQ_STDDEV) ==> HasFlag(r, SEQ_VARIANCE)
    ensures HasFlag(r, SEQ_VARIANCE) ==> HasFlag(r, SEQ_VARSX)
    ensures HasFlag(r, SEQ_VARSX) ==> HasFlag(r, SEQ_MEAN)
    ensures r - (SEQ_MEAN + SEQ_VARSX + SEQ_VARIANCE) == m - (SEQ_MEAN + SEQ_VARSX + SEQ_VARIANCE)
  {
    var a := if HasFlag(m, SEQ_STDDEV) then m + SEQ_VARIANCE else m;
    var b := if HasFlag(a, SEQ_VARIANCE) then a + SEQ_VARSX else a;
    if HasFlag(b, SEQ_VARSX) then b + SEQ_MEAN else b
  }

  /** A mask that already satisfies the three implications. */
  predicate ClosedModes(m: SeqType) {
    (HasFlag(m, SEQ_STDDEV) ==> HasFlag(m, SEQ_VARIANCE)) &&
    (HasFlag(m, SEQ_VARIANCE) ==> HasFlag(m, SEQ_VARSX)) &&
    (HasFlag(m, SEQ_VARSX) ==> HasFlag(m, SEQ_MEAN))
  }

  /** The closure is the least closed mask containing its input, so applying it twice changes nothing. */
  lemma CloseModesLeast(m: SeqType, s: SeqType)
    requires m <= s && ClosedModes(s)
    ensures CloseModes(m) <= s
    ensures CloseModes(CloseModes(m)) == CloseModes(m)
  {
  }
}
