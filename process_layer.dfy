/**
 * RestFract/ProcessLayer.cs: the configuration and the per-point state of one processing
 * layer. The 22 fields of the source are grouped into the nine fields `Similar` compares
 * (`LayerConfig`), the default-layer flag, and the twelve fields an engine computes for each
 * point (`LayerState`).
 */
module Layers {
  import opened ComplexMath
  import opened Flags
  import opened Wrappers

  /** c_bailout, c_convchktype, c_nlimit, c_seqtype, c_checktype, c_checkseqtype,
      c_orbittraptype, c_pointA, c_pointB. */
  datatype LayerConfig = LayerConfig(
    bailout: real,
    convchktype: ConvCheck,
    nlimit: int,
    seqtype: SeqType,
    checktype: SeqCheck,
    checkseqtype: SeqType,
    orbittraptype: OrbitTrap,
    pointA: Complex,
    pointB: Complex)

  /** c_active, c_isin, c_old2x, c_oldx, c_x, c_n, c_calc (calcValue), c_cmean, c_cvarsx, c_cvariance,
      c_resx, c_resn. */
  datatype LayerState = LayerState(
    active: bool,
    isin: bool,
    old2x: Complex,
    oldx: Complex,
    x: Complex,
    n: int,
    calcValue: real,
    cmean: real,
    cvarsx: real,
    cvariance: real,
    resx: Complex,
    resn: int)

  /** The configuration the parameterless constructor sets. */
  const DefaultConfig := LayerConfig(0.0, CONVCHK_NORMAL, 0, SEQ_NORMAL, CHECK_NORMAL, SEQ_NORMAL, TRAP_POINT, Zero, Zero)

  /** The state both constructors leave: every field zero or false. */
  const InitialState := LayerState(false, false, Zero, Zero, Zero, 0, 0.0, 0.0, 0.0, 0.0, Zero, 0)

  /**
   * The reset every engine applies to every layer before it iterates a point from `x`.
   * c_n, c_resx and c_resn are not touched.
   */
  function Reset(s: LayerState, x: Complex): LayerState {
    s.(active := true, isin := false, x := x, oldx := x, old2x := x,
       calcValue := 0.0, cmean := 0.0, cvarsx := 0.0, cvariance := 0.0)
  }

  /** A reset layer is active, outside, and starts its three history slots at the start point;
      what it found for an earlier point (n, resx, resn) survives. */
  lemma ResetStartsFresh(s: LayerState, x: Complex)
    ensures var r := Reset(s, x);
      r.active && !r.isin && r.x == x && r.oldx == x && r.old2x == x &&
      r.calcValue == 0.0 && r.cmean == 0.0 && r.cvarsx == 0.0 && r.cvariance == 0.0 &&
      r.n == s.n && r.resx == s.resx && r.resn == s.resn
  {
  }

  class ProcessLayer {
    var cfg: LayerConfig
    var isDefault: bool
    var st: LayerState

    /** The parameterless constructor. */
    constructor Empty()
      ensures cfg == DefaultConfig && !isDefault && st == InitialState
    {
      cfg := DefaultConfig;
      isDefault := false;
      st := InitialState;
    }

    /** The constructor with the configuration (pointA, pointB and the trap type optional). */
    constructor (bailout: real, convchktype: ConvCheck, nlimit: int, seqtype: SeqType,
                 checktype: SeqCheck, checkseqtype: SeqType, pointA: Complex := Zero,
                 pointB: Complex := Zero, orbittraptype: OrbitTrap := TRAP_POINT)
      ensures cfg == LayerConfig(bailout, convchktype, nlimit, seqtype, checktype, checkseqtype,
                                 orbittraptype, pointA, pointB)
      ensures !isDefault && st == InitialState
    {
      cfg := LayerConfig(bailout, convchktype, nlimit, seqtype, checktype, checkseqtype,
                         orbittraptype, pointA, pointB);
      isDefault := false;
      st := InitialState;
    }

    /** Copies all 22 fields of `pl`; loading a layer from itself changes nothing. */
    method LoadFrom(pl: ProcessLayer)
      modifies this
      ensures cfg == old(pl.cfg) && isDefault == old(pl.isDefault) && st == old(pl.st)
    {
      if pl == this {
        return;
      }
      cfg := pl.cfg;
      isDefault := pl.isDefault;
      st := pl.st;
    }

    /** A shallow copy: a new layer with the same 22 field values. */
    method Clone() returns (r: ProcessLayer)
      ensures fresh(r)
      ensures r.cfg == cfg && r.isDefault == isDefault && r.st == st
    {
      r := new ProcessLayer.Empty();
      r.cfg := cfg;
      r.isDefault := isDefault;
      r.st := st;
    }

    /** The nine configuration fields agree; the default flag and the state play no part. */
    function Similar(p: ProcessLayer): (r: bool)
      reads this, p
      ensures r <==> p.cfg == cfg
    {
      p.cfg.bailout == cfg.bailout &&
      p.cfg.convchktype == cfg.convchktype &&
      p.cfg.nlimit == cfg.nlimit &&
      p.cfg.seqtype == cfg.seqtype &&
      p.cfg.checktype == cfg.checktype &&
      p.cfg.checkseqtype == cfg.checkseqtype &&
      p.cfg.orbittraptype == cfg.orbittraptype &&
      p.cfg.pointA == cfg.pointA &&
      p.cfg.pointB == cfg.pointB
    }
  }

  /** Similar is an equivalence on layers (doubles compared as exact reals). */
  lemma SimilarEquivalence(a: ProcessLayer, b: ProcessLayer, c: ProcessLayer)
    ensures a.Similar(a)
    ensures a.Similar(b) == b.Similar(a)
    ensures a.Similar(b) && b.Similar(c) ==> a.Similar(c)
  {
  }

  /** Everything a layer object holds, as BinaryFormatter writes it. */
  datatype LayerValue = LayerValue(cfg: LayerConfig, isDefault: bool, st: LayerState)

  /** The values of a list of layers. */
  function Values(ls: seq<ProcessLayer>): (r: seq<LayerValue>)
    reads set p | p in ls
    ensures |r| == |ls|
  {
    if ls == [] then [] else Values(ls[..|ls| - 1]) + [LayerValue(ls[|ls| - 1].cfg, ls[|ls| - 1].isDefault, ls[|ls| - 1].st)]
  }

  /** The i-th value is the i-th layer's fields. */
  lemma {:induction false} ValuesAt(ls: seq<ProcessLayer>)
    ensures forall i :: 0 <= i < |ls| ==> Values(ls)[i] == LayerValue(ls[i].cfg, ls[i].isDefault, ls[i].st)
  {
    if ls != [] {
      ValuesAt(ls[..|ls| - 1]);
    }
  }

  /** The states of a list of layers. */
  function States(ls: seq<ProcessLayer>): (r: seq<LayerState>)
    reads set p | p in ls
    ensures |r| == |ls| && forall i :: 0 <= i < |ls| ==> r[i] == ls[i].st
  {
    if ls == [] then [] else States(ls[..|ls| - 1]) + [ls[|ls| - 1].st]
  }

  /** The configurations of a list of layers. */
  function Configs(ls: seq<ProcessLayer>): (r: seq<LayerConfig>)
    reads set p | p in ls
    ensures |r| == |ls| && forall i :: 0 <= i < |ls| ==> r[i] == ls[i].cfg
  {
    if ls == [] then [] else Configs(ls[..|ls| - 1]) + [ls[|ls| - 1].cfg]
  }

  /** No layer object occurs twice in the list. */
  predicate Distinct(ls: seq<ProcessLayer>) {
    forall i, j :: 0 <= i < j < |ls| ==> ls[i] != ls[j]
  }

  /** A layer that is not yet in a list of distinct layers can be appended to it. */
  lemma DistinctAppend(ls: seq<ProcessLayer>, p: ProcessLayer)
    requires Distinct(ls) && p !in ls
    ensures Distinct(ls + [p])
  {
    var r := ls + [p];
    forall i, j | 0 <= i < j < |r|
      ensures r[i] != r[j]
    {
      if j == |ls| {
        assert r[i] == ls[i];
      } else {
        assert r[i] == ls[i] && r[j] == ls[j];
      }
    }
  }

  /** The c_default flags of a list of layers. */
  function Defaults(ls: seq<ProcessLayer>): (r: seq<bool>)
    reads set p | p in ls
    ensures |r| == |ls| && forall i :: 0 <= i < |ls| ==> r[i] == ls[i].isDefault
  {
    if ls == [] then [] else Defaults(ls[..|ls| - 1]) + [ls[|ls| - 1].isDefault]
  }

  /**
   * What the engines that compute elsewhere hand back for a point: a clone of every template
   * layer, with its state replaced by the one computed for it.
   */
  method CloneWith(template: seq<ProcessLayer>, sts: seq<LayerState>) returns (pl: seq<ProcessLayer>)
    requires |sts| == |template|
    ensures |pl| == |template|
    ensures forall j :: 0 <= j < |pl| ==>
      (fresh(pl[j]) && pl[j].cfg == template[j].cfg && pl[j].isDefault == template[j].isDefault && pl[j].st == sts[j])
  {
    pl := [];
    var j := 0;
    while j < |template|
      invariant 0 <= j <= |template| && |pl| == j
      invariant forall t :: 0 <= t < j ==>
        (fresh(pl[t]) && pl[t].cfg == template[t].cfg && pl[t].isDefault == template[t].isDefault && pl[t].st == sts[t])
    {
      var np := template[j].Clone();
      np.st := sts[j];
      pl := pl + [np];
      j := j + 1;
    }
  }

  /** Where a layer object sits in a list, if it is there. */
  function IndexIn(ls: seq<ProcessLayer>, p: ProcessLayer?): (r: Option<nat>)
    ensures r.Some? ==> r.value < |ls| && ls[r.value] == p
    ensures r.None? <==> p !in ls
  {
    if ls == [] then None
    else if ls[|ls| - 1] == p then Some(|ls| - 1)
    else IndexIn(ls[..|ls| - 1], p)
  }
}
