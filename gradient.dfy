/**
 * RestFract/Color/DictGradientMap.cs: a colour gradient given by stops, colours at positions
 * in [0, 1] held in a sorted dictionary. Stops at 0 and 1 are always present. A position is
 * looked up by clamping (or, in cyclic mode, not), adding the shift, wrapping into [0, 1]
 * and interpolating between the stops around it.
 */
module Gradients {
  import Colors

  /** How two stops are interpolated. */
  datatype GradientType = Rgb | Hsv | HsvBack | HsvRot

  /** a moved towards b by the fraction t (t need not lie in [0, 1]). */
  function Lerp(a: real, b: real, t: real): real {
    a + Colors.Mul(b - a, t)
  }

  /**
   * The colour between the stops start and end at the fraction bound of the way: RGB
   * components, or HSV components with the hue going up (Hsv), going down through a full
   * turn (HsvBack), or the shorter way round (HsvRot). Alpha is interpolated too. The
   * five-argument constructor clamps, and wraps the hue.
   */
  function Interpolate(t: GradientType, start: Colors.ColorValue, end: Colors.ColorValue, bound: real): (c: Colors.ColorValue)
    ensures Colors.Valid(c)
    ensures c.a == Colors.Clamp(Lerp(start.a, end.a, bound))
  {
    var a := Lerp(start.a, end.a, bound);
    match t
    case Rgb => Colors.NewColorAlpha(true, Lerp(start.r, end.r, bound), Lerp(start.g, end.g, bound), Lerp(start.b, end.b, bound), a)
    case Hsv => HsvBetween(start, end, bound, start.h)
    case HsvBack => HsvBetween(start, end, bound, start.h + 1.0)
    case HsvRot =>
      if Abs(start.h - end.h) > 0.5 then HsvBetween(start, end, bound, start.h + 1.0)
      else HsvBetween(start, end, bound, start.h)
  }

  /** The HSV branches, which differ only in the hue they start from. */
  function HsvBetween(start: Colors.ColorValue, end: Colors.ColorValue, bound: real, h0: real): (c: Colors.ColorValue)
    ensures Colors.Valid(c) && c.h == Colors.Wrapped(Lerp(h0, end.h, bound))
    ensures c.a == Colors.Clamp(Lerp(start.a, end.a, bound))
  {
    Colors.NewColorAlpha(false, Lerp(h0, end.h, bound), Lerp(start.s, end.s, bound), Lerp(start.v, end.v, bound), Lerp(start.a, end.a, bound))
  }

  function Abs(x: real): (r: real)
    ensures r >= 0.0 && (r == x || r == -x)
  {
    if x < 0.0 then -x else x
  }

  /** The position getPoint looks up: clamped unless cyclic, shifted, wrapped into [0, 1]. */
  function Position(pos: real, cyclic: bool, shift: real): (p: real)
    ensures 0.0 <= p <= 1.0
    ensures !cyclic && shift == 0.0 ==> p == Colors.Clamp(pos)
  {
    Colors.Wrapped((if cyclic then pos else Colors.Clamp(pos)) + shift)
  }

  /** sc is the largest key of m not above p. */
  predicate IsFloor(m: map<real, Colors.ColorValue>, p: real, sc: real) {
    sc in m && sc <= p && forall k :: k in m && k <= p ==> k <= sc
  }

  /** ec is the smallest key of m not below p. */
  predicate IsCeiling(m: map<real, Colors.ColorValue>, p: real, ec: real) {
    ec in m && p <= ec && forall k :: k in m && p <= k ==> ec <= k
  }

  /**
   * c is the colour interpolated at p between the stops sc and ec around it, at the fraction
   * of the way from sc to ec that p lies, strictly between 0 and 1.
   */
  predicate Interpolated(m: map<real, Colors.ColorValue>, t: GradientType, p: real, sc: real, ec: real, c: Colors.ColorValue) {
    IsFloor(m, p, sc) && IsCeiling(m, p, ec) && sc < p < ec &&
    0.0 < (p - sc) / (ec - sc) < 1.0 &&
    c == Interpolate(t, m[sc], m[ec], (p - sc) / (ec - sc))
  }

  /**
   * The colour getPoint finds for pos: the stop at 0 or 1 when the looked-up position is an
   * end, the stop itself on an exact hit, and otherwise the colour interpolated between the
   * largest stop below and the smallest stop above, at a fraction strictly between 0 and 1.
   */
  ghost function Lookup(m: map<real, Colors.ColorValue>, t: GradientType, shift: real, pos: real, cyclic: bool): (c: Colors.ColorValue)
    requires Stops(m)
    ensures Colors.Valid(c)
    ensures var p := Position(pos, cyclic, shift);
      (p == 0.0 ==> c == m[0.0]) &&
      (p == 1.0 ==> c == m[1.0]) &&
      (0.0 < p < 1.0 && p in m ==> c == m[p]) &&
      (0.0 < p < 1.0 && p !in m ==> exists sc, ec :: Interpolated(m, t, p, sc, ec, c))
  {
    var p := Position(pos, cyclic, shift);
    if p == 0.0 then m[0.0]
    else if p == 1.0 then m[1.0]
    else if p in m then m[p]
    else Bracketed(m, t, p)
  }

  /** The colour interpolated at a position p strictly between two stops. */
  ghost function Bracketed(m: map<real, Colors.ColorValue>, t: GradientType, p: real): (c: Colors.ColorValue)
    requires Stops(m) && 0.0 < p < 1.0 && p !in m
    ensures Colors.Valid(c) && exists sc, ec :: Interpolated(m, t, p, sc, ec, c)
  {
    BracketExists(m, p);
    var sc :| IsFloor(m, p, sc);
    var ec :| IsCeiling(m, p, ec);
    FractionInside(p - sc, ec - sc);
    var c := Interpolate(t, m[sc], m[ec], (p - sc) / (ec - sc));
    assert Interpolated(m, t, p, sc, ec, c);
    c
  }

  /** The stops around p are unique, so Bracketed is the interpolation between any such pair. */
  lemma BracketedBetween(m: map<real, Colors.ColorValue>, t: GradientType, p: real, sc: real, ec: real)
    requires Stops(m) && 0.0 < p < 1.0 && p !in m && IsFloor(m, p, sc) && IsCeiling(m, p, ec)
    ensures Bracketed(m, t, p) == Interpolate(t, m[sc], m[ec], (p - sc) / (ec - sc))
  {
  }

  /** Every position in [0, 1] lies between a largest stop below it and a smallest above it. */
  lemma BracketExists(m: map<real, Colors.ColorValue>, p: real)
    requires Stops(m) && 0.0 <= p <= 1.0
    ensures exists sc :: IsFloor(m, p, sc)
    ensures exists ec :: IsCeiling(m, p, ec)
  {
    var below := set k | k in m && k <= p;
    assert 0.0 in below;
    Greatest(below);
    var sc :| sc in below && forall j :: j in below ==> j <= sc;
    forall k | k in m && k <= p
      ensures k <= sc
    {
      assert k in below;
    }
    assert IsFloor(m, p, sc);
    var above := set k | k in m && p <= k;
    assert 1.0 in above;
    Least(above);
    var ec :| ec in above && forall j :: j in above ==> ec <= j;
    forall k | k in m && p <= k
      ensures ec <= k
    {
      assert k in above;
    }
    assert IsCeiling(m, p, ec);
  }

  /** The stops of a gradient: 0 and 1 among them, every key in [0, 1], every colour valid. */
  predicate Stops(m: map<real, Colors.ColorValue>) {
    0.0 in m && 1.0 in m && forall k :: k in m ==> 0.0 <= k <= 1.0 && Colors.Valid(m[k])
  }

  /**
   * The positions occupied once Reverse has written the mirror image of every stop outside
   * pending: the old ones, and 1 - j for every such stop j other than 0 and 1.
   */
  function MirrorKeys(m: map<real, Colors.ColorValue>, pending: set<real>): (r: set<real>)
    ensures forall k :: k in r <==> k in m || (k != 0.0 && k != 1.0 && 1.0 - k in m && 1.0 - k !in pending)
  {
    var mirrors := set j | j in m && j != 0.0 && j != 1.0 && j !in pending :: 1.0 - j;
    assert forall k :: k != 0.0 && k != 1.0 && 1.0 - k in m && 1.0 - k !in pending ==> k in mirrors by {
      forall k | k != 0.0 && k != 1.0 && 1.0 - k in m && 1.0 - k !in pending ensures k in mirrors {
        var j := 1.0 - k;
        assert k == 1.0 - j;
      }
    }
    m.Keys + mirrors
  }

  /**
   * The map part way through Reverse: the colours at 0 and 1 exchanged, and the colour of
   * every interior stop outside pending also stored at the mirrored position.
   */
  function Mirrored(m: map<real, Colors.ColorValue>, pending: set<real>): (r: map<real, Colors.ColorValue>)
    requires 0.0 in m && 1.0 in m
  {
    map k | k in MirrorKeys(m, pending) ::
      if k == 0.0 then m[1.0]
      else if k == 1.0 then m[0.0]
      else if 1.0 - k in m && 1.0 - k !in pending then m[1.0 - k]
      else m[k]
  }

  /**
   * The map after Reverse: every interior stop mirrored, and the interior stops that are no
   * mirror image left where they were.
   */
  function Reversed(m: map<real, Colors.ColorValue>): (r: map<real, Colors.ColorValue>)
    requires 0.0 in m && 1.0 in m
  {
    Mirrored(m, {})
  }

  /** Before any interior stop is mirrored, only the colours at 0 and 1 have been exchanged. */
  lemma MirroredStart(m: map<real, Colors.ColorValue>)
    requires 0.0 in m && 1.0 in m
    ensures Mirrored(m, m.Keys) == m[1.0 := m[0.0]][0.0 := m[1.0]]
  {
    assert MirrorKeys(m, m.Keys) == m.Keys;
  }

  /** Mirroring one more stop k writes its colour at 1 - k, and nothing else. */
  lemma MirroredStep(m: map<real, Colors.ColorValue>, pending: set<real>, k: real)
    requires 0.0 in m && 1.0 in m && k in pending && pending <= m.Keys
    ensures k != 0.0 && k != 1.0 ==> Mirrored(m, pending)[1.0 - k := m[k]] == Mirrored(m, pending - {k})
    ensures k == 0.0 || k == 1.0 ==> Mirrored(m, pending) == Mirrored(m, pending - {k})
  {
    if k != 0.0 && k != 1.0 {
      assert MirrorKeys(m, pending - {k}) == MirrorKeys(m, pending) + {1.0 - k};
    } else {
      assert MirrorKeys(m, pending - {k}) == MirrorKeys(m, pending);
    }
  }

  /** Reverse keeps the gradient's stops well formed, and every old key. */
  lemma ReversedStops(m: map<real, Colors.ColorValue>)
    requires Stops(m)
    ensures Stops(Reversed(m))
    ensures forall k :: k in m ==> k in Reversed(m)
  {
  }

  /**
   * After Reverse the colour at 1 - k is the old colour at k, for every key k: the gradient
   * reads backwards.
   */
  lemma ReversedMirrors(m: map<real, Colors.ColorValue>, k: real)
    requires Stops(m) && k in m
    ensures 1.0 - k in Reversed(m) && Reversed(m)[1.0 - k] == m[k]
  {
  }

  /**
   * An interior stop whose mirror image is no stop stays in place: the gradient then holds
   * the colour both at k and at 1 - k.
   */
  lemma ReverseKeepsInterior(m: map<real, Colors.ColorValue>, k: real)
    requires Stops(m) && k in m && 0.0 < k < 1.0 && 1.0 - k !in m
    ensures k in Reversed(m) && Reversed(m)[k] == m[k] && Reversed(m)[1.0 - k] == m[k]
  {
  }

  /** On a gradient whose stops lie symmetrically about 1/2, Reverse undoes itself. */
  lemma ReverseTwiceSymmetric(m: map<real, Colors.ColorValue>)
    requires Stops(m) && forall k :: k in m ==> 1.0 - k in m
    ensures Reversed(Reversed(m)) == m
  {
    var r := Reversed(m);
    assert r.Keys == m.Keys;
    assert Reversed(r).Keys == m.Keys;
  }

  /** 0 < a < b gives a fraction a / b strictly inside (0, 1). */
  lemma FractionInside(a: real, b: real)
    requires 0.0 < a < b
    ensures 0.0 < a / b < 1.0
  {
    var q := a / b;
    assert Colors.Mul(q, b) == a;
    if q >= 1.0 {
      Colors.MulMonotone(b, 1.0, q);
      assert false;
    }
    if q <= 0.0 {
      Colors.MulMonotone(b, q, 0.0);
      assert false;
    }
  }

  class DictGradientMap {
    var points: map<real, Colors.ColorValue>
    var gtype: GradientType
    var shift: real

    predicate Valid()
      reads this
    {
      Stops(points)
    }

    /** The default gradient: black at 0 to white at 1, RGB, no shift. */
    constructor ()
      ensures Valid() && gtype == Rgb && shift == 0.0
      ensures points == map[0.0 := Colors.NewColor(true, 0.0, 0.0, 0.0), 1.0 := Colors.NewColor(true, 1.0, 1.0, 1.0)]
    {
      points := map[0.0 := Colors.NewColor(true, 0.0, 0.0, 0.0), 1.0 := Colors.NewColor(true, 1.0, 1.0, 1.0)];
      gtype := Rgb;
      shift := 0.0;
    }

    /** A gradient of one colour. */
    constructor Single(col: Colors.ColorValue)
      requires Colors.Valid(col)
      ensures Valid() && gtype == Rgb && shift == 0.0
      ensures points == map[0.0 := col, 1.0 := col]
    {
      points := map[0.0 := col, 1.0 := col];
      gtype := Rgb;
      shift := 0.0;
    }

    /** A gradient from start to end. */
    constructor Between(start: Colors.ColorValue, end: Colors.ColorValue)
      requires Colors.Valid(start) && Colors.Valid(end)
      ensures Valid() && gtype == Rgb && shift == 0.0
      ensures points == map[0.0 := start, 1.0 := end]
    {
      points := map[0.0 := start, 1.0 := end];
      gtype := Rgb;
      shift := 0.0;
    }

    /** setPoint: the stop stored at the position clamped into [0, 1]. */
    method SetPoint(pos: real, point: Colors.ColorValue)
      requires Valid() && Colors.Valid(point)
      modifies this`points
      ensures Valid() && points == old(points)[Colors.Clamp(pos) := point]
    {
      var p := pos;
      if p < 0.0 {
        p := 0.0;
      }
      if p > 1.0 {
        p := 1.0;
      }
      points := points[p := point];
    }

    /** ClearPoint: only a stop strictly between 0 and 1 is removed. */
    method ClearPoint(pos: real)
      requires Valid()
      modifies this`points
      ensures Valid()
      ensures points == if 0.0 < pos < 1.0 then old(points) - {pos} else old(points)
    {
      if 0.0 < pos && pos < 1.0 {
        points := points - {pos};
      }
    }

    /** The MappingType setter. */
    method SetMappingType(t: GradientType)
      modifies this`gtype
      ensures gtype == t
    {
      gtype := t;
    }

    /** The Shift setter. */
    method SetShift(s: real)
      modifies this`shift
      ensures shift == s
    {
      shift := s;
    }

    /**
     * Reverse: the colours at 0 and 1 exchanged, then each interior stop's colour written at
     * the mirrored position. The writes go to distinct positions, so their order does not
     * matter and the copy's entries are visited in any order.
     */
    method Reverse()
      requires Valid()
      modifies this`points
      ensures Valid() && points == Reversed(old(points))
    {
      var p2 := points;
      points := points[1.0 := p2[0.0]];
      points := points[0.0 := p2[1.0]];
      var todo := p2.Keys;
      MirroredStart(p2);
      while todo != {}
        invariant todo <= p2.Keys && points == Mirrored(p2, todo)
        decreases todo
      {
        Inhabited(todo);
        var k :| k in todo;
        MirroredStep(p2, todo, k);
        if k != 0.0 && k != 1.0 {
          points := points[1.0 - k := p2[k]];
        }
        todo := todo - {k};
      }
      ReversedStops(p2);
    }

    /**
     * getPoint: the stop at 0 or 1 when the looked-up position is an end, the stop itself
     * on an exact hit, and otherwise the colour interpolated between the largest stop below
     * and the smallest stop above, at a fraction strictly between 0 and 1.
     */
    method GetPoint(pos: real, cyclic: bool) returns (c: Colors.ColorValue)
      requires Valid()
      ensures c == Lookup(points, gtype, shift, pos, cyclic)
    {
      var p := pos;
      if !cyclic {
        if p <= 0.0 {
          p := 0.0;
        }
        if p >= 1.0 {
          p := 1.0;
        }
      }
      p := p + shift;
      p := Colors.Wrap(p);
      assert p == Position(pos, cyclic, shift);
      if p <= 0.0 {
        return points[0.0];
      }
      if p >= 1.0 {
        return points[1.0];
      }
      if p in points {
        return points[p];
      }
      var sc, start := Below(points, p);
      var ec, end := Above(points, p);
      FractionInside(p - sc, ec - sc);
      var bound := (p - sc) / (ec - sc);
      c := Interpolate(gtype, start, end, bound);
      BracketedBetween(points, gtype, p, sc, ec);
    }

    /**
     * The ascending scan of getPoint: the stops visited in increasing order, every stop not
     * above p overwriting the one before, so the last such stop is kept.
     */
    static method Below(m: map<real, Colors.ColorValue>, p: real) returns (sc: real, start: Colors.ColorValue)
      requires Stops(m) && 0.0 <= p
      ensures IsFloor(m, p, sc) && start == m[sc]
    {
      sc, start := 0.0, m[0.0];
      var todo := m.Keys;
      while todo != {}
        invariant todo <= m.Keys
        invariant sc in m && sc <= p && start == m[sc]
        invariant forall k :: k in m && k !in todo && k <= p ==> k <= sc
        invariant forall j, k :: j in m && j !in todo && k in todo ==> j <= k
        decreases todo
      {
        Least(todo);
        var k :| k in todo && forall j :: j in todo ==> k <= j;
        if k <= p {
          sc, start := k, m[k];
        }
        todo := todo - {k};
      }
    }

    /**
     * The descending scan of getPoint: the stops visited in decreasing order, every stop not
     * below p overwriting the one before, so the last such stop is kept.
     */
    static method Above(m: map<real, Colors.ColorValue>, p: real) returns (ec: real, end: Colors.ColorValue)
      requires Stops(m) && p <= 1.0
      ensures IsCeiling(m, p, ec) && end == m[ec]
    {
      ec, end := 1.0, m[1.0];
      var todo := m.Keys;
      while todo != {}
        invariant todo <= m.Keys
        invariant ec in m && p <= ec && end == m[ec]
        invariant forall k :: k in m && k !in todo && p <= k ==> ec <= k
        invariant forall j, k :: j in m && j !in todo && k in todo ==> k <= j
        decreases todo
      {
        Greatest(todo);
        var k :| k in todo && forall j :: j in todo ==> j <= k;
        if k >= p {
          ec, end := k, m[k];
        }
        todo := todo - {k};
      }
    }
  }

  /** A non-empty set of positions has an element. */
  lemma Inhabited(s: set<real>)
    requires s != {}
    ensures exists k :: k in s
  {
    if forall k :: k !in s {
      assert false;
    }
  }

  /** A non-empty finite set of positions has a least element. */
  lemma {:induction false} Least(s: set<real>)
    requires s != {}
    ensures exists k :: k in s && forall j :: j in s ==> k <= j
    decreases |s|
  {
    Inhabited(s);
    var x :| x in s;
    if s != {x} {
      Least(s - {x});
      var y :| y in s - {x} && forall j :: j in s - {x} ==> y <= j;
      var least := if x <= y then x else y;
      forall j | j in s ensures least <= j {
        if j != x {
          assert j in s - {x};
        }
      }
    } else {
      assert forall j :: j in s ==> x <= j;
    }
  }

  /** A non-empty finite set of positions has a greatest element. */
  lemma {:induction false} Greatest(s: set<real>)
    requires s != {}
    ensures exists k :: k in s && forall j :: j in s ==> j <= k
    decreases |s|
  {
    Inhabited(s);
    var x :| x in s;
    if s != {x} {
      Greatest(s - {x});
      var y :| y in s - {x} && forall j :: j in s - {x} ==> j <= y;
      var greatest := if y <= x then x else y;
      forall j | j in s ensures j <= greatest {
        if j != x {
          assert j in s - {x};
        }
      }
    } else {
      assert forall j :: j in s ==> j <= x;
    }
  }
}
