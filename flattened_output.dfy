/**
 * RestFract/Output/FlattenedOutput.cs: the front end every image writer shares. It holds one
 * pending pixel. Colours put at the pending coordinates are blended into it; a point at other
 * coordinates flushes the pending one to SetPoint and takes its place; NextLine flushes it
 * and clears the slot. The abstract SetPoint, SetNextLine, SetInitDraw and SetEndDraw the
 * subclass implements are recorded, in order, as the calls the front end makes.
 */
module Flattening {
  import Colors

  /** A call the front end makes to the writer behind it. */
  datatype OutCall =
    | SetPoint(flags: int, x: int, y: int, c: Colors.ColorValue)
    | SetNextLine(flags: int, y: int)
    | SetInitDraw
    | SetEndDraw

  /** The pending pixel: the fields old, oldx and oldy. oldx == -1 marks the slot empty. */
  datatype Slot = Slot(c: Colors.ColorValue, x: int, y: int)

  /** A point handed to PutPoint. */
  datatype Pixel = Pixel(x: int, y: int, c: Colors.ColorValue)

  /** The empty slot InitDraw and NextLine leave: coordinates (-1, -1), colour kept. */
  function Cleared(s: Slot): (r: Slot)
    ensures r.x == -1 && r.c == s.c
  {
    Slot(s.c, -1, -1)
  }

  /**
   * PutPoint on the slot s: the new slot and the calls made. Only an empty slot or one at
   * other coordinates is replaced; the slot at the same coordinates blends the new colour
   * in, with alpha, saturation and value 1.
   */
  function Put(s: Slot, flags: int, x: int, y: int, c: Colors.ColorValue): (r: (Slot, seq<OutCall>))
    requires Colors.Valid(s.c) && Colors.Valid(c)
    ensures r.0.x == x && r.0.y == y && Colors.Valid(r.0.c)
    ensures r.1 == [] <==> s.x == -1 || (s.x == x && s.y == y)
    ensures r.1 != [] ==> r.1 == [SetPoint(flags, s.x, s.y, s.c)] && r.0.c == c
    ensures s.x != -1 && s.x == x && s.y == y ==> r.0.c == Colors.Blend(s.c, c, 1.0, 1.0, 1.0)
    ensures s.x == -1 ==> r.0.c == c
  {
    if s.x == -1 then (Slot(c, x, y), [])
    else if s.x != x || s.y != y then (Slot(c, x, y), [SetPoint(flags, s.x, s.y, s.c)])
    else (Slot(Colors.Blend(s.c, c, 1.0, 1.0, 1.0), x, y), [])
  }

  /** The SetPoint calls for a run of pixels, in order. */
  function Emits(flags: int, ps: seq<Pixel>): (r: seq<OutCall>)
    ensures |r| == |ps|
    ensures forall i :: 0 <= i < |ps| ==> r[i] == SetPoint(flags, ps[i].x, ps[i].y, ps[i].c)
  {
    if ps == [] then [] else [SetPoint(flags, ps[0].x, ps[0].y, ps[0].c)] + Emits(flags, ps[1..])
  }

  predicate AllValid(ps: seq<Pixel>) {
    forall i :: 0 <= i < |ps| ==> Colors.Valid(ps[i].c)
  }

  /** PutPoint applied to each pixel in turn: the final slot and every call made. */
  function PutAll(s: Slot, flags: int, ps: seq<Pixel>): (r: (Slot, seq<OutCall>))
    requires Colors.Valid(s.c) && AllValid(ps)
    ensures Colors.Valid(r.0.c)
    decreases |ps|
  {
    if ps == [] then (s, [])
    else
      var step := Put(s, flags, ps[0].x, ps[0].y, ps[0].c);
      var rest := PutAll(step.0, flags, ps[1..]);
      (rest.0, step.1 + rest.1)
  }

  /** No two neighbours in the run share coordinates, and none sits at x == -1. */
  predicate Distinct(ps: seq<Pixel>) {
    (forall i :: 0 <= i < |ps| ==> ps[i].x != -1) &&
    (forall i :: 0 < i < |ps| ==> ps[i - 1].x != ps[i].x || ps[i - 1].y != ps[i].y)
  }

  /**
   * A run of pixels whose neighbours differ flushes every pixel but the last, in order,
   * each with its own colour; the last stays pending. A slot already holding another
   * point is flushed first.
   */
  lemma {:induction false} RunFlushesAllButLast(s: Slot, flags: int, ps: seq<Pixel>)
    requires Colors.Valid(s.c) && AllValid(ps) && Distinct(ps) && |ps| > 0
    requires s.x == -1 || s.x != ps[0].x || s.y != ps[0].y
    ensures var r := PutAll(s, flags, ps); var last := ps[|ps| - 1];
      r.0 == Slot(last.c, last.x, last.y) &&
      r.1 == (if s.x == -1 then [] else [SetPoint(flags, s.x, s.y, s.c)]) + Emits(flags, ps[..|ps| - 1])
    decreases |ps|
  {
    var step := Put(s, flags, ps[0].x, ps[0].y, ps[0].c);
    if |ps| == 1 {
      assert ps[..0] == [];
    } else {
      assert AllValid(ps[1..]) && Distinct(ps[1..]);
      RunFlushesAllButLast(step.0, flags, ps[1..]);
      assert ps[1..][..|ps| - 2] == ps[1..|ps| - 1];
      assert Emits(flags, ps[..|ps| - 1]) == [SetPoint(flags, ps[0].x, ps[0].y, ps[0].c)] + Emits(flags, ps[1..|ps| - 1]);
    }
  }

  /**
   * A line drawn from an empty slot, pixel by pixel with neighbours at different
   * coordinates and closed by NextLine, reaches the writer as exactly one SetPoint per
   * pixel, in order, followed by SetNextLine.
   */
  lemma LineEmitsEachPixelOnce(s: Slot, flags: int, ps: seq<Pixel>, y: int)
    requires Colors.Valid(s.c) && AllValid(ps) && Distinct(ps) && |ps| > 0 && s.x == -1
    ensures var r := PutAll(s, flags, ps);
      r.1 + [SetPoint(flags, r.0.x, r.0.y, r.0.c), SetNextLine(flags, y)] == Emits(flags, ps) + [SetNextLine(flags, y)]
  {
    RunFlushesAllButLast(s, flags, ps);
    var n := |ps|;
    assert ps == ps[..n - 1] + [ps[n - 1]];
    EmitsAppend(flags, ps[..n - 1], [ps[n - 1]]);
  }

  lemma {:induction false} EmitsAppend(flags: int, ps: seq<Pixel>, qs: seq<Pixel>)
    ensures Emits(flags, ps + qs) == Emits(flags, ps) + Emits(flags, qs)
  {
    if ps != [] {
      assert (ps + qs)[1..] == ps[1..] + qs;
      EmitsAppend(flags, ps[1..], qs);
    }
  }

  /**
   * Points that all land on the coordinates already pending reach the writer as nothing:
   * they are blended into the pending colour.
   */
  lemma {:induction false} SamePlaceEmitsNothing(s: Slot, flags: int, ps: seq<Pixel>)
    requires Colors.Valid(s.c) && AllValid(ps) && s.x != -1
    requires forall i :: 0 <= i < |ps| ==> ps[i].x == s.x && ps[i].y == s.y
    ensures var r := PutAll(s, flags, ps); r.1 == [] && r.0.x == s.x && r.0.y == s.y
    decreases |ps|
  {
    if ps != [] {
      var step := Put(s, flags, ps[0].x, ps[0].y, ps[0].c);
      assert step.1 == [] && step.0.x == s.x && step.0.y == s.y;
      SamePlaceEmitsNothing(step.0, flags, ps[1..]);
      assert PutAll(s, flags, ps).1 == step.1 + PutAll(step.0, flags, ps[1..]).1;
    }
  }

  class FlattenedOutput {
    var oldColor: Colors.ColorValue
    var oldx: int
    var oldy: int
    /** The calls made so far to SetPoint, SetNextLine, SetInitDraw and SetEndDraw. */
    var calls: seq<OutCall>

    predicate Valid()
      reads this
    {
      Colors.Valid(oldColor)
    }

    function Pending(): (s: Slot)
      reads this
      ensures s.x == oldx && s.y == oldy && s.c == oldColor
    {
      Slot(oldColor, oldx, oldy)
    }

    /** A new writer: the fields hold their C# defaults, zero coordinates and an all-zero colour. */
    constructor ()
      ensures Valid() && Pending() == Slot(Colors.ColorValue(0.0, 0.0, 0.0, 0.0, 0.0, 0.0, 0.0), 0, 0)
      ensures calls == []
    {
      oldColor := Colors.ColorValue(0.0, 0.0, 0.0, 0.0, 0.0, 0.0, 0.0);
      oldx, oldy := 0, 0;
      calls := [];
    }

    /** InitDraw: the slot emptied, then SetInitDraw. */
    method InitDraw()
      requires Valid()
      modifies this
      ensures Valid() && Pending() == Cleared(old(Pending()))
      ensures calls == old(calls) + [SetInitDraw]
    {
      oldx := -1;
      oldy := -1;
      calls := calls + [SetInitDraw];
    }

    /** EndDraw: SetEndDraw, the slot left as it is, its pixel not flushed. */
    method EndDraw()
      modifies this`calls
      ensures calls == old(calls) + [SetEndDraw]
    {
      calls := calls + [SetEndDraw];
    }

    /**
     * NextLine: the slot flushed to SetPoint whether or not it holds a point (an empty one
     * goes out at (-1, -1) with the colour it last held), then emptied, then SetNextLine.
     */
    method NextLine(flags: int, y: int)
      requires Valid()
      modifies this
      ensures Valid() && Pending() == Cleared(old(Pending()))
      ensures calls == old(calls) + [SetPoint(flags, old(oldx), old(oldy), old(oldColor)), SetNextLine(flags, y)]
    {
      calls := calls + [SetPoint(flags, oldx, oldy, oldColor)];
      oldx := -1;
      oldy := -1;
      calls := calls + [SetNextLine(flags, y)];
    }

    /** PutPoint: the step Put on the pending slot. The layer number plays no part. */
    method PutPoint(layernum: int, flags: int, x: int, y: int, c: Colors.ColorValue)
      requires Valid() && Colors.Valid(c)
      modifies this
      ensures Valid()
      ensures var r := Put(old(Pending()), flags, x, y, c); Pending() == r.0 && calls == old(calls) + r.1
    {
      if oldx == -1 {
        oldColor := c;
        oldx := x;
        oldy := y;
      } else if oldx != x || oldy != y {
        calls := calls + [SetPoint(flags, oldx, oldy, oldColor)];
        oldColor := c;
        oldx := x;
        oldy := y;
      } else {
        oldColor := Colors.Blend(oldColor, c, 1.0, 1.0, 1.0);
      }
    }
  }
}
