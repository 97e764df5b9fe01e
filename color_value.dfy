/**
 * RestFract/Color/ColorValue.cs: a colour held in both representations at once, red, green
 * and blue next to hue, saturation and value, plus an alpha. Every operation clamps what it
 * stores into [0, 1] and recomputes the representation it did not set. ColorValue is a C#
 * struct, so an operation that changes it is a function from the old value to the new one.
 * Doubles are modelled as reals.
 */
module Colors {

  /** x clamped into [0, 1], in the order the source tests: below 0 first, then above 1. */
  function Clamp(x: real): (r: real)
    ensures 0.0 <= r <= 1.0
    ensures 0.0 <= x <= 1.0 ==> r == x
  {
    if x < 0.0 then 0.0 else if x > 1.0 then 1.0 else x
  }

  /** The least integer not below x. */
  function Ceil(x: real): (k: int)
    ensures x <= k as real < x + 1.0
  {
    -((-x).Floor)
  }

  /** The whole turns the wrap loops add to a hue (negative when they subtract). */
  function Turns(h: real): int {
    if h < 0.0 then Ceil(-h) else if h > 1.0 then -Ceil(h - 1.0) else 0
  }

  /**
   * A value brought into [0, 1] by whole turns, as the wrap loops of setHSV, of the
   * five-argument constructor and of DictGradientMap.getPoint do: up from below 0, down
   * from above 1.
   */
  function Wrapped(h: real): (w: real)
    ensures 0.0 <= w <= 1.0 && w == h + Turns(h) as real
    ensures 0.0 <= h <= 1.0 ==> w == h
  {
    h + Turns(h) as real
  }

  /** The two wrap loops: add 1 while below 0, then subtract 1 while above 1. */
  method Wrap(h0: real) returns (h: real)
    ensures h == Wrapped(h0)
  {
    h := h0;
    ghost var k := 0;
    while h < 0.0
      invariant h == h0 + k as real && 0 <= k
      invariant h0 < 0.0 ==> k <= Ceil(-h0)
      invariant h0 >= 0.0 ==> k == 0
      decreases Ceil(-h0) - k
    {
      h := h + 1.0;
      k := k + 1;
    }
    ghost var h1 := h;
    ghost var j := 0;
    while h > 1.0
      invariant h == h1 - j as real && 0 <= j
      invariant h1 > 1.0 ==> j <= Ceil(h1 - 1.0)
      invariant h1 <= 1.0 ==> j == 0
      decreases Ceil(h1 - 1.0) - j
    {
      h := h - 1.0;
      j := j + 1;
    }
  }

  datatype Rgb = Rgb(r: real, g: real, b: real)
  datatype Hsv = Hsv(h: real, s: real, v: real)

  /** The smallest of three, found as RGBtoHSV finds it: r, then b, then g. */
  function Min3(r: real, g: real, b: real): (m: real)
    ensures m <= r && m <= g && m <= b && (m == r || m == g || m == b)
  {
    var m1 := if b < r then b else r;
    if g < m1 then g else m1
  }

  /** The largest of three, found as RGBtoHSV finds it. */
  function Max3(r: real, g: real, b: real): (m: real)
    ensures m >= r && m >= g && m >= b && (m == r || m == g || m == b)
  {
    var m1 := if b > r then b else r;
    if g > m1 then g else m1
  }

  /**
   * HSVtoRGB: the hue, a fraction of a turn, picks one of six sectors of 60 degrees; within
   * it the components are v, p = v(1 - s), and q or t, which run between them. A grey
   * (s == 0) gives v three times unclamped; every other result is clamped.
   */
  function HsvToRgb(h0: real, s: real, v: real): (c: Rgb)
    ensures s == 0.0 ==> c == Rgb(v, v, v)
    ensures 0.0 <= v <= 1.0 ==> 0.0 <= c.r <= 1.0 && 0.0 <= c.g <= 1.0 && 0.0 <= c.b <= 1.0
    ensures s != 0.0 && h0 >= 0.0 ==> 0.0 <= c.r <= 1.0 && 0.0 <= c.g <= 1.0 && 0.0 <= c.b <= 1.0
  {
    var h := HueDegrees(h0);
    if s == 0.0 || h == -1.0 then Rgb(v, v, v)
    else
      var hTemp := h / 60.0;
      var i := hTemp.Floor;
      var f := hTemp - i as real;
      var raw := SectorRgb(i, v, SectorParts(s, v, f));
      Rgb(Clamp(raw.r), Clamp(raw.g), Clamp(raw.b))
  }

  /** A hue fraction in degrees, with one full turn taken off at 360 or more. */
  function HueDegrees(h0: real): (h: real)
    ensures 0.0 <= h0 <= 1.0 ==> 0.0 <= h < 360.0
    ensures h0 < 1.0 ==> h == h0 * 360.0
  {
    var h1 := h0 * 360.0;
    if h1 >= 360.0 then h1 - 360.0 else h1
  }

  /** The three components HSVtoRGB computes besides v. */
  datatype Parts = Parts(p: real, q: real, t: real)

  /**
   * p = v(1 - s), q = v(1 - sf) and t = v(1 - s(1 - f)), for the fraction f of the way
   * through the sector: q falls from v to p across the sector and t rises from p to v.
   */
  function SectorParts(s: real, v: real, f: real): Parts {
    Parts(Mul(v, 1.0 - s), Mul(v, 1.0 - Mul(s, f)), Mul(v, 1.0 - Mul(s, 1.0 - f)))
  }

  /** The components of sector i: v, p, and q or t, in the order the sector gives them. */
  function SectorRgb(i: int, v: real, c: Parts): Rgb {
    var p, q, t := c.p, c.q, c.t;
    if i == 0 then Rgb(v, t, p)
    else if i == 1 then Rgb(q, v, p)
    else if i == 2 then Rgb(p, v, t)
    else if i == 3 then Rgb(p, q, v)
    else if i == 4 then Rgb(t, p, v)
    else Rgb(v, p, q)
  }

  /** Whatever the sector, the largest component is v and the smallest p. */
  lemma SectorExtremes(i: int, v: real, parts: Parts)
    requires 0.0 <= parts.p <= parts.q <= v <= 1.0 && parts.p <= parts.t <= v
    ensures var raw := SectorRgb(i, v, parts); var c := Rgb(Clamp(raw.r), Clamp(raw.g), Clamp(raw.b));
      Max3(c.r, c.g, c.b) == v && Min3(c.r, c.g, c.b) == parts.p
  {
  }

  /**
   * RGBtoHSV: v is the largest component, s the spread relative to it, and h the position
   * of the colour on the hue circle as a fraction of a turn. Black and greys give h = s = 0
   * and v unclamped; every other result is clamped.
   */
  function RgbToHsv(r: real, g: real, b: real): (c: Hsv)
    ensures var max, min := Max3(r, g, b), Min3(r, g, b);
      (max == 0.0 || max == min ==> c == Hsv(0.0, 0.0, max)) &&
      (max != 0.0 && max != min ==> c.v == Clamp(max) && 0.0 <= c.h <= 1.0 && 0.0 <= c.s <= 1.0)
  {
    var min, max := Min3(r, g, b), Max3(r, g, b);
    var delta := max - min;
    if max == 0.0 || delta == 0.0 then Hsv(0.0, 0.0, max)
    else
      var s := delta / max;
      var h1 :=
        if r == max then (g - b) / delta
        else if g == max then 2.0 + (b - r) / delta
        else 4.0 + (r - g) / delta;
      var h2 := h1 * 60.0;
      var h3 := if h2 < 0.0 then h2 + 360.0 else h2;
      Hsv(Clamp(h3 / 360.0), Clamp(s), Clamp(max))
  }

  /** Components in [0, 1] give components in [0, 1]. */
  lemma RgbToHsvInRange(r: real, g: real, b: real)
    requires 0.0 <= r <= 1.0 && 0.0 <= g <= 1.0 && 0.0 <= b <= 1.0
    ensures var c := RgbToHsv(r, g, b); 0.0 <= c.h <= 1.0 && 0.0 <= c.s <= 1.0 && 0.0 <= c.v <= 1.0
  {
  }

  /**
   * The product of two reals. Every product of two variable quantities in this module is
   * written through Mul, so that the facts about products are proved once, below, and the
   * rest of the module reasons about them linearly.
   */
  function Mul(a: real, b: real): real {
    a * b
  }

  /** A fraction k of d lies between 0 and d. */
  lemma MulUnit(d: real, k: real)
    requires 0.0 <= k <= 1.0
    ensures d >= 0.0 ==> 0.0 <= Mul(d, k) <= d
    ensures d < 0.0 ==> d <= Mul(d, k) <= 0.0
  {
    assert d * k - d == d * (k - 1.0);
  }

  /** Multiplying by a non-negative factor keeps the order. */
  lemma MulMonotone(v: real, a: real, b: real)
    requires 0.0 <= v && a <= b
    ensures Mul(v, a) <= Mul(v, b)
  {
    assert v * b - v * a == v * (b - a);
  }

  /** Within a sector the three raw components are v, p and one between them. */
  lemma SectorBounds(s: real, v: real, f: real)
    ensures var c := SectorParts(s, v, f);
      0.0 < s <= 1.0 && 0.0 < v <= 1.0 && 0.0 <= f < 1.0 ==>
      0.0 <= c.p <= c.q <= v && c.p <= c.t <= v
  {
    if 0.0 < s <= 1.0 && 0.0 < v <= 1.0 && 0.0 <= f < 1.0 {
      MulUnit(s, f);
      MulUnit(s, 1.0 - f);
      MulUnit(v, 1.0 - s);
      MulUnit(v, 1.0 - Mul(s, f));
      MulUnit(v, 1.0 - Mul(s, 1.0 - f));
      MulMonotone(v, 1.0 - s, 1.0 - Mul(s, f));
      MulMonotone(v, 1.0 - s, 1.0 - Mul(s, 1.0 - f));
    }
  }

  /** For a hue in [0, 1] the largest RGB component is v and the smallest v(1 - s). */
  lemma HsvToRgbExtremes(h: real, s: real, v: real)
    requires 0.0 <= h <= 1.0 && 0.0 < s <= 1.0 && 0.0 < v <= 1.0
    ensures var c := HsvToRgb(h, s, v);
      Max3(c.r, c.g, c.b) == v && Min3(c.r, c.g, c.b) == Mul(v, 1.0 - s)
  {
    var hTemp := HueDegrees(h) / 60.0;
    assert 0.0 <= hTemp < 6.0;
    var i := hTemp.Floor;
    assert 0 <= i <= 5;
    var f := hTemp - i as real;
    SectorBounds(s, v, f);
    SectorExtremes(i, v, SectorParts(s, v, f));
  }

  /**
   * Converting a colour to RGB and back keeps its value and its saturation: the largest
   * component is v and the smallest v(1 - s).
   */
  lemma ValueSaturationRoundTrip(h: real, s: real, v: real)
    requires 0.0 <= h <= 1.0 && 0.0 < s <= 1.0 && 0.0 < v <= 1.0
    ensures var c := HsvToRgb(h, s, v); var d := RgbToHsv(c.r, c.g, c.b);
      d.v == v && d.s == s
  {
    HsvToRgbExtremes(h, s, v);
    SpreadOverValue(s, v);
  }

  /** The spread v - v(1 - s) over v is s. */
  lemma SpreadOverValue(s: real, v: real)
    requires 0.0 < v
    ensures (v - Mul(v, 1.0 - s)) / v == s
  {
    assert v - v * (1.0 - s) == v * s;
  }

  /** A grey converted to HSV and back is the same grey. */
  lemma GreyRoundTrip(x: real)
    requires 0.0 <= x <= 1.0
    ensures var d := RgbToHsv(x, x, x); HsvToRgb(d.h, d.s, d.v) == Rgb(x, x, x)
  {
  }

  /** c_r, c_g, c_b, c_a, c_h, c_s, c_v. */
  datatype ColorValue = ColorValue(r: real, g: real, b: real, a: real, h: real, s: real, v: real)

  /** What every operation keeps: all seven fields in [0, 1]. */
  predicate Valid(c: ColorValue) {
    0.0 <= c.r <= 1.0 && 0.0 <= c.g <= 1.0 && 0.0 <= c.b <= 1.0 && 0.0 <= c.a <= 1.0 &&
    0.0 <= c.h <= 1.0 && 0.0 <= c.s <= 1.0 && 0.0 <= c.v <= 1.0
  }

  /** The colour with the given RGB components and alpha, and the HSV computed from them. */
  function FromRgb(r: real, g: real, b: real, a: real): (c: ColorValue)
    requires 0.0 <= r <= 1.0 && 0.0 <= g <= 1.0 && 0.0 <= b <= 1.0 && 0.0 <= a <= 1.0
    ensures Valid(c) && c.r == r && c.g == g && c.b == b && c.a == a
  {
    RgbToHsvInRange(r, g, b);
    var hsv := RgbToHsv(r, g, b);
    ColorValue(r, g, b, a, hsv.h, hsv.s, hsv.v)
  }

  /** The colour with the given HSV components and alpha, and the RGB computed from them. */
  function FromHsv(h: real, s: real, v: real, a: real): (c: ColorValue)
    requires 0.0 <= h <= 1.0 && 0.0 <= s <= 1.0 && 0.0 <= v <= 1.0 && 0.0 <= a <= 1.0
    ensures Valid(c) && c.h == h && c.s == s && c.v == v && c.a == a
  {
    var rgb := HsvToRgb(h, s, v);
    ColorValue(rgb.r, rgb.g, rgb.b, a, h, s, v)
  }

  /** The four-argument constructor: components clamped, alpha 1. */
  function NewColor(isRgb: bool, rh: real, gs: real, bv: real): (c: ColorValue)
    ensures Valid(c) && c.a == 1.0
    ensures isRgb ==> c.r == Clamp(rh) && c.g == Clamp(gs) && c.b == Clamp(bv)
    ensures !isRgb ==> c.h == Clamp(rh) && c.s == Clamp(gs) && c.v == Clamp(bv)
  {
    if isRgb then FromRgb(Clamp(rh), Clamp(gs), Clamp(bv), 1.0)
    else FromHsv(Clamp(rh), Clamp(gs), Clamp(bv), 1.0)
  }

  /** The five-argument constructor: an HSV hue wrapped by whole turns, the rest clamped. */
  function NewColorAlpha(isRgb: bool, rh: real, gs: real, bv: real, a: real): (c: ColorValue)
    ensures Valid(c) && c.a == Clamp(a)
    ensures isRgb ==> c.r == Clamp(rh) && c.g == Clamp(gs) && c.b == Clamp(bv)
    ensures !isRgb ==> c.h == Wrapped(rh) && c.s == Clamp(gs) && c.v == Clamp(bv)
  {
    if isRgb then FromRgb(Clamp(rh), Clamp(gs), Clamp(bv), Clamp(a))
    else FromHsv(Wrapped(rh), Clamp(gs), Clamp(bv), Clamp(a))
  }

  /** setRGB: the RGB components clamped, HSV recomputed, alpha kept. */
  function SetRgb(c: ColorValue, r: real, g: real, b: real): (d: ColorValue)
    requires 0.0 <= c.a <= 1.0
    ensures Valid(d) && d.a == c.a && d.r == Clamp(r) && d.g == Clamp(g) && d.b == Clamp(b)
  {
    FromRgb(Clamp(r), Clamp(g), Clamp(b), c.a)
  }

  /** setHSV: the hue wrapped, saturation and value clamped, RGB recomputed, alpha kept. */
  function SetHsv(c: ColorValue, h: real, s: real, v: real): (d: ColorValue)
    requires 0.0 <= c.a <= 1.0
    ensures Valid(d) && d.a == c.a && d.h == Wrapped(h) && d.s == Clamp(s) && d.v == Clamp(v)
  {
    FromHsv(Wrapped(h), Clamp(s), Clamp(v), c.a)
  }

  /** The Red setter. */
  function SetRed(c: ColorValue, x: real): (d: ColorValue)
    requires Valid(c)
    ensures Valid(d) && d.r == Clamp(x) && d.g == c.g && d.b == c.b && d.a == c.a
  {
    FromRgb(Clamp(x), c.g, c.b, c.a)
  }

  /** The Green setter. */
  function SetGreen(c: ColorValue, x: real): (d: ColorValue)
    requires Valid(c)
    ensures Valid(d) && d.r == c.r && d.g == Clamp(x) && d.b == c.b && d.a == c.a
  {
    FromRgb(c.r, Clamp(x), c.b, c.a)
  }

  /** The Blue setter. */
  function SetBlue(c: ColorValue, x: real): (d: ColorValue)
    requires Valid(c)
    ensures Valid(d) && d.r == c.r && d.g == c.g && d.b == Clamp(x) && d.a == c.a
  {
    FromRgb(c.r, c.g, Clamp(x), c.a)
  }

  /** The Alpha setter: nothing else is recomputed. */
  function SetAlpha(c: ColorValue, x: real): (d: ColorValue)
    requires Valid(c)
    ensures Valid(d) && d.a == Clamp(x) && d == c.(a := d.a)
  {
    c.(a := Clamp(x))
  }

  /** The Hue setter: clamped, not wrapped. */
  function SetHue(c: ColorValue, x: real): (d: ColorValue)
    requires Valid(c)
    ensures Valid(d) && d.h == Clamp(x) && d.s == c.s && d.v == c.v && d.a == c.a
  {
    FromHsv(Clamp(x), c.s, c.v, c.a)
  }

  /** The Saturation setter. */
  function SetSaturation(c: ColorValue, x: real): (d: ColorValue)
    requires Valid(c)
    ensures Valid(d) && d.h == c.h && d.s == Clamp(x) && d.v == c.v && d.a == c.a
  {
    FromHsv(c.h, Clamp(x), c.v, c.a)
  }

  /** The Value setter. */
  function SetValue(c: ColorValue, x: real): (d: ColorValue)
    requires Valid(c)
    ensures Valid(d) && d.h == c.h && d.s == c.s && d.v == Clamp(x) && d.a == c.a
  {
    FromHsv(c.h, c.s, Clamp(x), c.a)
  }

  /** The Saturation and Value scaling Blend applies, each only when its factor is not 1. */
  function Scaled(c: ColorValue, saturation: real, value: real): (d: ColorValue)
    requires Valid(c) && 0.0 <= saturation <= 1.0 && 0.0 <= value <= 1.0
    ensures Valid(d) && d.a == c.a
    ensures saturation == 1.0 && value == 1.0 ==> d == c
  {
    var c1 := if saturation != 1.0 then SetSaturation(c, Mul(c.s, saturation)) else c;
    if value != 1.0 then SetValue(c1, Mul(c1.v, value)) else c1
  }

  /** x moved towards y by the fraction k. */
  function Towards(x: real, y: real, k: real): (z: real)
    requires 0.0 <= x <= 1.0 && 0.0 <= y <= 1.0 && 0.0 <= k <= 1.0
    ensures 0.0 <= z <= 1.0
  {
    MulUnit(y - x, k);
    x + Mul(y - x, k)
  }

  /** The RGB components of c moved towards those of sec by k, HSV recomputed, alpha kept. */
  function Mix(c: ColorValue, sec: ColorValue, k: real): (d: ColorValue)
    requires Valid(c) && Valid(sec) && 0.0 <= k <= 1.0
    ensures Valid(d) && d.a == c.a
  {
    FromRgb(Towards(c.r, sec.r, k), Towards(c.g, sec.g, k), Towards(c.b, sec.b, k), c.a)
  }

  /**
   * Blend(sec, alpha, saturation, value): nothing when alpha or sec's alpha is not
   * positive; otherwise sec, its saturation and value scaled, is laid over the colour with
   * opacity sec.alpha·alpha, and a fully opaque sec at alpha 1 replaces the colour outright.
   */
  function Blend(c: ColorValue, sec: ColorValue, alpha: real, saturation: real, value: real): (d: ColorValue)
    requires Valid(c) && Valid(sec)
    ensures Valid(d)
    ensures alpha <= 0.0 || sec.a <= 0.0 ==> d == c
    ensures alpha >= 1.0 && sec.a == 1.0 ==> d == Scaled(sec, Clamp(saturation), Clamp(value))
    ensures alpha >= 1.0 && sec.a == 1.0 && saturation >= 1.0 && value >= 1.0 ==> d == sec
    ensures !(alpha >= 1.0 && sec.a == 1.0) ==> d.a == c.a
  {
    if alpha <= 0.0 || sec.a <= 0.0 then c
    else
      var al, sat, val := Clamp(alpha), Clamp(saturation), Clamp(value);
      var sec2 := Scaled(sec, sat, val);
      if al != 1.0 then
        MulUnit(sec2.a, al);
        Mix(c, sec2, Mul(sec2.a, al))
      else if sec2.a != 1.0 then Mix(c, sec2, sec2.a)
      else sec2
  }

  /**
   * Blend(alpha, saturation, value): saturation, value and alpha multiplied by the clamped
   * factors, each only when its factor is not 1.
   */
  function BlendSelf(c: ColorValue, alpha: real, saturation: real, value: real): (d: ColorValue)
    requires Valid(c)
    ensures Valid(d)
    ensures d.a == Mul(c.a, Clamp(alpha))
    ensures alpha >= 1.0 && saturation >= 1.0 && value >= 1.0 ==> d == c
  {
    var al := Clamp(alpha);
    var c1 := Scaled(c, Clamp(saturation), Clamp(value));
    MulUnit(c1.a, al);
    if al != 1.0 then SetAlpha(c1, Mul(c1.a, al)) else c1
  }
}
