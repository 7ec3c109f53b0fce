// The marker colour of planeObject.js (getMarkerColor): an emergency
// squawk override, or an HSL colour chosen by altitude, shifted by the
// stale/selected/MLAT adjustments, wrapped, clamped and quantised to
// multiples of 5. The configured tables are parameters.

module ColorModel {
  import opened Basics

  /** A base colour or an additive adjustment. */
  datatype Hsl = Hsl(h: real, s: real, l: real)

  /** One control point of the altitude-to-hue table. */
  datatype HuePoint = HuePoint(alt: int, val: real)

  /** The ColorByAlt configuration. */
  datatype ColorByAlt = ColorByAlt(
    unknown: Hsl,
    ground: Hsl,
    airS: real,
    airL: real,
    airHues: seq<HuePoint>,
    stale: Hsl,
    selected: Hsl,
    mlat: Hsl)

  /** The colour handed to the icon: a fixed override colour, or the
      quantised components of hsl(h, s%, l%). */
  datatype Color = Override(css: string) | HslColor(h: int, s: int, l: int)

  function MinHue(pts: seq<HuePoint>): real
    requires |pts| > 0
  {
    if |pts| == 1 then pts[0].val
    else var m := MinHue(pts[1..]); if pts[0].val < m then pts[0].val else m
  }

  function MaxHue(pts: seq<HuePoint>): real
    requires |pts| > 0
  {
    if |pts| == 1 then pts[0].val
    else var m := MaxHue(pts[1..]); if pts[0].val > m then pts[0].val else m
  }

  lemma {:induction false} HueWithinTable(pts: seq<HuePoint>, k: nat)
    requires k < |pts|
    ensures MinHue(pts) <= pts[k].val <= MaxHue(pts)
  {
    if k > 0 {
      HueWithinTable(pts[1..], k - 1);
    }
  }

  lemma PositiveProduct(a: real, c: real)
    requires a > 0.0 && c > 0.0
    ensures a * c > 0.0
  {
  }

  /** d scaled by a fraction num/den in (0, 1] stays between 0 and d. */
  lemma ScaledFraction(d: real, num: real, den: real)
    requires 0.0 < num <= den
    ensures d >= 0.0 ==> 0.0 <= d * num / den <= d
    ensures d <= 0.0 ==> d <= d * num / den <= 0.0
  {
    var x := d * num / den;
    assert x * den == d * num;
    assert (x - d) * den == d * (num - den);
    if d > 0.0 && x > d {
      PositiveProduct(x - d, den);
      PositiveProduct(d, den - num);
    }
    if d >= 0.0 && x < 0.0 {
      PositiveProduct(-x, den);
    }
    if d < 0.0 && x < d {
      PositiveProduct(d - x, den);
      PositiveProduct(-d, den - num);
    }
    if d <= 0.0 && x > 0.0 {
      PositiveProduct(x, den);
    }
  }

  /** The hue between two control points, linear in the altitude. */
  function Lerp(p: HuePoint, q: HuePoint, alt: int): (h: real)
    requires p.alt < alt <= q.alt
    ensures (p.val <= h <= q.val) || (q.val <= h <= p.val)
  {
    ScaledFraction(q.val - p.val, (alt - p.alt) as real, (q.alt - p.alt) as real);
    p.val + (q.val - p.val) * (alt - p.alt) as real / (q.alt - p.alt) as real
  }

  /** The downward scan over the control points from index i: the first
      point below the altitude decides; none below gives the lowest hue.
      Every point above index i was already found not below the altitude. */
  function HueScan(pts: seq<HuePoint>, alt: int, i: int): (h: real)
    requires 0 < |pts| && -1 <= i < |pts|
    requires forall j :: i < j < |pts| ==> alt <= pts[j].alt
    ensures MinHue(pts) <= h <= MaxHue(pts)
    decreases i + 1
  {
    if i < 0 then
      HueWithinTable(pts, 0);
      pts[0].val
    else if alt > pts[i].alt then
      if i == |pts| - 1 then
        HueWithinTable(pts, i);
        pts[i].val
      else
        HueWithinTable(pts, i);
        HueWithinTable(pts, i + 1);
        Lerp(pts[i], pts[i + 1], alt)
    else
      HueScan(pts, alt, i - 1)
  }

  /** The airborne hue for an altitude in feet. */
  function AirHue(pts: seq<HuePoint>, alt: int): (h: real)
    requires |pts| > 0
    ensures MinHue(pts) <= h <= MaxHue(pts)
  {
    HueScan(pts, alt, |pts| - 1)
  }

  /** Control points ordered by strictly ascending altitude. */
  predicate Ascending(pts: seq<HuePoint>) {
    forall i, j :: 0 <= i < j < |pts| ==> pts[i].alt < pts[j].alt
  }

  /** Above the top control point the hue is the top point's. */
  lemma AirHueAboveTop(pts: seq<HuePoint>, alt: int)
    requires |pts| > 0 && alt > pts[|pts| - 1].alt
    ensures AirHue(pts, alt) == pts[|pts| - 1].val
  {
  }

  lemma {:induction false} ScanBelowAll(pts: seq<HuePoint>, alt: int, i: int)
    requires 0 < |pts| && -1 <= i < |pts|
    requires forall j :: 0 <= j < |pts| ==> alt <= pts[j].alt
    ensures HueScan(pts, alt, i) == pts[0].val
    decreases i + 1
  {
    if i >= 0 {
      ScanBelowAll(pts, alt, i - 1);
    }
  }

  /** At or below the lowest control point the hue is the lowest point's:
      the table clamps, it does not extrapolate. */
  lemma AirHueAtOrBelowBottom(pts: seq<HuePoint>, alt: int)
    requires |pts| > 0 && Ascending(pts) && alt <= pts[0].alt
    ensures AirHue(pts, alt) == pts[0].val
  {
    ScanBelowAll(pts, alt, |pts| - 1);
  }

  lemma {:induction false} ScanDescends(pts: seq<HuePoint>, alt: int, i: int, k: nat)
    requires k <= i < |pts|
    requires forall j :: k < j < |pts| ==> alt <= pts[j].alt
    ensures HueScan(pts, alt, i) == HueScan(pts, alt, k)
    decreases i
  {
    if i > k {
      ScanDescends(pts, alt, i - 1, k);
    }
  }

  /** Between two neighbouring control points the hue is interpolated
      linearly between their hues. */
  lemma AirHueInterpolates(pts: seq<HuePoint>, alt: int, k: nat)
    requires Ascending(pts) && k + 1 < |pts|
    requires pts[k].alt < alt <= pts[k + 1].alt
    ensures AirHue(pts, alt) == Lerp(pts[k], pts[k + 1], alt)
  {
    ScanDescends(pts, alt, |pts| - 1, k);
  }

  /** Base colour by altitude category. */
  function Base(alt: Altitude, cfg: ColorByAlt): Hsl
    requires alt.Feet? ==> cfg.airHues != []
  {
    match alt
    case Unknown => cfg.unknown
    case Ground => cfg.ground
    case Feet(ft) => Hsl(AirHue(cfg.airHues, ft), cfg.airS, cfg.airL)
  }

  function Add(c: Hsl, d: Hsl): Hsl {
    Hsl(c.h + d.h, c.s + d.s, c.l + d.l)
  }

  /** The stale, selected and MLAT adjustments, each added when it applies.
      A null seen_pos compares as 0, so it is never stale. */
  function Adjust(base: Hsl, seenPos: Option<real>, selected: bool, mlat: bool, cfg: ColorByAlt): Hsl {
    var a := if OrZero(seenPos) > 15.0 then Add(base, cfg.stale) else base;
    var b := if selected then Add(a, cfg.selected) else a;
    if mlat then Add(b, cfg.mlat) else b
  }

  /** Truncation toward zero, as JavaScript's % uses. */
  function Trunc(x: real): int {
    if x >= 0.0 then x.Floor else -((-x).Floor)
  }

  /** JavaScript's h % 360 on a number. */
  function Rem360(h: real): real {
    h - 360.0 * Trunc(h / 360.0) as real
  }

  /** A real that is a whole number. */
  predicate Whole(x: real) {
    x == x.Floor as real
  }

  lemma WrapFromBelow(h: real)
    requires h < 0.0
    ensures 0.0 < Rem360(h) + 360.0 <= 360.0
    ensures Whole((Rem360(h) + 360.0 - h) / 360.0)
  {
    var q := -h / 360.0;
    var k := q.Floor;
    assert h / 360.0 == -q && h == -360.0 * q;
    assert Trunc(h / 360.0) == -k;
    var r := Rem360(h);
    assert r == 360.0 * (k as real - q);
    assert (r + 360.0 - h) / 360.0 == (k + 1) as real;
    assert ((k + 1) as real).Floor == k + 1;
  }

  lemma WrapFromAbove(h: real)
    requires h >= 360.0
    ensures 0.0 <= Rem360(h) < 360.0
    ensures Whole((Rem360(h) - h) / 360.0)
  {
    var q := h / 360.0;
    var m := q.Floor;
    assert h == 360.0 * q && q >= 0.0;
    assert Trunc(h / 360.0) == m;
    var r := Rem360(h);
    assert r == 360.0 * (q - m as real);
    assert (r - h) / 360.0 == (-m) as real;
    assert ((-m) as real).Floor == -m;
  }

  /** The hue wrap: into (0, 360] from below, into [0, 360) from above. The
      result is the same angle, and a hue already in [0, 360) is kept. */
  function WrapHue(h: real): (r: real)
    ensures 0.0 <= r <= 360.0
    ensures 0.0 <= h < 360.0 ==> r == h
    ensures h < 0.0 ==> 0.0 < r
    ensures h >= 360.0 ==> r < 360.0
    ensures Whole((r - h) / 360.0)
  {
    if h < 0.0 then
      WrapFromBelow(h);
      Rem360(h) + 360.0
    else if h >= 360.0 then
      WrapFromAbove(h);
      Rem360(h)
    else
      assert (h - h) / 360.0 == 0.0;
      h
  }

  function Clamp(v: real): (r: real)
    ensures 5.0 <= r <= 95.0
    ensures 5.0 <= v <= 95.0 ==> r == v
    ensures v < 5.0 ==> r == 5.0
    ensures v > 95.0 ==> r == 95.0
  {
    if v < 5.0 then 5.0 else if v > 95.0 then 95.0 else v
  }

  /** Number.prototype.toFixed(0): the nearest integer, halves away from 0. */
  function ToFixed0(x: real): (n: int)
    ensures x >= 0.0 ==> -0.5 < n as real - x <= 0.5
    ensures x < 0.0 ==> -0.5 <= n as real - x < 0.5
  {
    if x < 0.0 then -((-x + 0.5).Floor) else (x + 0.5).Floor
  }

  /** (v/5).toFixed(0)*5: the nearest multiple of 5. */
  function Quantize(v: real): (q: int)
    ensures q % 5 == 0
    ensures v >= 0.0 ==> -2.5 < q as real - v <= 2.5
    ensures v < 0.0 ==> -2.5 <= q as real - v < 2.5
  {
    ToFixed0(v / 5.0) * 5
  }

  /** The marker colour. The override table is keyed by the squawk as a
      property name, so a null squawk looks up the key "null". */
  function MarkerColor(squawk: Option<string>, alt: Altitude, seenPos: Option<real>, selected: bool, mlat: bool,
                       special: map<string, string>, cfg: ColorByAlt): (c: Color)
    requires alt.Feet? ==> cfg.airHues != []
    ensures var key := if squawk.Some? then squawk.value else "null";
      key in special ==> c == Override(special[key])
    ensures var key := if squawk.Some? then squawk.value else "null";
      key !in special ==>
        && c.HslColor?
        && 0 <= c.h <= 360 && c.h % 5 == 0
        && 5 <= c.s <= 95 && c.s % 5 == 0
        && 5 <= c.l <= 95 && c.l % 5 == 0
  {
    var key := if squawk.Some? then squawk.value else "null";
    if key in special then
      Override(special[key])
    else
      var raw := Adjust(Base(alt, cfg), seenPos, selected, mlat, cfg);
      HslColor(Quantize(WrapHue(raw.h)), Quantize(Clamp(raw.s)), Quantize(Clamp(raw.l)))
  }

  /** The override wins whatever the altitude, age, selection or source. */
  lemma OverrideIgnoresState(squawk: string, special: map<string, string>, cfg: ColorByAlt,
                             alt1: Altitude, seen1: Option<real>, sel1: bool, mlat1: bool,
                             alt2: Altitude, seen2: Option<real>, sel2: bool, mlat2: bool)
    requires squawk in special
    requires alt1.Feet? ==> cfg.airHues != []
    requires alt2.Feet? ==> cfg.airHues != []
    ensures MarkerColor(Some(squawk), alt1, seen1, sel1, mlat1, special, cfg)
         == MarkerColor(Some(squawk), alt2, seen2, sel2, mlat2, special, cfg)
  {
  }

  /** Selecting the plane adds the selected adjustment to the raw colour
      and to nothing else. */
  lemma SelectionIsAdditive(base: Hsl, seenPos: Option<real>, mlat: bool, cfg: ColorByAlt)
    ensures var off := Adjust(base, seenPos, false, mlat, cfg);
      var on := Adjust(base, seenPos, true, mlat, cfg);
      on.h == off.h + cfg.selected.h && on.s == off.s + cfg.selected.s && on.l == off.l + cfg.selected.l
  {
  }

  /** The quantised hue can be 360 rather than 0: hsl(360, ...). */
  lemma HueCanQuantizeTo360()
    ensures MarkerColor(None, Feet(1000), None, false, false, map[],
              ColorByAlt(Hsl(0.0, 0.0, 50.0), Hsl(0.0, 0.0, 50.0), 85.0, 50.0, [HuePoint(0, 358.0)],
                         Hsl(0.0, 0.0, 0.0), Hsl(0.0, 0.0, 0.0), Hsl(0.0, 0.0, 0.0))) == HslColor(360, 85, 50)
  {
    assert AirHue([HuePoint(0, 358.0)], 1000) == 358.0;
    assert ToFixed0(358.0 / 5.0) == 72;
  }

  /** A negative whole number of turns wraps to 360, not to 0. */
  lemma NegativeTurnWrapsTo360()
    ensures WrapHue(-360.0) == 360.0
  {
    assert Trunc(-1.0) == -1;
  }
}
