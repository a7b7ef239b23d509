/**
  The map view's small helpers: switching a glow uniform on the scene
  objects that have it, showing or hiding objects, releasing their
  geometries, picking a colour band
  for a data value, and the short display text of a value (whole ten
  thousands written with "万").
*/
module MapUtils {
  import opened Features

  // ---------------------------------------------------------------------
  // Scene objects
  // ---------------------------------------------------------------------

  class Uniform {
    var value: real
  }

  /** A shader material; a material without a `uniforms` object behaves as one with none. */
  class Material {
    var uniforms: map<string, Uniform>
  }

  /** A geometry buffer; `disposed` records that its GPU resources were released. */
  class GeometryBuffer {
    var disposed: bool
  }

  /** A scene object: its visibility flag, its material and its geometry, either of which may be absent. */
  class SceneObject {
    var visible: bool
    var material: Material?
    var geometry: GeometryBuffer?
  }

  /** The uniforms `updateGlowEffect` writes: the one named `uniformName` of each item's material, where there is one. */
  function GlowTargets(items: seq<SceneObject>, uniformName: string): set<Uniform>
    reads set i | 0 <= i < |items| :: items[i]
    reads set i | 0 <= i < |items| && items[i].material != null :: items[i].material
  {
    set i | 0 <= i < |items| && items[i].material != null && uniformName in items[i].material.uniforms
      :: items[i].material.uniforms[uniformName]
  }

  /**
    `updateGlowEffect`: the named uniform of every item whose material has
    it is set to 1 when enabled and 0 otherwise; nothing else changes.
  */
  method UpdateGlowEffect(items: seq<SceneObject>, uniformName: string, isEnabled: bool)
    modifies GlowTargets(items, uniformName)
    ensures forall u :: u in old(GlowTargets(items, uniformName)) ==> u.value == if isEnabled then 1.0 else 0.0
  {
    var glowValue := if isEnabled then 1.0 else 0.0;
    ghost var targets := GlowTargets(items, uniformName);
    var k := 0;
    while k < |items|
      invariant 0 <= k <= |items|
      invariant forall i :: 0 <= i < |items| ==> items[i].material == old(items[i].material)
      invariant forall i :: 0 <= i < |items| && items[i].material != null ==>
        items[i].material.uniforms == old(items[i].material.uniforms)
      invariant forall i :: 0 <= i < k && items[i].material != null && uniformName in items[i].material.uniforms ==>
        items[i].material.uniforms[uniformName].value == glowValue
    {
      var item := items[k];
      if item.material != null && uniformName in item.material.uniforms {
        item.material.uniforms[uniformName].value := glowValue;
      }
      k := k + 1;
    }
  }

  /** `toggleVisibility`: every item's `visible` becomes `isVisible`; materials and geometries stay as they were. */
  method ToggleVisibility(items: seq<SceneObject>, isVisible: bool)
    modifies set i | 0 <= i < |items| :: items[i]
    ensures forall i :: 0 <= i < |items| ==> items[i].visible == isVisible
    ensures forall i :: 0 <= i < |items| ==> items[i].material == old(items[i].material)
    ensures forall i :: 0 <= i < |items| ==> items[i].geometry == old(items[i].geometry)
  {
    var k := 0;
    while k < |items|
      invariant 0 <= k <= |items|
      invariant forall i :: 0 <= i < k ==> items[i].visible == isVisible
      invariant forall i :: 0 <= i < |items| ==> items[i].material == old(items[i].material)
      invariant forall i :: 0 <= i < |items| ==> items[i].geometry == old(items[i].geometry)
    {
      items[k].visible := isVisible;
      k := k + 1;
    }
  }

  /** The geometries of the items that have one. */
  function Geometries(items: seq<SceneObject>): set<GeometryBuffer>
    reads set i | 0 <= i < |items| :: items[i]
  {
    set i | 0 <= i < |items| && items[i].geometry != null :: items[i].geometry
  }

  /** `disposeGeometries`: every item's geometry, where it has one, is disposed; nothing else changes. */
  method DisposeGeometries(items: seq<SceneObject>)
    modifies Geometries(items)
    ensures forall g :: g in old(Geometries(items)) ==> g.disposed
  {
    var k := 0;
    while k < |items|
      invariant 0 <= k <= |items|
      invariant forall i :: 0 <= i < |items| ==> items[i].geometry == old(items[i].geometry)
      invariant forall i :: 0 <= i < k && items[i].geometry != null ==> items[i].geometry.disposed
    {
      if items[k].geometry != null {
        items[k].geometry.disposed := true;
      }
      k := k + 1;
    }
  }

  // ---------------------------------------------------------------------
  // Colour bands
  // ---------------------------------------------------------------------

  /** A band limit: a number or one of the two infinities. */
  datatype Bound = Finite(n: int) | PositiveInfinity | NegativeInfinity

  /** `value >= bound` */
  predicate AtLeast(value: int, bound: Bound)
  {
    match bound
    case Finite(n) => value >= n
    case PositiveInfinity => false
    case NegativeInfinity => true
  }

  /** `value < bound` */
  predicate Below(value: int, bound: Bound)
  {
    match bound
    case Finite(n) => value < n
    case PositiveInfinity => true
    case NegativeInfinity => false
  }

  datatype ColorRange = ColorRange(min: Bound, max: Bound, color: int)

  predicate InRange(value: int, range: ColorRange)
  {
    AtLeast(value, range.min) && Below(value, range.max)
  }

  /** The position of the first band holding `value`, if any. */
  function FirstBand(value: int, ranges: seq<ColorRange>): (r: Option<nat>)
    ensures r.None? <==> forall i :: 0 <= i < |ranges| ==> !InRange(value, ranges[i])
    ensures r.Some? ==> r.value < |ranges| && InRange(value, ranges[r.value])
    ensures r.Some? ==> forall j :: 0 <= j < r.value ==> !InRange(value, ranges[j])
  {
    if ranges == [] then None
    else if InRange(value, ranges[0]) then Some(0)
    else match FirstBand(value, ranges[1..])
      case None => None
      case Some(i) => Some(i + 1)
  }

  /** The colour for `value`: that of the first band holding it, else that of the last band. */
  function ColorFor(value: int, ranges: seq<ColorRange>): int
    requires |ranges| > 0
  {
    match FirstBand(value, ranges)
    case Some(i) => ranges[i].color
    case None => ranges[|ranges| - 1].color
  }

  /** `getColorByValue`; an empty list makes the script throw, so one is required. */
  method GetColorByValue(value: int, colorRanges: seq<ColorRange>) returns (color: int)
    requires |colorRanges| > 0
    ensures color == ColorFor(value, colorRanges)
  {
    var i := 0;
    while i < |colorRanges|
      invariant 0 <= i <= |colorRanges|
      invariant forall j :: 0 <= j < i ==> !InRange(value, colorRanges[j])
    {
      var range := colorRanges[i];
      if AtLeast(value, range.min) && Below(value, range.max) {
        FirstBandIs(value, colorRanges, i);
        return range.color;
      }
      i := i + 1;
    }
    return colorRanges[|colorRanges| - 1].color;
  }

  /** A band that holds the value and follows only bands that do not is the first band. */
  lemma FirstBandIs(value: int, ranges: seq<ColorRange>, i: nat)
    requires i < |ranges| && InRange(value, ranges[i])
    requires forall j :: 0 <= j < i ==> !InRange(value, ranges[j])
    ensures FirstBand(value, ranges) == Some(i)
  {
    var r := FirstBand(value, ranges);
    assert r.Some?;
    assert !(r.value < i) && !(i < r.value);
  }

  /** The pillar colour bands: 0–2000, 2000–4000, 4000–6000, 6000–8000, 8000 and above. */
  const PillarColorRanges: seq<ColorRange> := [
    ColorRange(Finite(0), Finite(2000), 0x80d8ff),
    ColorRange(Finite(2000), Finite(4000), 0x40c4ff),
    ColorRange(Finite(4000), Finite(6000), 0x00b0ff),
    ColorRange(Finite(6000), Finite(8000), 0x0091ea),
    ColorRange(Finite(8000), PositiveInfinity, 0x0277bd)]

  /**
    With the pillar bands, a value in [0, 8000) gets band `value / 2000`,
    a value of 8000 or more the last band, and a negative value, which no
    band holds, falls back to the last band's colour too.
  */
  lemma PillarBands(value: int)
    ensures 0 <= value < 8000 ==> ColorFor(value, PillarColorRanges) == PillarColorRanges[value / 2000].color
    ensures value >= 8000 ==> ColorFor(value, PillarColorRanges) == 0x0277bd
    ensures value < 0 ==> FirstBand(value, PillarColorRanges).None? && ColorFor(value, PillarColorRanges) == 0x0277bd
  {
    if 0 <= value < 8000 {
      FirstBandIs(value, PillarColorRanges, value / 2000);
    } else if value >= 8000 {
      FirstBandIs(value, PillarColorRanges, 4);
    }
  }

  // ---------------------------------------------------------------------
  // Display text
  // ---------------------------------------------------------------------

  function DigitChar(d: nat): char
    requires d < 10
  {
    "0123456789"[d]
  }

  predicate IsDigit(c: char)
  {
    '0' <= c <= '9'
  }

  function DigitValue(c: char): nat
    requires IsDigit(c)
  {
    (c as int - '0' as int) as nat
  }

  /** The decimal digits of `n`, without leading zeros. */
  function NatToString(n: nat): (s: string)
    ensures |s| > 0 && forall i :: 0 <= i < |s| ==> IsDigit(s[i])
    ensures |s| > 1 ==> s[0] != '0'
  {
    if n < 10 then [DigitChar(n)] else NatToString(n / 10) + [DigitChar(n % 10)]
  }

  /** `toString` of an integer. */
  function IntToString(v: int): string
  {
    if v < 0 then "-" + NatToString(-v) else NatToString(v)
  }

  /** The number a string of decimal digits denotes. */
  function ParseNat(s: string): nat
    requires forall i :: 0 <= i < |s| ==> IsDigit(s[i])
  {
    if s == [] then 0 else ParseNat(s[..|s| - 1]) * 10 + DigitValue(s[|s| - 1])
  }

  /** Reading back the digits of `n` gives `n`. */
  lemma {:induction false} ParseNatToString(n: nat)
    ensures ParseNat(NatToString(n)) == n
  {
    var s := NatToString(n);
    if n >= 10 {
      ParseNatToString(n / 10);
      assert s[..|s| - 1] == NatToString(n / 10);
    }
    assert DigitValue(DigitChar(n % 10)) == n % 10;
  }

  /**
    `formatDataValue` on an integer: its decimal text below 10000, and
    otherwise the number of ten thousands rounded half up (as `toFixed(0)`
    rounds a positive quotient) followed by "万".
  */
  function FormatDataValue(value: int): string
  {
    if value >= 10000 then NatToString((value + 5000) / 10000) + "万"
    else IntToString(value)
  }

  /**
    What the display text says: below 10000 it is the value itself, with
    a minus sign when negative; from 10000 on it ends in "万" and the
    digits before it give the number of ten thousands nearest to the
    value, halves rounded up. The digits never have a leading zero.
  */
  lemma FormatDataValueMeaning(value: int)
    ensures var s := FormatDataValue(value);
      && (0 <= value < 10000 ==>
            (forall i :: 0 <= i < |s| ==> IsDigit(s[i])) && (|s| > 1 ==> s[0] != '0') && ParseNat(s) == value)
      && (value < 0 ==>
            |s| > 1 && s[0] == '-' && (forall i :: 1 <= i < |s| ==> IsDigit(s[i])) && (|s| > 2 ==> s[1] != '0') &&
            ParseNat(s[1..]) == -value)
      && (value >= 10000 ==>
            |s| > 1 && s[|s| - 1] == '万' &&
            (forall i :: 0 <= i < |s| - 1 ==> IsDigit(s[i])) && (|s| > 2 ==> s[0] != '0') &&
            var n := ParseNat(s[..|s| - 1]);
            n >= 1 && n * 10000 - 5000 <= value < n * 10000 + 5000)
  {
    var s := FormatDataValue(value);
    if value >= 10000 {
      var n := (value + 5000) / 10000;
      ParseNatToString(n);
      assert s[..|s| - 1] == NatToString(n);
    } else if value >= 0 {
      ParseNatToString(value);
    } else {
      ParseNatToString(-value);
      assert s[1..] == NatToString(-value);
    }
  }
}
