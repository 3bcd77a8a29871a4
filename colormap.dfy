/** The colour look-up table of the GUI (gui/src/utilities/color-map.ts): a
    piecewise-linear palette of control colours is sampled into a table of
    intervals + 1 colours, values are mapped into the table through a
    clamped, rounded position, and a legend strip is painted into a byte
    buffer. Colours are real RGB triples. */
module ColorMap {
  import opened Wrappers

  datatype Color = Color(r: real, g: real, b: real)

  /** Control points of a palette: (position, colour). */
  type Palette = seq<(real, Color)>

  /** A value of a clamped 8-bit pixel buffer. */
  newtype byte = x: int | 0 <= x < 256

  /** The colour of a 24-bit hex code, one byte per channel scaled into [0, 1]. */
  function Hex(h: nat): Color {
    Color(((h / 0x10000) % 256) as real / 255.0, ((h / 0x100) % 256) as real / 255.0, (h % 256) as real / 255.0)
  }

  const CoolToWarm: Palette := [
    (0.0, Hex(0x3c4ec2)),
    (0.2, Hex(0x9bbcff)),
    (0.5, Hex(0xf0f0f0)),
    (0.8, Hex(0xf6a385)),
    (1.0, Hex(0xb40426))]

  /** The named palettes. */
  const ColorMaps: map<string, Palette> := map["cool-to-warm" := CoolToWarm]

  /** Positions rise strictly from 0 to 1. */
  predicate ValidPalette(p: Palette) {
    && |p| >= 2 && p[0].0 == 0.0 && p[|p| - 1].0 == 1.0
    && forall j :: 0 <= j < |p| - 1 ==> p[j].0 < p[j + 1].0
  }

  lemma {:induction false} Increasing(p: Palette, j: nat, k: nat)
    requires ValidPalette(p) && j < k < |p|
    ensures p[j].0 < p[k].0
    decreases k - j
  {
    if j + 1 < k {
      Increasing(p, j + 1, k);
    }
  }

  predicate InUnitRange(c: Color) {
    0.0 <= c.r <= 1.0 && 0.0 <= c.g <= 1.0 && 0.0 <= c.b <= 1.0
  }

  lemma HexInUnitRange(h: nat)
    ensures InUnitRange(Hex(h))
  {
  }

  /** Every named palette is valid and its control colours are in [0, 1]. */
  lemma ColorMapsValid(name: string)
    requires name in ColorMaps
    ensures ValidPalette(ColorMaps[name])
    ensures forall j :: 0 <= j < |ColorMaps[name]| ==> InUnitRange(ColorMaps[name][j].1)
  {
    assert name == "cool-to-warm";
    var p := CoolToWarm;
    forall j | 0 <= j < |p| ensures InUnitRange(p[j].1) {
      HexInUnitRange(0x3c4ec2);
      HexInUnitRange(0x9bbcff);
      HexInUnitRange(0xf0f0f0);
      HexInUnitRange(0xf6a385);
      HexInUnitRange(0xb40426);
    }
  }

  /** Linear interpolation from a (at t = 0) to b (at t = 1), channel by channel. */
  function Lerp(a: Color, b: Color, t: real): (c: Color)
    ensures t == 0.0 ==> c == a
    ensures t == 1.0 ==> c == b
  {
    Color(a.r + (b.r - a.r) * t, a.g + (b.g - a.g) * t, a.b + (b.b - a.b) * t)
  }

  lemma LerpChannelInRange(x: real, y: real, t: real)
    requires 0.0 <= x <= 1.0 && 0.0 <= y <= 1.0 && 0.0 <= t <= 1.0
    ensures 0.0 <= x + (y - x) * t <= 1.0
  {
    assert x + (y - x) * t == (1.0 - t) * x + t * y;
    MulNonNeg(1.0 - t, x);
    MulNonNeg(1.0 - t, 1.0 - x);
    MulNonNeg(t, y);
    MulNonNeg(t, 1.0 - y);
  }

  lemma MulNonNeg(a: real, b: real)
    requires a >= 0.0 && b >= 0.0
    ensures a * b >= 0.0
  {
  }

  lemma DivSelf(d: real)
    requires d != 0.0
    ensures d / d == 1.0
  {
  }

  /** Interpolating between two colours of the unit cube stays in it. */
  lemma LerpInUnitRange(a: Color, b: Color, t: real)
    requires InUnitRange(a) && InUnitRange(b) && 0.0 <= t <= 1.0
    ensures InUnitRange(Lerp(a, b, t))
  {
    LerpChannelInRange(a.r, b.r, t);
    LerpChannelInRange(a.g, b.g, t);
    LerpChannelInRange(a.b, b.b, t);
  }

  /** The colour at alpha on the segment from control point j to j + 1. */
  function SegmentLerp(p: Palette, j: nat, alpha: real): Color
    requires j + 1 < |p| && p[j].0 < p[j + 1].0
  {
    Lerp(p[j].1, p[j + 1].1, (alpha - p[j].0) / (p[j + 1].0 - p[j].0))
  }

  lemma SegmentLerpInUnitRange(p: Palette, j: nat, alpha: real)
    requires j + 1 < |p| && p[j].0 <= alpha <= p[j + 1].0 && p[j].0 < p[j + 1].0
    requires InUnitRange(p[j].1) && InUnitRange(p[j + 1].1)
    ensures InUnitRange(SegmentLerp(p, j, alpha))
  {
    var t := (alpha - p[j].0) / (p[j + 1].0 - p[j].0);
    assert 0.0 <= t <= 1.0 by { FractionInUnit(alpha - p[j].0, p[j + 1].0 - p[j].0); }
    LerpInUnitRange(p[j].1, p[j + 1].1, t);
  }

  /** The normalised clamped value lies in [0, 1], and is 0 at or below the
      range and 1 at or above it. */
  lemma ClampedFraction(value: real, min: real, max: real)
    requires min < max
    ensures var alpha := (ColorMap.Clamp(value, min, max) - min) / (max - min);
      && 0.0 <= alpha <= 1.0
      && (value <= min ==> alpha == 0.0)
      && (value >= max ==> alpha == 1.0)
  {
    var clamped := ColorMap.Clamp(value, min, max);
    FractionInUnit(clamped - min, max - min);
    if value >= max {
      assert clamped == max;
      DivSelf(max - min);
    }
    if value <= min {
      assert clamped == min;
    }
  }

  lemma FractionInUnit(x: real, y: real)
    requires 0.0 <= x <= y && y > 0.0
    ensures 0.0 <= x / y <= 1.0
  {
    assert x / y * y == x;
  }

  // ---------------------------------------------------------------------------
  // The look-up table

  /** The table-building loops of buildLookUp from entry i and palette segment
      j on, with acc the entries pushed so far: alpha = i * (1 / intervals) is
      coloured by every segment (p[j], p[j + 1]] containing it, and the last
      control colour closes the table. */
  function BuildFrom(p: Palette, intervals: int, acc: seq<Color>, i: int, j: nat): seq<Color>
    requires |p| >= 1 && i >= 1
    decreases intervals - i, |p| - j
  {
    if i >= intervals then acc + [p[|p| - 1].1]
    else if j >= |p| - 1 then BuildFrom(p, intervals, acc, i + 1, 0)
    else
      var alpha := i as real / intervals as real;
      if alpha <= p[j].0 || alpha > p[j + 1].0 then BuildFrom(p, intervals, acc, i, j + 1)
      else BuildFrom(p, intervals, acc + [SegmentLerp(p, j, alpha)], i, j + 1)
  }

  /** The table buildLookUp stores: it starts with the first control colour. */
  function LookUpTable(p: Palette, intervals: int): seq<Color>
    requires |p| >= 1
  {
    BuildFrom(p, intervals, [p[0].1], 1, 0)
  }

  /** For alpha in (0, 1] on a valid palette, the segment (p[j], p[j + 1]]
      holding it, searched from j on. */
  function SegmentFrom(p: Palette, alpha: real, j: nat): (s: nat)
    requires ValidPalette(p) && j + 1 < |p| && p[j].0 < alpha <= 1.0
    ensures j <= s && s + 1 < |p| && p[s].0 < alpha <= p[s + 1].0
    decreases |p| - j
  {
    if alpha <= p[j + 1].0 then j else SegmentFrom(p, alpha, j + 1)
  }

  function Segment(p: Palette, alpha: real): (s: nat)
    requires ValidPalette(p) && 0.0 < alpha <= 1.0
    ensures s + 1 < |p| && p[s].0 < alpha <= p[s + 1].0
  {
    SegmentFrom(p, alpha, 0)
  }

  /** No other segment holds alpha. */
  lemma SegmentUnique(p: Palette, alpha: real, j: nat)
    requires ValidPalette(p) && 0.0 < alpha <= 1.0
    requires j + 1 < |p| && p[j].0 < alpha <= p[j + 1].0
    ensures j == Segment(p, alpha)
  {
    var s := Segment(p, alpha);
    if j + 1 < s {
      Increasing(p, j + 1, s);
    } else if s + 1 < j {
      Increasing(p, s + 1, j);
    }
  }

  lemma AlphaInUnit(i: int, n: int)
    requires 0 < i < n
    ensures 0.0 < i as real / n as real < 1.0
  {
    assert i as real / n as real * n as real == i as real;
  }

  /** Interior entry i of the table of a valid palette. */
  function TableEntry(p: Palette, intervals: int, i: int): Color
    requires ValidPalette(p) && 0 < i < intervals
  {
    AlphaInUnit(i, intervals);
    var alpha := i as real / intervals as real;
    SegmentLerp(p, Segment(p, alpha), alpha)
  }

  /** The interior entries from i on. */
  function TableEntries(p: Palette, intervals: int, i: int): (r: seq<Color>)
    requires ValidPalette(p) && 0 < i
    ensures |r| == if i < intervals then intervals - i else 0
    ensures forall k :: 0 <= k < |r| ==> r[k] == TableEntry(p, intervals, i + k)
    decreases intervals - i
  {
    if i >= intervals then [] else [TableEntry(p, intervals, i)] + TableEntries(p, intervals, i + 1)
  }

  /** Segments after the one holding alpha add nothing. */
  lemma {:induction false} RowRest(p: Palette, intervals: int, acc: seq<Color>, i: int, j: nat)
    requires ValidPalette(p) && 0 < i < intervals
    requires Segment(p, i as real / intervals as real) < j
    ensures BuildFrom(p, intervals, acc, i, j) == BuildFrom(p, intervals, acc, i + 1, 0)
    decreases |p| - j
  {
    var alpha := i as real / intervals as real;
    var s := Segment(p, alpha);
    if j < |p| - 1 {
      assert alpha <= p[j].0 by { if s + 1 < j { Increasing(p, s + 1, j); } }
      RowRest(p, intervals, acc, i, j + 1);
    }
  }

  /** One pass of the inner loop pushes exactly the entry of the segment
      holding alpha. */
  lemma {:induction false} Row(p: Palette, intervals: int, acc: seq<Color>, i: int, j: nat)
    requires ValidPalette(p) && 0 < i < intervals
    requires j <= Segment(p, i as real / intervals as real)
    ensures BuildFrom(p, intervals, acc, i, j)
      == BuildFrom(p, intervals, acc + [TableEntry(p, intervals, i)], i + 1, 0)
    decreases |p| - j
  {
    var alpha := i as real / intervals as real;
    AlphaInUnit(i, intervals);
    var s := Segment(p, alpha);
    if j < s {
      assert alpha > p[j + 1].0 by { if j + 1 < s { Increasing(p, j + 1, s); } }
      Row(p, intervals, acc, i, j + 1);
    } else {
      RowRest(p, intervals, acc + [TableEntry(p, intervals, i)], i, j + 1);
    }
  }

  lemma {:induction false} BuildAll(p: Palette, intervals: int, acc: seq<Color>, i: int)
    requires ValidPalette(p) && 0 < i
    ensures BuildFrom(p, intervals, acc, i, 0) == acc + TableEntries(p, intervals, i) + [p[|p| - 1].1]
    decreases intervals - i
  {
    if i < intervals {
      Row(p, intervals, acc, i, 0);
      BuildAll(p, intervals, acc + [TableEntry(p, intervals, i)], i + 1);
      AppendFirstEntry(p, intervals, acc, i);
    }
  }

  lemma AppendFirstEntry(p: Palette, intervals: int, acc: seq<Color>, i: int)
    requires ValidPalette(p) && 0 < i < intervals
    ensures acc + [TableEntry(p, intervals, i)] + TableEntries(p, intervals, i + 1) + [p[|p| - 1].1]
      == acc + TableEntries(p, intervals, i) + [p[|p| - 1].1]
  {
    assert TableEntries(p, intervals, i) == [TableEntry(p, intervals, i)] + TableEntries(p, intervals, i + 1);
  }

  /** The table of a valid palette with at least one interval: intervals + 1
      entries, the first and last control colours at its ends, and in between
      the colour of the one segment holding alpha = i / intervals, at
      t = (alpha - p[j]) / (p[j + 1] - p[j]). */
  lemma LookUpTableShape(p: Palette, intervals: int)
    requires ValidPalette(p) && intervals >= 1
    ensures |LookUpTable(p, intervals)| == intervals + 1
    ensures LookUpTable(p, intervals)[0] == p[0].1
    ensures LookUpTable(p, intervals)[intervals] == p[|p| - 1].1
    ensures forall i :: 0 < i < intervals ==> LookUpTable(p, intervals)[i] == TableEntry(p, intervals, i)
  {
    BuildAll(p, intervals, [p[0].1], 1);
    var table := LookUpTable(p, intervals);
    assert table == [p[0].1] + TableEntries(p, intervals, 1) + [p[|p| - 1].1];
    forall i | 0 < i < intervals ensures table[i] == TableEntry(p, intervals, i) {
      assert table[i] == TableEntries(p, intervals, 1)[i - 1];
    }
  }

  /** Each interior alpha = i / intervals lies in exactly one segment
      (p[j], p[j + 1]], the one whose colour entry i is. */
  lemma InteriorEntrySegment(p: Palette, intervals: int, i: int)
    requires ValidPalette(p) && 0 < i < intervals
    ensures var alpha := i as real / intervals as real;
      forall j :: 0 <= j < |p| - 1 ==>
        (p[j].0 < alpha <= p[j + 1].0 <==> (0.0 < alpha <= 1.0 && j == Segment(p, alpha)))
  {
    var alpha := i as real / intervals as real;
    AlphaInUnit(i, intervals);
    forall j | 0 <= j < |p| - 1 && p[j].0 < alpha <= p[j + 1].0
      ensures j == Segment(p, alpha)
    {
      SegmentUnique(p, alpha, j);
    }
  }

  /** The table's entries are colours of the unit cube when the palette's are. */
  lemma LookUpTableInUnitRange(p: Palette, intervals: int)
    requires ValidPalette(p) && intervals >= 1
    requires forall j :: 0 <= j < |p| ==> InUnitRange(p[j].1)
    ensures forall i :: 0 <= i < |LookUpTable(p, intervals)| ==> InUnitRange(LookUpTable(p, intervals)[i])
  {
    LookUpTableShape(p, intervals);
    forall i | 0 < i < intervals ensures InUnitRange(TableEntry(p, intervals, i)) {
      AlphaInUnit(i, intervals);
      var alpha := i as real / intervals as real;
      SegmentLerpInUnitRange(p, Segment(p, alpha), alpha);
    }
  }

  /** With cool-to-warm and 24 intervals, entry 12 (alpha 0.5, the end of the
      segment (0.2, 0.5]) is the control colour 0xf0f0f0. */
  lemma CoolToWarmMiddle()
    ensures |LookUpTable(CoolToWarm, 24)| == 25
    ensures LookUpTable(CoolToWarm, 24)[12] == Hex(0xf0f0f0)
  {
    ColorMapsValid("cool-to-warm");
    LookUpTableShape(CoolToWarm, 24);
    var alpha := 12 as real / 24 as real;
    assert alpha == 0.5;
    SegmentUnique(CoolToWarm, alpha, 1);
  }

  // ---------------------------------------------------------------------------
  // The legend fill

  /** Math.round for the values here: halves round up. */
  function Round(x: real): int {
    (x + 0.5).Floor
  }

  /** A channel in [0, 1] as the stored byte: round(c * 255), clamped the way
      a clamped byte array stores it. */
  function ChannelByte(c: real): (v: byte)
    ensures 0.0 <= c <= 1.0 ==> v as int == Round(c * 255.0)
  {
    var n := Round(c * 255.0);
    if n < 0 then 0 else if n > 255 then 255 else n as byte
  }

  /** The legend loops of updateCanvas from step s and control point j
      (counting down) on, with acc the colours painted so far: alpha =
      s / intervals is painted by every segment [p[j - 1], p[j]) holding it. */
  function CanvasFrom(p: Palette, intervals: int, acc: seq<Color>, s: nat, j: int): seq<Color>
    requires intervals >= 1 && |p| >= 1 && p[0].0 <= 0.0 && -1 <= j < |p|
    decreases intervals + 1 - s, j + 1
  {
    if s > intervals then acc
    else if j < 0 then CanvasFrom(p, intervals, acc, s + 1, |p| - 1)
    else
      var alpha := s as real / intervals as real;
      if alpha < p[j].0 && alpha >= p[j - 1].0 then
        CanvasFrom(p, intervals, acc + [SegmentLerp(p, j - 1, alpha)], s, j - 1)
      else CanvasFrom(p, intervals, acc, s, j - 1)
  }

  function CanvasColors(p: Palette, intervals: int): seq<Color>
    requires intervals >= 1 && |p| >= 1 && p[0].0 <= 0.0
  {
    CanvasFrom(p, intervals, [], 0, |p| - 1)
  }

  /** For alpha in [0, 1) on a valid palette, the segment [p[j], p[j + 1])
      holding it, searched from j on. */
  function SegmentBelowFrom(p: Palette, alpha: real, j: nat): (s: nat)
    requires ValidPalette(p) && j + 1 < |p| && p[j].0 <= alpha < 1.0
    ensures j <= s && s + 1 < |p| && p[s].0 <= alpha < p[s + 1].0
    decreases |p| - j
  {
    if alpha < p[j + 1].0 then j else SegmentBelowFrom(p, alpha, j + 1)
  }

  lemma StepInUnit(s: int, n: int)
    requires 0 <= s < n
    ensures 0.0 <= s as real / n as real < 1.0
  {
    assert s as real / n as real * n as real == s as real;
  }

  /** The segment [p[j], p[j + 1]) holding step s < intervals. */
  function CanvasSegment(p: Palette, intervals: int, s: int): (b: nat)
    requires ValidPalette(p) && 0 <= s < intervals
    ensures b + 1 < |p| && p[b].0 <= s as real / intervals as real < p[b + 1].0
  {
    StepInUnit(s, intervals);
    SegmentBelowFrom(p, s as real / intervals as real, 0)
  }

  lemma StepNonNegative(s: nat, n: int)
    requires n >= 1
    ensures s as real / n as real >= 0.0
  {
  }

  /** The legend colour of step s < intervals. */
  function CanvasEntry(p: Palette, intervals: int, s: int): Color
    requires ValidPalette(p) && 0 <= s < intervals
  {
    SegmentLerp(p, CanvasSegment(p, intervals, s), s as real / intervals as real)
  }

  function CanvasEntries(p: Palette, intervals: int, s: int): (r: seq<Color>)
    requires ValidPalette(p) && 0 <= s
    ensures |r| == if s < intervals then intervals - s else 0
    ensures forall k :: 0 <= k < |r| ==> r[k] == CanvasEntry(p, intervals, s + k)
    decreases intervals - s
  {
    if s >= intervals then [] else [CanvasEntry(p, intervals, s)] + CanvasEntries(p, intervals, s + 1)
  }

  /** Below the segment holding alpha the inner loop paints nothing more. */
  lemma {:induction false} CanvasRowRest(p: Palette, intervals: int, acc: seq<Color>, s: nat, j: int)
    requires ValidPalette(p) && 0 <= s < intervals && -1 <= j < |p|
    requires j <= CanvasSegment(p, intervals, s)
    ensures CanvasFrom(p, intervals, acc, s, j) == CanvasFrom(p, intervals, acc, s + 1, |p| - 1)
    decreases j + 1
  {
    if j >= 0 {
      var alpha := s as real / intervals as real;
      var b := CanvasSegment(p, intervals, s);
      assert p[j].0 <= alpha by { if j < b { Increasing(p, j, b); } }
      CanvasRowRest(p, intervals, acc, s, j - 1);
    }
  }

  /** One pass of the inner loop paints exactly the colour of the segment
      holding alpha, when alpha < 1. */
  lemma {:induction false} CanvasRow(p: Palette, intervals: int, acc: seq<Color>, s: nat, j: int)
    requires ValidPalette(p) && 0 <= s < intervals && -1 <= j < |p|
    requires CanvasSegment(p, intervals, s) < j
    ensures CanvasFrom(p, intervals, acc, s, j)
      == CanvasFrom(p, intervals, acc + [CanvasEntry(p, intervals, s)], s + 1, |p| - 1)
    decreases j + 1
  {
    var alpha := s as real / intervals as real;
    var b := CanvasSegment(p, intervals, s);
    if j == b + 1 {
      CanvasRowRest(p, intervals, acc + [CanvasEntry(p, intervals, s)], s, j - 1);
    } else {
      assert alpha < p[j - 1].0 by { if b + 1 < j - 1 { Increasing(p, b + 1, j - 1); } }
      CanvasRow(p, intervals, acc, s, j - 1);
    }
  }

  /** At alpha = 1 no segment [p[j - 1], p[j]) of a valid palette holds alpha. */
  lemma {:induction false} CanvasLastStep(p: Palette, intervals: int, acc: seq<Color>, j: int)
    requires ValidPalette(p) && intervals >= 1 && -1 <= j < |p|
    ensures CanvasFrom(p, intervals, acc, intervals, j) == acc
    decreases j + 1
  {
    if j >= 0 {
      assert intervals as real / intervals as real == 1.0;
      assert p[j].0 <= 1.0 by { if j < |p| - 1 { Increasing(p, j, |p| - 1); } }
      CanvasLastStep(p, intervals, acc, j - 1);
    }
  }

  lemma {:induction false} CanvasAll(p: Palette, intervals: int, acc: seq<Color>, s: nat)
    requires ValidPalette(p) && intervals >= 1 && s <= intervals
    ensures CanvasFrom(p, intervals, acc, s, |p| - 1) == acc + CanvasEntries(p, intervals, s)
    decreases intervals - s
  {
    if s == intervals {
      CanvasLastStep(p, intervals, acc, |p| - 1);
    } else {
      CanvasRow(p, intervals, acc, s, |p| - 1);
      CanvasAll(p, intervals, acc + [CanvasEntry(p, intervals, s)], s + 1);
      AppendFirstCanvasEntry(p, intervals, acc, s);
    }
  }

  lemma AppendFirstCanvasEntry(p: Palette, intervals: int, acc: seq<Color>, s: nat)
    requires ValidPalette(p) && s < intervals
    ensures acc + [CanvasEntry(p, intervals, s)] + CanvasEntries(p, intervals, s + 1)
      == acc + CanvasEntries(p, intervals, s)
  {
    assert CanvasEntries(p, intervals, s) == [CanvasEntry(p, intervals, s)] + CanvasEntries(p, intervals, s + 1);
  }

  /** The legend of a valid palette has one colour per interval: step s gets
      the colour of the segment [p[j], p[j + 1]) holding s / intervals. */
  lemma CanvasColorsShape(p: Palette, intervals: int)
    requires ValidPalette(p) && intervals >= 1
    ensures |CanvasColors(p, intervals)| == intervals
    ensures forall s :: 0 <= s < intervals ==> CanvasColors(p, intervals)[s] == CanvasEntry(p, intervals, s)
  {
    CanvasAll(p, intervals, [], 0);
    assert CanvasColors(p, intervals) == [] + CanvasEntries(p, intervals, 0);
  }

  /** A write into a clamped byte array: indices past its end are ignored. */
  function Store(d: seq<byte>, i: nat, v: byte): (r: seq<byte>)
    ensures |r| == |d|
    ensures forall m :: 0 <= m < |d| ==> r[m] == if m == i then v else d[m]
  {
    if i < |d| then d[i := v] else d
  }

  /** Byte q of the pixel of colour c: the three channels, then an opaque alpha. */
  function PixelByte(c: Color, q: int): byte {
    if q == 0 then ChannelByte(c.r) else if q == 1 then ChannelByte(c.g) else if q == 2 then ChannelByte(c.b) else 255
  }

  /** The four writes of one legend pixel k: the three channels and an opaque alpha. */
  function SetPixel(d: seq<byte>, k: nat, c: Color): seq<byte> {
    Store(Store(Store(Store(d, 4 * k, ChannelByte(c.r)), 4 * k + 1, ChannelByte(c.g)),
                4 * k + 2, ChannelByte(c.b)), 4 * k + 3, 255)
  }

  /** The buffer after painting pixels 0 .. |colors| - 1. */
  function Painted(d: seq<byte>, colors: seq<Color>): (r: seq<byte>)
    ensures |r| == |d|
  {
    if colors == [] then d
    else SetPixel(Painted(d, colors[..|colors| - 1]), |colors| - 1, colors[|colors| - 1])
  }

  /** Painting one more colour is one more pixel write. */
  lemma PaintedSnoc(d: seq<byte>, colors: seq<Color>, c: Color)
    ensures Painted(d, colors + [c]) == SetPixel(Painted(d, colors), |colors|, c)
  {
    assert (colors + [c])[..|colors|] == colors;
  }

  /** Byte 4k + q of a painted buffer is channel q of colour k (alpha 255 for
      q = 3); bytes past the painted pixels keep their old value. */
  lemma {:induction false} PaintedAt(d: seq<byte>, colors: seq<Color>, m: nat)
    requires m < |d|
    ensures m < 4 * |colors| ==> Painted(d, colors)[m] == PixelByte(colors[m / 4], m % 4)
    ensures m >= 4 * |colors| ==> Painted(d, colors)[m] == d[m]
  {
    if colors != [] {
      var front := colors[..|colors| - 1];
      PaintedAt(d, front, m);
      if m < 4 * |front| {
        assert colors[m / 4] == front[m / 4];
      }
    }
  }

  lemma ChannelInRange(x: real)
    requires 0.0 <= x <= 1.0
    ensures 0 <= Round(x * 255.0) <= 255 && ChannelByte(x) as int == Round(x * 255.0)
  {
  }

  /** Painting the legend of a valid palette into a buffer of 4 * intervals
      bytes sets every pixel opaque, with channel bytes round(c * 255) of
      colours c in [0, 1]. */
  lemma LegendPixels(p: Palette, intervals: int, d: seq<byte>, k: nat)
    requires ValidPalette(p) && intervals >= 1 && |d| == 4 * intervals
    requires forall j :: 0 <= j < |p| ==> InUnitRange(p[j].1)
    requires k < intervals
    ensures var c := CanvasEntry(p, intervals, k);
      && InUnitRange(c)
      && 0 <= Round(c.r * 255.0) <= 255 && 0 <= Round(c.g * 255.0) <= 255 && 0 <= Round(c.b * 255.0) <= 255
      && Painted(d, CanvasColors(p, intervals))[4 * k] as int == Round(c.r * 255.0)
      && Painted(d, CanvasColors(p, intervals))[4 * k + 1] as int == Round(c.g * 255.0)
      && Painted(d, CanvasColors(p, intervals))[4 * k + 2] as int == Round(c.b * 255.0)
      && Painted(d, CanvasColors(p, intervals))[4 * k + 3] == 255
  {
    var colors := CanvasColors(p, intervals);
    CanvasColorsShape(p, intervals);
    var c := CanvasEntry(p, intervals, k);
    assert colors[k] == c;
    CanvasEntryInUnitRange(p, intervals, k);
    ChannelInRange(c.r);
    ChannelInRange(c.g);
    ChannelInRange(c.b);
    PaintedPixel(d, colors, k);
  }

  lemma CanvasEntryInUnitRange(p: Palette, intervals: int, k: nat)
    requires ValidPalette(p) && k < intervals
    requires forall j :: 0 <= j < |p| ==> InUnitRange(p[j].1)
    ensures InUnitRange(CanvasEntry(p, intervals, k))
  {
    var alpha := k as real / intervals as real;
    SegmentLerpInUnitRange(p, CanvasSegment(p, intervals, k), alpha);
  }

  /** The four bytes of painted pixel k. */
  lemma PaintedPixel(d: seq<byte>, colors: seq<Color>, k: nat)
    requires k < |colors| && 4 * k + 3 < |d|
    ensures Painted(d, colors)[4 * k] == ChannelByte(colors[k].r)
    ensures Painted(d, colors)[4 * k + 1] == ChannelByte(colors[k].g)
    ensures Painted(d, colors)[4 * k + 2] == ChannelByte(colors[k].b)
    ensures Painted(d, colors)[4 * k + 3] == 255
  {
    PixelOffset(k, 0);
    PaintedAt(d, colors, 4 * k);
    PixelOffset(k, 1);
    PaintedAt(d, colors, 4 * k + 1);
    PixelOffset(k, 2);
    PaintedAt(d, colors, 4 * k + 2);
    PixelOffset(k, 3);
    PaintedAt(d, colors, 4 * k + 3);
  }

  lemma PixelOffset(k: nat, q: nat)
    requires q < 4
    ensures (4 * k + q) / 4 == k && (4 * k + q) % 4 == q
  {
  }

  // ---------------------------------------------------------------------------
  // The colour map object

  class ColorMap {
    var name: string
    var minValue: real
    var maxValue: real
    var intervals: int
    var lookUpTable: seq<Color>

    /** A known palette, and the table built from it. */
    predicate Valid()
      reads this
    {
      name in ColorMaps && lookUpTable == LookUpTable(ColorMaps[name], intervals)
    }

    constructor(name: string, minValue: real, maxValue: real, intervals: int)
      requires name in ColorMaps
      ensures Valid()
      ensures this.name == name && this.minValue == minValue && this.maxValue == maxValue
      ensures this.intervals == intervals
    {
      this.name := name;
      this.minValue := minValue;
      this.maxValue := maxValue;
      this.intervals := intervals;
      this.lookUpTable := [];
      new;
      BuildLookUp();
    }

    /** Models buildLookUp: the first control colour, then for each interior
        i the colour of every segment holding i * step, then the last one. */
    method BuildLookUp()
      requires name in ColorMaps
      modifies this
      ensures Valid()
      ensures name == old(name) && minValue == old(minValue) && maxValue == old(maxValue)
      ensures intervals == old(intervals)
    {
      var colorMap := ColorMaps[name];
      var table := [colorMap[0].1];
      var i := 1;
      while i < intervals
        invariant i >= 1
        invariant BuildFrom(colorMap, intervals, table, i, 0) == LookUpTable(colorMap, intervals)
      {
        var alpha := i as real / intervals as real;
        var j := 0;
        while j < |colorMap| - 1
          invariant 0 <= j <= |colorMap| - 1
          invariant BuildFrom(colorMap, intervals, table, i, j) == LookUpTable(colorMap, intervals)
        {
          if !(alpha <= colorMap[j].0 || alpha > colorMap[j + 1].0) {
            var min := colorMap[j].0;
            var max := colorMap[j + 1].0;
            var color := Lerp(colorMap[j].1, colorMap[j + 1].1, (alpha - min) / (max - min));
            table := table + [color];
          }
          j := j + 1;
        }
        i := i + 1;
      }
      lookUpTable := table + [colorMap[|colorMap| - 1].1];
    }

    /** Models setRange: the range changes and the rebuilt table is the old one. */
    method SetRange(minValue: real, maxValue: real)
      requires Valid()
      modifies this
      ensures Valid()
      ensures this.minValue == minValue && this.maxValue == maxValue
      ensures name == old(name) && intervals == old(intervals) && lookUpTable == old(lookUpTable)
    {
      this.minValue := minValue;
      this.maxValue := maxValue;
      BuildLookUp();
    }

    /** THREE's clamp: max(min, min(max, value)). */
    static function Clamp(value: real, min: real, max: real): real {
      var upper := if max < value then max else value;
      if min > upper then min else upper
    }

    /** The table position getColor reads: the clamped value normalised into
        the range and rounded. Without a proper range (min == max) it divides
        0 by 0 and there is no position. */
    function ColorPosition(value: real): (pos: Option<int>)
      reads this
      ensures minValue == maxValue <==> pos.None?
      ensures minValue < maxValue && |lookUpTable| >= 1 ==> 0 <= pos.value < |lookUpTable|
      ensures minValue < maxValue && value <= minValue ==> pos == Some(0)
      ensures minValue < maxValue && value >= maxValue ==> pos == Some(|lookUpTable| - 1)
      ensures minValue > maxValue ==> pos == Some(0)
    {
      if minValue == maxValue then None
      else
        var clamped := Clamp(value, minValue, maxValue);
        var alpha := (clamped - minValue) / (maxValue - minValue);
        if minValue < maxValue then
          ClampedFraction(value, minValue, maxValue);
          Some(PositionOf(alpha, |lookUpTable| - 1))
        else
          assert alpha == 0.0;
          Some(PositionOf(alpha, |lookUpTable| - 1))
    }

    /** Models getColor: the entry at the position, or nothing (undefined)
        when there is none or it lies outside the table. */
    function GetColor(value: real): (r: Option<Color>)
      reads this
      ensures minValue == maxValue ==> r == None
      ensures minValue != maxValue && |lookUpTable| >= 1 ==> r.Some?
      ensures minValue < maxValue && value <= minValue && |lookUpTable| >= 1 ==> r == Some(lookUpTable[0])
      ensures minValue < maxValue && value >= maxValue && |lookUpTable| >= 1
        ==> r == Some(lookUpTable[|lookUpTable| - 1])
      ensures minValue > maxValue && |lookUpTable| >= 1 ==> r == Some(lookUpTable[0])
      ensures r.Some? ==> r.value in lookUpTable
    {
      match ColorPosition(value)
      case None => None
      case Some(pos) => if 0 <= pos < |lookUpTable| then Some(lookUpTable[pos]) else None
    }

    /** Models the pixel loop of updateCanvas over the image buffer data: for
        each step s = 0 .. intervals (alpha = s * step), every segment
        [p[j - 1], p[j]) holding alpha, searched from the top, paints pixel k. */
    method UpdateCanvas(data: array<byte>)
      requires Valid() && intervals >= 1
      modifies data
      ensures data[..] == Painted(old(data[..]), CanvasColors(ColorMaps[name], intervals))
    {
      ColorMapsValid(name);
      FillLegend(ColorMaps[name], intervals, data);
    }

    /** The two loops of the fill: step k of the pixel counter paints the k-th
        colour found. */
    static method FillLegend(colorMap: Palette, intervals: int, data: array<byte>)
      requires intervals >= 1 && |colorMap| >= 1 && colorMap[0].0 <= 0.0
      modifies data
      ensures data[..] == Painted(old(data[..]), CanvasColors(colorMap, intervals))
    {
      ghost var painted: seq<Color> := [];
      var k := 0;
      var s := 0;
      while s <= intervals
        invariant 0 <= s <= intervals + 1 && k == |painted|
        invariant data[..] == Painted(old(data[..]), painted)
        invariant CanvasFrom(colorMap, intervals, painted, s, |colorMap| - 1) == CanvasColors(colorMap, intervals)
      {
        k, painted := FillStep(colorMap, intervals, data, s, k, old(data[..]), painted);
        s := s + 1;
      }
    }

    /** One pass of the inner loop of the fill, for step s: every segment
        [p[j - 1], p[j]) holding alpha = s * step, from the top, paints a pixel. */
    static method FillStep(colorMap: Palette, intervals: int, data: array<byte>, s: nat, k: nat,
                           ghost original: seq<byte>, ghost painted: seq<Color>)
      returns (k': nat, ghost painted': seq<Color>)
      requires intervals >= 1 && |colorMap| >= 1 && colorMap[0].0 <= 0.0 && s <= intervals
      requires k == |painted| && data[..] == Painted(original, painted)
      modifies data
      ensures k' == |painted'| && data[..] == Painted(original, painted')
      ensures CanvasFrom(colorMap, intervals, painted', s + 1, |colorMap| - 1)
        == CanvasFrom(colorMap, intervals, painted, s, |colorMap| - 1)
    {
      k', painted' := k, painted;
      var alpha := s as real / intervals as real;
      StepNonNegative(s, intervals);
      var j := |colorMap| - 1;
      while j >= 0
        invariant -1 <= j < |colorMap| && k' == |painted'| && alpha >= colorMap[0].0
        invariant data[..] == Painted(original, painted')
        invariant CanvasFrom(colorMap, intervals, painted', s, j)
          == CanvasFrom(colorMap, intervals, painted, s, |colorMap| - 1)
      {
        if alpha < colorMap[j].0 && alpha >= colorMap[j - 1].0 {
          var min := colorMap[j - 1].0;
          var max := colorMap[j].0;
          var finalColor := Lerp(colorMap[j - 1].1, colorMap[j].1, (alpha - min) / (max - min));
          WritePixel(data, k', finalColor);
          PaintedSnoc(original, painted', finalColor);
          painted' := painted' + [finalColor];
          k' := k' + 1;
        }
        j := j - 1;
      }
    }

    /** The four byte writes of one pixel. */
    static method WritePixel(data: array<byte>, k: nat, c: Color)
      modifies data
      ensures data[..] == SetPixel(old(data[..]), k, c)
    {
      if 4 * k < data.Length { data[4 * k] := ChannelByte(c.r); }
      if 4 * k + 1 < data.Length { data[4 * k + 1] := ChannelByte(c.g); }
      if 4 * k + 2 < data.Length { data[4 * k + 2] := ChannelByte(c.b); }
      if 4 * k + 3 < data.Length { data[4 * k + 3] := 255; }
    }
  }

  /** round(alpha * last) for alpha in [0, 1] lies in [0, last] and grows with alpha. */
  function PositionOf(alpha: real, last: int): (pos: int)
    ensures 0.0 <= alpha <= 1.0 && last >= 0 ==> 0 <= pos <= last
    ensures alpha == 0.0 ==> pos == 0
    ensures alpha == 1.0 ==> pos == last
  {
    PositionBounds(alpha, last);
    Round(alpha * last as real)
  }

  lemma PositionBounds(alpha: real, last: int)
    ensures 0.0 <= alpha <= 1.0 && last >= 0 ==> 0 <= Round(alpha * last as real) <= last
  {
    if 0.0 <= alpha <= 1.0 && last >= 0 {
      assert 0.0 <= alpha * last as real <= last as real by {
        assert alpha * last as real <= 1.0 * last as real;
      }
    }
  }

  /** A larger value never reads an earlier table position. */
  lemma PositionMonotone(a: real, b: real, last: int)
    requires a <= b && last >= 0
    ensures PositionOf(a, last) <= PositionOf(b, last)
  {
    ScaleMonotone(a, b, last as real);
    FloorMonotone(a * last as real + 0.5, b * last as real + 0.5);
  }

  lemma ScaleMonotone(a: real, b: real, l: real)
    requires a <= b && 0.0 <= l
    ensures a * l <= b * l
  {
    var d := b - a;
    assert 0.0 <= d * l;
    assert b * l == a * l + d * l;
  }

  lemma FloorMonotone(x: real, y: real)
    requires x <= y
    ensures x.Floor <= y.Floor
  {
    assert x.Floor as real <= x && y < y.Floor as real + 1.0;
  }

  /** With cool-to-warm, 24 intervals and range [0, 1], getColor(0.5) is 0xf0f0f0. */
  lemma CoolToWarmHalfway(c: ColorMap)
    requires c.Valid() && c.name == "cool-to-warm" && c.intervals == 24
    requires c.minValue == 0.0 && c.maxValue == 1.0
    ensures c.GetColor(0.5) == Some(Hex(0xf0f0f0))
  {
    CoolToWarmMiddle();
    assert c.ColorPosition(0.5) == Some(12);
  }
}
