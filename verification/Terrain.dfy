/** The terrain profile (LanderGame/Terrain.cs): a growable array of (x, y) height
    samples at constant spacing, generated with clamped random heights, extended in
    batches as the camera nears the tail, flattened under landing pads, and queried by
    clamped-index linear interpolation. Every random draw is an oracle parameter. */
module TerrainModel {
  import opened Primitives

  const InitialTotalPoints: nat := 200
  const ExtendThresholdPoints: int := 100
  const ExtendPointsCount: nat := 200

  /** The samples lie on the grid x_i = i * segW (constant spacing from 0). */
  ghost predicate Grid(pts: seq<Point>, segW: real) {
    forall i :: 0 <= i < |pts| ==> pts[i].x == i as real * segW
  }

  /** Every height is clamped into [0, baseY] (never above the top, never below the baseline). */
  ghost predicate InBand(pts: seq<Point>, baseY: real) {
    forall i :: 0 <= i < |pts| ==> 0.0 <= pts[i].y <= baseY
  }

  /** One generated height: the baseline plus a uniform offset in [-variation, variation),
      where `unit` is the generator's NextDouble() draw, clamped to [0, baseY]. */
  function Jitter(baseY: real, variation: real, unit: real): (y: real)
    requires baseY >= 0.0
    ensures 0.0 <= y <= baseY
    ensures 0.0 <= baseY + (unit * 2.0 - 1.0) * variation <= baseY ==> y == baseY + (unit * 2.0 - 1.0) * variation
  {
    ClampReal(baseY + (unit * 2.0 - 1.0) * variation, 0.0, baseY)
  }

  /** The array Generate fills: sample i at x = i * segW with a jittered height. */
  function Generated(units: seq<real>, segW: real, baseY: real, variation: real): (r: seq<Point>)
    requires baseY >= 0.0
    ensures |r| == |units|
    ensures Grid(r, segW) && InBand(r, baseY)
  {
    seq(|units|, i requires 0 <= i < |units| => Point(i as real * segW, Jitter(baseY, variation, units[i])))
  }

  /** The array Expand builds: the old samples, then one new sample per draw, each one
      segW to the right of the previous. */
  function Extended(pts: seq<Point>, segW: real, baseY: real, variation: real, units: seq<real>): (r: seq<Point>)
    requires |pts| >= 1 && baseY >= 0.0
    ensures |r| == |pts| + |units|
    ensures r[..|pts|] == pts
    ensures forall i :: |pts| <= i < |r| ==> 0.0 <= r[i].y <= baseY
  {
    var last := pts[|pts| - 1].x;
    pts + seq(|units|, j requires 0 <= j < |units| =>
                Point(last + (j + 1) as real * segW, Jitter(baseY, variation, units[j])))
  }

  /** Sample i of the extension (i at or past the old length): its x lies i - n + 1
      widths past the old last sample, and its height is the draw's jittered height. */
  lemma ExtendedAt(pts: seq<Point>, segW: real, baseY: real, variation: real, units: seq<real>, i: int)
    requires |pts| >= 1 && baseY >= 0.0 && |pts| <= i < |pts| + |units|
    ensures Extended(pts, segW, baseY, variation, units)[i]
              == Point(pts[|pts| - 1].x + (i - |pts| + 1) as real * segW, Jitter(baseY, variation, units[i - |pts|]))
  {
  }

  /** Each new sample lies exactly one segW to the right of the sample before it. */
  lemma ExtendedSpacing(pts: seq<Point>, segW: real, baseY: real, variation: real, units: seq<real>, i: int)
    requires |pts| >= 1 && baseY >= 0.0 && |pts| <= i < |pts| + |units|
    ensures var r := Extended(pts, segW, baseY, variation, units);
            r[i].x == r[i - 1].x + segW
  {
    var r := Extended(pts, segW, baseY, variation, units);
    var n := |pts|;
    var last := pts[n - 1].x;
    ExtendedAt(pts, segW, baseY, variation, units, i);
    if i == n {
      assert r[i - 1] == r[..n][n - 1];
      assert r[i].x == last + 1 as real * segW;
    } else {
      ExtendedAt(pts, segW, baseY, variation, units, i - 1);
      GridStep(last, i - n, segW);
    }
  }

  /** A sequence that agrees with Extended index by index is Extended. */
  lemma ExtendedPointwise(pts: seq<Point>, segW: real, baseY: real, variation: real, units: seq<real>, s: seq<Point>)
    requires |pts| >= 1 && baseY >= 0.0 && |s| == |pts| + |units|
    requires forall k :: 0 <= k < |pts| ==> s[k] == pts[k]
    requires forall k :: |pts| <= k < |s| ==>
               s[k] == Point(pts[|pts| - 1].x + (k - |pts| + 1) as real * segW, Jitter(baseY, variation, units[k - |pts|]))
    ensures s == Extended(pts, segW, baseY, variation, units)
  {
    var ext := Extended(pts, segW, baseY, variation, units);
    forall k | 0 <= k < |s| ensures s[k] == ext[k] {
      if k < |pts| {
        assert ext[k] == ext[..|pts|][k];
      } else {
        ExtendedAt(pts, segW, baseY, variation, units, k);
      }
    }
  }

  lemma {:induction false} ExtendedKeepsInvariant(pts: seq<Point>, segW: real, baseY: real, variation: real, units: seq<real>)
    requires |pts| >= 1 && baseY >= 0.0
    requires Grid(pts, segW) && InBand(pts, baseY)
    ensures Grid(Extended(pts, segW, baseY, variation, units), segW)
    ensures InBand(Extended(pts, segW, baseY, variation, units), baseY)
  {
    var r := Extended(pts, segW, baseY, variation, units);
    var n := |pts|;
    forall i | 0 <= i < |r| ensures r[i].x == i as real * segW {
      if i < n {
        assert r[i] == r[..n][i];
      } else {
        ExtendedAt(pts, segW, baseY, variation, units, i);
        assert pts[n - 1].x == (n - 1) as real * segW;
        SumOfMultiples(n - 1, i - n + 1, segW);
      }
    }
    forall i | 0 <= i < |r| ensures 0.0 <= r[i].y <= baseY {
      if i < n {
        assert r[i] == r[..n][i];
      }
    }
  }

  /** Flatten's precondition: when the start index is in range, Points[endIdx] is read,
      so endIdx must not be negative (the source throws IndexOutOfRangeException). */
  predicate FlattenSafe(len: int, startIdx: int, padSegments: int) {
    0 <= startIdx < len ==> startIdx + padSegments >= 0
  }

  /** The last index Flatten levels: startIdx + padSegments, capped at the last sample. */
  function FlattenEnd(len: int, startIdx: int, padSegments: int): (e: int)
    ensures e <= len - 1 && e <= startIdx + padSegments
    ensures e == len - 1 || e == startIdx + padSegments
  {
    MinInt(startIdx + padSegments, len - 1)
  }

  /** The level height: the average of the two endpoint heights, so it lies between
      them and is each of them when they agree. */
  function PadLevel(pts: seq<Point>, startIdx: int, padSegments: int): (y: real)
    requires 0 <= startIdx < |pts| && FlattenSafe(|pts|, startIdx, padSegments)
    ensures var a := pts[startIdx].y;
            var b := pts[FlattenEnd(|pts|, startIdx, padSegments)].y;
            && (a <= b ==> a <= y <= b)
            && (b <= a ==> b <= y <= a)
  {
    (pts[startIdx].y + pts[FlattenEnd(|pts|, startIdx, padSegments)].y) / 2.0
  }

  /** The samples after Flatten(startIdx, padSegments). */
  function Flattened(pts: seq<Point>, startIdx: int, padSegments: int): (r: seq<Point>)
    requires FlattenSafe(|pts|, startIdx, padSegments)
    ensures |r| == |pts|
    ensures forall i :: 0 <= i < |pts| ==> r[i].x == pts[i].x
    ensures forall i :: 0 <= i < |pts| && !(startIdx <= i <= FlattenEnd(|pts|, startIdx, padSegments)) ==> r[i] == pts[i]
    ensures !(0 <= startIdx < |pts|) ==> r == pts
    ensures 0 <= startIdx < |pts| ==>
              forall i :: startIdx <= i <= FlattenEnd(|pts|, startIdx, padSegments) ==>
                r[i].y == PadLevel(pts, startIdx, padSegments)
  {
    if startIdx < 0 || startIdx >= |pts| then pts
    else
      var endIdx := FlattenEnd(|pts|, startIdx, padSegments);
      var padY := PadLevel(pts, startIdx, padSegments);
      seq(|pts|, i requires 0 <= i < |pts| => if startIdx <= i <= endIdx then pts[i].(y := padY) else pts[i])
  }

  lemma {:induction false} FlattenPreservesInvariant(pts: seq<Point>, segW: real, baseY: real, startIdx: int, padSegments: int)
    requires FlattenSafe(|pts|, startIdx, padSegments)
    requires Grid(pts, segW) && InBand(pts, baseY)
    ensures Grid(Flattened(pts, startIdx, padSegments), segW)
    ensures InBand(Flattened(pts, startIdx, padSegments), baseY)
  {
    var r := Flattened(pts, startIdx, padSegments);
    if 0 <= startIdx < |pts| {
      var e := FlattenEnd(|pts|, startIdx, padSegments);
      var padY := PadLevel(pts, startIdx, padSegments);
      if e >= 0 {
        assert 0.0 <= pts[startIdx].y <= baseY && 0.0 <= pts[e].y <= baseY;
      }
      forall i | 0 <= i < |r| ensures 0.0 <= r[i].y <= baseY {
        if startIdx <= i <= e {
          assert 0.0 <= pts[e].y <= baseY;
        }
      }
    }
  }

  /** Flattening the same range twice is the same as flattening it once. */
  lemma {:induction false} FlattenIdempotent(pts: seq<Point>, startIdx: int, padSegments: int)
    requires FlattenSafe(|pts|, startIdx, padSegments)
    ensures Flattened(Flattened(pts, startIdx, padSegments), startIdx, padSegments) == Flattened(pts, startIdx, padSegments)
  {
    var once := Flattened(pts, startIdx, padSegments);
    var twice := Flattened(once, startIdx, padSegments);
    if 0 <= startIdx < |pts| {
      var e := FlattenEnd(|pts|, startIdx, padSegments);
      if e >= startIdx {
        assert once[startIdx].y == once[e].y == PadLevel(pts, startIdx, padSegments);
        assert PadLevel(once, startIdx, padSegments) == PadLevel(pts, startIdx, padSegments);
        forall i | 0 <= i < |pts| ensures twice[i] == once[i] {
          if startIdx <= i <= e {
            assert twice[i].y == once[i].y;
          }
        }
      } else {
        forall i | 0 <= i < |pts| ensures twice[i] == once[i] { }
      }
    }
  }

  /** The index of the first sample of the segment GetHeightAt interpolates on. */
  function SegmentIndex(len: int, segW: real, xPos: real): (idx: int)
    requires len >= 2 && segW > 0.0
    ensures 0 <= idx <= len - 2
  {
    ClampInt(TruncToInt(MaxReal(0.0, xPos) / segW), 0, len - 2)
  }

  /** GetHeightAt: BaseY when fewer than two samples exist; otherwise x is clamped to
      be non-negative, the segment index to [0, len-2], and the height is the linear
      interpolation (or, past the tail, extrapolation) along that segment. */
  function HeightAt(pts: seq<Point>, segW: real, baseY: real, xPos: real): (h: real)
    requires Grid(pts, segW) && (|pts| >= 2 ==> segW > 0.0)
    ensures |pts| < 2 ==> h == baseY
  {
    if |pts| < 2 then baseY
    else
      var pos := MaxReal(0.0, xPos);
      var idx := SegmentIndex(|pts|, segW, xPos);
      var p0 := pts[idx];
      var p1 := pts[idx + 1];
      assert p1.x - p0.x == segW by {
        assert p1.x == (idx + 1) as real * segW && p0.x == idx as real * segW;
      }
      var t := (pos - p0.x) / (p1.x - p0.x);
      p0.y + t * (p1.y - p0.y)
  }

  /** The segment parameter in units of segW: GetHeightAt's position divided by segW. */
  function SegmentPosition(segW: real, xPos: real): (q: real)
    requires segW > 0.0
    ensures q >= 0.0
    ensures xPos >= 0.0 ==> q * segW == xPos
  {
    var pos := MaxReal(0.0, xPos);
    DivMonotone(0.0, pos, segW);
    DivMulCancel(pos, segW);
    pos / segW
  }

  /** HeightAt written as the line through the samples idx and idx + 1, evaluated at
      parameter q - idx, where q is the position measured in segment widths. */
  lemma {:induction false} HeightAtOnSegment(pts: seq<Point>, segW: real, baseY: real, xPos: real)
    requires Grid(pts, segW) && |pts| >= 2 && segW > 0.0
    ensures var idx := SegmentIndex(|pts|, segW, xPos);
            var t := SegmentPosition(segW, xPos) - idx as real;
            HeightAt(pts, segW, baseY, xPos) == pts[idx].y + t * (pts[idx + 1].y - pts[idx].y)
  {
    var idx := SegmentIndex(|pts|, segW, xPos);
    assert pts[idx].x == idx as real * segW;
    assert pts[idx + 1].x == (idx + 1) as real * segW;
    SegmentOffset(MaxReal(0.0, xPos), idx, segW);
  }

  /** The index GetHeightAt picks is the truncated position, clamped to the last segment. */
  lemma {:induction false} SegmentIndexOfPosition(len: int, segW: real, xPos: real)
    requires len >= 2 && segW > 0.0
    ensures SegmentIndex(len, segW, xPos) == ClampInt(TruncToInt(SegmentPosition(segW, xPos)), 0, len - 2)
  {
  }

  /** A grid point's position in segment widths is its index. */
  lemma PositionOfSample(segW: real, k: real, x: real)
    requires segW > 0.0 && k >= 0.0 && x == k * segW
    ensures SegmentPosition(segW, x) == k
  {
    NonNegMul(k, segW);
    MulDivCancel(k, segW);
  }

  /** Positions are monotone in x. */
  lemma PositionMonotone(segW: real, a: real, b: real)
    requires segW > 0.0 && 0.0 <= a <= b
    ensures SegmentPosition(segW, a) <= SegmentPosition(segW, b)
  {
    DivMonotone(a, b, segW);
  }

  /** At a sample's own x, GetHeightAt returns that sample's height. */
  lemma {:induction false} HeightAtSample(pts: seq<Point>, segW: real, baseY: real, k: int)
    requires Grid(pts, segW) && |pts| >= 2 && segW > 0.0
    requires 0 <= k < |pts|
    ensures HeightAt(pts, segW, baseY, k as real * segW) == pts[k].y
  {
    var xPos := k as real * segW;
    PositionOfSample(segW, k as real, xPos);
    SegmentIndexOfPosition(|pts|, segW, xPos);
    assert TruncToInt(k as real) == k;
    HeightAtOnSegment(pts, segW, baseY, xPos);
  }

  /** Halfway between two neighbouring samples, GetHeightAt is their average. */
  lemma {:induction false} HeightAtMidpoint(pts: seq<Point>, segW: real, baseY: real, k: int)
    requires Grid(pts, segW) && |pts| >= 2 && segW > 0.0
    requires 0 <= k <= |pts| - 2
    ensures HeightAt(pts, segW, baseY, (k as real + 0.5) * segW) == (pts[k].y + pts[k + 1].y) / 2.0
  {
    var xPos := (k as real + 0.5) * segW;
    PositionOfSample(segW, k as real + 0.5, xPos);
    SegmentIndexOfPosition(|pts|, segW, xPos);
    assert SegmentPosition(segW, xPos) == k as real + 0.5;
    assert TruncToInt(k as real + 0.5) == k;
    assert ClampInt(k, 0, |pts| - 2) == k;
    HeightAtOnSegment(pts, segW, baseY, xPos);
    assert SegmentIndex(|pts|, segW, xPos) == k;
    assert SegmentPosition(segW, xPos) - k as real == 0.5;
  }

  /** Flat terrain answers its one height everywhere, even past the generated tail. */
  lemma {:induction false} HeightAtConstant(pts: seq<Point>, segW: real, baseY: real, c: real, xPos: real)
    requires Grid(pts, segW) && |pts| >= 2 && segW > 0.0
    requires forall i :: 0 <= i < |pts| ==> pts[i].y == c
    ensures HeightAt(pts, segW, baseY, xPos) == c
  {
    HeightAtOnSegment(pts, segW, baseY, xPos);
    var idx := SegmentIndex(|pts|, segW, xPos);
    assert pts[idx].y == c && pts[idx + 1].y == c;
  }

  /** The interpolation parameter lies in [0, 1] while x stays within the samples. */
  lemma {:induction false} SegmentParameterInUnit(len: int, segW: real, xPos: real)
    requires len >= 2 && segW > 0.0
    requires xPos <= (len - 1) as real * segW
    ensures 0.0 <= SegmentPosition(segW, xPos) - SegmentIndex(len, segW, xPos) as real <= 1.0
  {
    var q := SegmentPosition(segW, xPos);
    PositionOfSample(segW, (len - 1) as real, (len - 1) as real * segW);
    NonNegMul((len - 1) as real, segW);
    PositionMonotone(segW, MaxReal(0.0, xPos), (len - 1) as real * segW);
    assert q <= (len - 1) as real;
    SegmentIndexOfPosition(len, segW, xPos);
  }

  /** Within the generated samples, GetHeightAt stays inside the clamp band. */
  lemma {:induction false} HeightAtWithinBand(pts: seq<Point>, segW: real, baseY: real, xPos: real)
    requires Grid(pts, segW) && InBand(pts, baseY) && |pts| >= 2 && segW > 0.0
    requires xPos <= (|pts| - 1) as real * segW
    ensures 0.0 <= HeightAt(pts, segW, baseY, xPos) <= baseY
  {
    HeightAtOnSegment(pts, segW, baseY, xPos);
    SegmentParameterInUnit(|pts|, segW, xPos);
    var idx := SegmentIndex(|pts|, segW, xPos);
    var t := SegmentPosition(segW, xPos) - idx as real;
    ConvexCombination(pts[idx].y, pts[idx + 1].y, t, 0.0, baseY);
  }

  /** Past the last sample the query extends the last segment's line (it is not held
      at the last height): the source's policy for queries beyond the generated tail. */
  lemma {:induction false} HeightBeyondTail(pts: seq<Point>, segW: real, baseY: real, xPos: real)
    requires Grid(pts, segW) && |pts| >= 2 && segW > 0.0
    requires xPos >= (|pts| - 1) as real * segW
    ensures var n := |pts|;
            HeightAt(pts, segW, baseY, xPos)
              == pts[n - 1].y + (xPos - pts[n - 1].x) / segW * (pts[n - 1].y - pts[n - 2].y)
  {
    var n := |pts|;
    NonNegMul((n - 1) as real, segW);
    PositionOfSample(segW, (n - 1) as real, (n - 1) as real * segW);
    PositionMonotone(segW, (n - 1) as real * segW, xPos);
    SegmentIndexOfPosition(n, segW, xPos);
    HeightAtOnSegment(pts, segW, baseY, xPos);
    SegmentOffset(xPos, n - 1, segW);
    assert pts[n - 1].x == (n - 1) as real * segW;
  }

  /** A position between samples s and e (s <= e) falls on a segment whose used endpoint
      lies in [s, e]: either both endpoints do, or the parameter sits exactly on the one
      that does. */
  lemma LevelledSegment(len: int, s: int, e: int, q: real)
    requires 0 <= s <= e <= len - 1 && len >= 2
    requires s as real <= q <= e as real
    ensures var idx := ClampInt(TruncToInt(q), 0, len - 2);
            || (s <= idx && idx + 1 <= e)
            || (s <= idx <= e && q - idx as real == 0.0)
            || (s <= idx + 1 <= e && q - idx as real == 1.0)
  {
  }

  /** A position between the x of samples s and e is, in segment widths, between s and e. */
  lemma PositionBetweenSamples(segW: real, s: int, e: int, xPos: real)
    requires segW > 0.0 && 0 <= s && s as real * segW <= xPos <= e as real * segW
    ensures s as real <= SegmentPosition(segW, xPos) <= e as real
  {
    NonNegMul(s as real, segW);
    PositionOfSample(segW, s as real, s as real * segW);
    PositionMonotone(segW, s as real * segW, xPos);
    if e < 0 {
      NonNegMul(s as real, segW);
      assert false;
    }
    PositionOfSample(segW, e as real, e as real * segW);
    PositionMonotone(segW, xPos, e as real * segW);
  }

  /** Over a levelled range, GetHeightAt answers the level at every x of the range. */
  lemma {:induction false} FlattenedHeightIsLevel(pts: seq<Point>, segW: real, baseY: real, startIdx: int, padSegments: int, xPos: real)
    requires Grid(pts, segW) && |pts| >= 2 && segW > 0.0
    requires FlattenSafe(|pts|, startIdx, padSegments) && 0 <= startIdx < |pts|
    requires startIdx as real * segW <= xPos <= FlattenEnd(|pts|, startIdx, padSegments) as real * segW
    ensures HeightAt(Flattened(pts, startIdx, padSegments), segW, baseY, xPos) == PadLevel(pts, startIdx, padSegments)
  {
    var r := Flattened(pts, startIdx, padSegments);
    var e := FlattenEnd(|pts|, startIdx, padSegments);
    var level := PadLevel(pts, startIdx, padSegments);
    assert Grid(r, segW);
    PositionBetweenSamples(segW, startIdx, e, xPos);
    var q := SegmentPosition(segW, xPos);
    LevelledSegment(|r|, startIdx, e, q);
    SegmentIndexOfPosition(|r|, segW, xPos);
    HeightAtOnSegment(r, segW, baseY, xPos);
    var idx := SegmentIndex(|r|, segW, xPos);
    LevelLine(r[idx].y, r[idx + 1].y, q - idx as real, level,
              startIdx <= idx && idx + 1 <= e, startIdx <= idx <= e, startIdx <= idx + 1 <= e);
  }

  /** x lies on the range Flatten(startIdx, padSegments) levels: from sample startIdx
      to the last sample it levels. */
  ghost predicate OnLevelledRange(len: int, segW: real, startIdx: int, padSegments: int, x: real) {
    0 <= startIdx < len && startIdx as real * segW <= x <= FlattenEnd(len, startIdx, padSegments) as real * segW
  }

  /** Two positions on one levelled range read the same height: the level. */
  lemma LevelledRangeAgrees(pts: seq<Point>, segW: real, baseY: real, startIdx: int, padSegments: int, x0: real, x1: real)
    requires Grid(pts, segW) && |pts| >= 2 && segW > 0.0 && FlattenSafe(|pts|, startIdx, padSegments)
    requires OnLevelledRange(|pts|, segW, startIdx, padSegments, x0)
    requires OnLevelledRange(|pts|, segW, startIdx, padSegments, x1)
    ensures 0 <= startIdx < |pts|
    ensures HeightAt(Flattened(pts, startIdx, padSegments), segW, baseY, x0) == PadLevel(pts, startIdx, padSegments)
    ensures HeightAt(Flattened(pts, startIdx, padSegments), segW, baseY, x1) == PadLevel(pts, startIdx, padSegments)
  {
    FlattenedHeightIsLevel(pts, segW, baseY, startIdx, padSegments, x0);
    FlattenedHeightIsLevel(pts, segW, baseY, startIdx, padSegments, x1);
  }

  /** The line through heights a and b, at parameter t, is the level when both heights
      are, or when t sits on an endpoint that is. */
  lemma LevelLine(a: real, b: real, t: real, level: real, both: bool, first: bool, second: bool)
    requires both ==> a == level && b == level
    requires first ==> a == level
    requires second ==> b == level
    requires both || (first && t == 0.0) || (second && t == 1.0)
    ensures a + t * (b - a) == level
  {
    if both {
      assert b - a == 0.0;
    }
  }

  /** The last sample index visible when the camera sits at cameraX. */
  function VisibleLastIndex(cameraX: real, visibleCount: int, segW: real): (n: int)
    requires segW != 0.0
  {
    TruncToInt((cameraX + (visibleCount - 1) as real * segW) / segW)
  }

  /** ExpandIfNeeded's test: at most ExtendThresholdPoints samples left past the view. */
  predicate NeedsExpansion(count: int, cameraX: real, visibleCount: int, segW: real)
    requires segW != 0.0
  {
    count - VisibleLastIndex(cameraX, visibleCount, segW) <= ExtendThresholdPoints
  }

  /** With the camera on sample k, the view ends at sample k + visibleCount - 1, so the
      terrain grows exactly when no more than 100 samples remain beyond that one. */
  lemma {:induction false} ExpansionThreshold(count: int, k: int, visibleCount: int, segW: real)
    requires segW > 0.0
    ensures VisibleLastIndex(k as real * segW, visibleCount, segW) == k + visibleCount - 1
    ensures NeedsExpansion(count, k as real * segW, visibleCount, segW) <==> count - (k + visibleCount - 1) <= ExtendThresholdPoints
  {
    var v := (k as real * segW + (visibleCount - 1) as real * segW) / segW;
    assert k as real * segW + (visibleCount - 1) as real * segW == (k + visibleCount - 1) as real * segW;
    assert v == (k + visibleCount - 1) as real;
  }

  /** Expand's loop: from index `from` on, each new sample lies one segW to the right of
      the previous one, starting after `last`, with a jittered height; the samples before
      `from` are left alone. */
  method FillExtension(a: array<Point>, from: int, last: real, segW: real, baseY: real, variation: real,
                       units: seq<real>)
    requires 0 <= from && a.Length == from + |units| && baseY >= 0.0
    modifies a
    ensures forall k :: 0 <= k < from ==> a[k] == old(a[k])
    ensures forall k :: from <= k < a.Length ==>
              a[k] == Point(last + (k - from + 1) as real * segW, Jitter(baseY, variation, units[k - from]))
  {
    var lastX := last;
    for i := from to a.Length
      invariant lastX == last + (i - from) as real * segW
      invariant forall k :: 0 <= k < from ==> a[k] == old(a[k])
      invariant forall k :: from <= k < i ==>
                  a[k] == Point(last + (k - from + 1) as real * segW, Jitter(baseY, variation, units[k - from]))
    {
      var tx := lastX + segW;
      GridStep(last, i - from, segW);
      lastX := tx;
      var ty := baseY + (units[i - from] * 2.0 - 1.0) * variation;
      ty := ClampReal(ty, 0.0, baseY);
      a[i] := Point(tx, ty);
    }
  }

  class Terrain {
    const visibleCount: int
    const Variation: real
    const BaseY: real
    var segmentWidth: real
    var Points: array<Point>

    /** The terrain invariant: samples on the grid and heights inside the clamp band. */
    ghost predicate Valid()
      reads this, Points
    {
      && Grid(Points[..], segmentWidth)
      && InBand(Points[..], BaseY)
      && (Points.Length > 0 ==> BaseY >= 0.0)
    }

    constructor (visiblePoints: int, variation: real, baseY: real)
      ensures visibleCount == visiblePoints && Variation == variation && BaseY == baseY
      ensures segmentWidth == 0.0 && Points.Length == 0
      ensures Valid() && fresh(Points)
    {
      visibleCount := visiblePoints;
      Variation := variation;
      BaseY := baseY;
      segmentWidth := 0.0;
      Points := new Point[0];
    }

    /** The number of samples drawn at once. */
    function Segments(): (n: int)
      reads this
      ensures n == visibleCount
    {
      visibleCount
    }

    /** Generate: 200 samples with x = i * segmentWidth, segmentWidth = width / visibleCount,
        and jittered heights clamped into [0, BaseY]; `units` are the NextDouble() draws. */
    method Generate(units: seq<real>, width: real)
      requires visibleCount != 0 && BaseY >= 0.0
      requires |units| == InitialTotalPoints
      modifies this
      ensures segmentWidth == width / visibleCount as real
      ensures fresh(Points) && Points[..] == Generated(units, segmentWidth, BaseY, Variation)
      ensures Valid()
    {
      segmentWidth := width / visibleCount as real;
      var pts := new Point[InitialTotalPoints];
      for i := 0 to pts.Length
        modifies pts
        invariant forall k :: 0 <= k < i ==> pts[k] == Point(k as real * segmentWidth, Jitter(BaseY, Variation, units[k]))
      {
        var tx := i as real * segmentWidth;
        var ty := BaseY + (units[i] * 2.0 - 1.0) * Variation;
        ty := ClampReal(ty, 0.0, BaseY);
        pts[i] := Point(tx, ty);
      }
      Points := pts;
      ghost var g := Generated(units, segmentWidth, BaseY, Variation);
      forall k | 0 <= k < |units| ensures Points[k] == g[k] {
        assert g[k] == Point(k as real * segmentWidth, Jitter(BaseY, Variation, units[k]));
      }
      assert Points[..] == g;
    }

    /** ExpandIfNeeded: appends ExtendPointsCount samples exactly when the camera's last
        visible index is within ExtendThresholdPoints of the end; otherwise nothing changes. */
    method ExpandIfNeeded(cameraX: real, units: seq<real>)
      requires Valid() && segmentWidth != 0.0
      requires |units| == ExtendPointsCount
      requires NeedsExpansion(Points.Length, cameraX, visibleCount, segmentWidth) ==> Points.Length >= 1
      modifies this
      ensures Valid() && segmentWidth == old(segmentWidth)
      ensures NeedsExpansion(old(Points.Length), cameraX, visibleCount, segmentWidth) ==>
                fresh(Points) && Points[..] == Extended(old(Points[..]), segmentWidth, BaseY, Variation, units)
      ensures !NeedsExpansion(old(Points.Length), cameraX, visibleCount, segmentWidth) ==>
                Points == old(Points) && Points[..] == old(Points[..])
    {
      var visibleLastIdx := TruncToInt((cameraX + (visibleCount - 1) as real * segmentWidth) / segmentWidth);
      if Points.Length - visibleLastIdx <= ExtendThresholdPoints {
        Expand(ExtendPointsCount, units);
      }
    }

    /** Expand: copies the samples into a larger array and continues x at constant
        spacing from the last sample, with jittered heights clamped into [0, BaseY]. */
    method Expand(extraPoints: nat, units: seq<real>)
      requires Valid() && Points.Length >= 1
      requires |units| == extraPoints
      modifies this
      ensures Valid() && segmentWidth == old(segmentWidth)
      ensures fresh(Points) && Points[..] == Extended(old(Points[..]), segmentWidth, BaseY, Variation, units)
    {
      assert BaseY >= 0.0 by { assert 0.0 <= Points[0].y <= BaseY; }
      ghost var before := Points[..];
      var oldCount := Points.Length;
      var newCount := oldCount + extraPoints;
      var newPoints := new Point[newCount];
      forall k | 0 <= k < oldCount {
        newPoints[k] := Points[k];
      }
      var lastX := Points[oldCount - 1].x;
      FillExtension(newPoints, oldCount, lastX, segmentWidth, BaseY, Variation, units);
      ExtendedPointwise(before, segmentWidth, BaseY, Variation, units, newPoints[..]);
      ExtendedKeepsInvariant(before, segmentWidth, BaseY, Variation, units);
      Points := newPoints;
    }

    /** Flatten: levels samples startIdx..min(startIdx + padSegments, len - 1) to the
        average of the two endpoint heights; a no-op when startIdx is out of range. */
    method Flatten(startIdx: int, padSegments: int)
      requires Valid() && FlattenSafe(Points.Length, startIdx, padSegments)
      modifies Points
      ensures Valid()
      ensures Points[..] == Flattened(old(Points[..]), startIdx, padSegments)
    {
      ghost var before := Points[..];
      FlattenPreservesInvariant(before, segmentWidth, BaseY, startIdx, padSegments);
      var endIdx := MinInt(startIdx + padSegments, Points.Length - 1);
      if startIdx < 0 || startIdx >= Points.Length {
        return;
      }
      var padY := (Points[startIdx].y + Points[endIdx].y) / 2.0;
      var i := startIdx;
      while i <= endIdx
        invariant startIdx <= i && (i <= endIdx + 1 || i == startIdx)
        invariant forall k :: 0 <= k < Points.Length ==>
                    Points[k] == if startIdx <= k < i then before[k].(y := padY) else before[k]
      {
        Points[i] := Points[i].(y := padY);
        i := i + 1;
      }
      assert padY == PadLevel(before, startIdx, padSegments);
      ghost var r := Flattened(before, startIdx, padSegments);
      forall k | 0 <= k < Points.Length ensures Points[k] == r[k] {
        if startIdx <= k <= endIdx {
          assert r[k].x == before[k].x && r[k].y == padY;
        } else {
          assert r[k] == before[k];
        }
      }
      assert Points[..] == r;
    }

    /** FlattenAt: converts world x and width to sample indices by rounding and flattens. */
    method FlattenAt(startX: real, width: real)
      requires Valid() && segmentWidth != 0.0
      requires FlattenSafe(Points.Length, RoundHalfEven(startX / segmentWidth), RoundHalfEven(width / segmentWidth))
      modifies Points
      ensures Valid()
      ensures Points[..] == Flattened(old(Points[..]), RoundHalfEven(startX / segmentWidth), RoundHalfEven(width / segmentWidth))
    {
      var startIdx := RoundHalfEven(startX / segmentWidth);
      var count := RoundHalfEven(width / segmentWidth);
      Flatten(startIdx, count);
    }

    /** GetHeightAt on the current samples. */
    function GetHeightAt(xPos: real): (h: real)
      requires Valid() && (Points.Length >= 2 ==> segmentWidth > 0.0)
      reads this, Points
      ensures Points.Length < 2 ==> h == BaseY
      ensures Points.Length >= 2 && xPos <= Points[Points.Length - 1].x ==> 0.0 <= h <= BaseY
    {
      if Points.Length >= 2 && xPos <= Points[Points.Length - 1].x then
        HeightAtWithinBand(Points[..], segmentWidth, BaseY, xPos);
        HeightAt(Points[..], segmentWidth, BaseY, xPos)
      else
        HeightAt(Points[..], segmentWidth, BaseY, xPos)
    }
  }
}
