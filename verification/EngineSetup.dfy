/** The state GameEngine.Initialize builds (LanderGame/GameEngine.cs): a craft at rest
    at the top centre, a generated terrain, a sky of stars above it, and one landing
    pad on a levelled stretch near the start. Every random draw is a parameter. */
module EngineSetup {
  import opened Primitives
  import opened TerrainModel
  import opened LanderModel
  import opened LandingPadModel
  import opened EngineRules

  /** The pad width Initialize aims for, in world units. */
  const PadTargetWidth: real := 60.0

  /** The initial pad's length in segments: 60 / segW rounded, clamped to [1, 40]. */
  function PadSegments(segW: real): (n: int)
    requires segW > 0.0
    ensures 1 <= n <= TerrainSegments
    ensures 1 <= RoundHalfEven(PadTargetWidth / segW) <= TerrainSegments ==> n == RoundHalfEven(PadTargetWidth / segW)
  {
    ClampInt(RoundHalfEven(PadTargetWidth / segW), 1, TerrainSegments)
  }

  /** One star candidate: the two NextDouble() draws of one pass of the rejection loop. */
  datatype StarDraw = StarDraw(ux: real, uy: real)

  /** The point a candidate names: x scaled to the last terrain sample, y to the sky. */
  function Candidate(d: StarDraw, lastX: real, skyHeight: real): (p: Point) {
    Point(d.ux * lastX, d.uy * skyHeight)
  }

  /** Draws from [0, 1) name a point of the box from (0, 0) to (lastX, skyHeight). */
  lemma CandidateInBox(d: StarDraw, lastX: real, skyHeight: real)
    requires 0.0 <= d.ux < 1.0 && 0.0 <= d.uy < 1.0 && lastX >= 0.0 && skyHeight >= 0.0
    ensures 0.0 <= Candidate(d, lastX, skyHeight).x <= lastX
    ensures 0.0 <= Candidate(d, lastX, skyHeight).y <= skyHeight
  {
    FractionOf(d.ux, lastX);
    FractionOf(d.uy, skyHeight);
    assert Candidate(d, lastX, skyHeight) == Point(d.ux * lastX, d.uy * skyHeight);
  }

  /** The loop keeps a candidate only when it lies strictly above the terrain surface. */
  predicate AboveTerrain(pts: seq<Point>, segW: real, baseY: real, p: Point)
    requires Grid(pts, segW) && |pts| >= 2 && segW > 0.0
  {
    p.y < HeightAt(pts, segW, baseY, p.x)
  }

  /** The stars the rejection loop keeps from a run of candidates, in draw order. */
  function AcceptedStars(draws: seq<StarDraw>, pts: seq<Point>, segW: real, baseY: real, skyHeight: real): (r: seq<Point>)
    requires Grid(pts, segW) && |pts| >= 2 && segW > 0.0
    ensures |r| <= |draws|
    decreases |draws|
  {
    if |draws| == 0 then []
    else
      var p := Candidate(draws[0], pts[|pts| - 1].x, skyHeight);
      var rest := AcceptedStars(draws[1..], pts, segW, baseY, skyHeight);
      if AboveTerrain(pts, segW, baseY, p) then [p] + rest else rest
  }

  /** Every point of s lies strictly above the terrain. */
  predicate AllAbove(pts: seq<Point>, segW: real, baseY: real, s: seq<Point>)
    requires Grid(pts, segW) && |pts| >= 2 && segW > 0.0
  {
    forall i :: 0 <= i < |s| ==> AboveTerrain(pts, segW, baseY, s[i])
  }

  /** A prefix of points above the terrain is above the terrain. */
  lemma PrefixAllAbove(pts: seq<Point>, segW: real, baseY: real, s: seq<Point>, n: nat)
    requires Grid(pts, segW) && |pts| >= 2 && segW > 0.0
    requires AllAbove(pts, segW, baseY, s) && n <= |s|
    ensures AllAbove(pts, segW, baseY, s[..n])
  {
    forall i | 0 <= i < n ensures AboveTerrain(pts, segW, baseY, s[..n][i]) {
      assert s[..n][i] == s[i];
    }
  }

  /** Every star the loop keeps lies strictly above the terrain. */
  lemma {:induction false} AcceptedAreAbove(draws: seq<StarDraw>, pts: seq<Point>, segW: real, baseY: real, skyHeight: real)
    requires Grid(pts, segW) && |pts| >= 2 && segW > 0.0
    ensures AllAbove(pts, segW, baseY, AcceptedStars(draws, pts, segW, baseY, skyHeight))
    decreases |draws|
  {
    if |draws| > 0 {
      var p := Candidate(draws[0], pts[|pts| - 1].x, skyHeight);
      var rest := AcceptedStars(draws[1..], pts, segW, baseY, skyHeight);
      AcceptedAreAbove(draws[1..], pts, segW, baseY, skyHeight);
      if AboveTerrain(pts, segW, baseY, p) {
        var r := [p] + rest;
        forall i | 0 <= i < |r| ensures AboveTerrain(pts, segW, baseY, r[i]) {
          if i > 0 {
            assert r[i] == rest[i - 1];
          }
        }
      }
    }
  }

  /** The candidates from position k on: the first one is kept exactly when it lies
      above the terrain, and the rest are filtered the same way. */
  lemma AcceptedFrom(draws: seq<StarDraw>, k: nat, pts: seq<Point>, segW: real, baseY: real, skyHeight: real)
    requires Grid(pts, segW) && |pts| >= 2 && segW > 0.0
    requires k < |draws|
    ensures var p := Candidate(draws[k], pts[|pts| - 1].x, skyHeight);
            AcceptedStars(draws[k..], pts, segW, baseY, skyHeight)
              == (if AboveTerrain(pts, segW, baseY, p) then [p] else [])
                 + AcceptedStars(draws[k + 1..], pts, segW, baseY, skyHeight)
  {
    assert draws[k..][1..] == draws[k + 1..];
  }

  /** The initial pad on the generated samples: it starts at sample startIdx, spans
      PadSegments(segW) segments, and sits at the level Flatten gives that stretch. */
  function InitialPad(pts: seq<Point>, segW: real, startIdx: int): (p: PadState)
    requires segW > 0.0 && 0 <= startIdx < |pts|
    ensures p.x == startIdx as real * segW && p.width == PadSegments(segW) as real * segW
    ensures p.lightsVisible && !p.used && p.width >= 0.0
  {
    var n := PadSegments(segW);
    NonNegMul(n as real, segW);
    PadState(startIdx as real * segW, n as real * segW, PadLevel(pts, startIdx, n), true, false)
  }

  /** Initialize reads the pad's height back from the flattened samples as the mean of
      the two ends of the levelled range; both ends hold the level, so the pad it builds
      from that mean is the initial pad. */
  lemma InitialPadFields(pts: seq<Point>, segW: real, startIdx: int, n: int)
    requires segW > 0.0 && 0 <= startIdx && n == PadSegments(segW) && startIdx + n < |pts|
    ensures var f := Flattened(pts, startIdx, n);
            && (f[startIdx].y + f[startIdx + n].y) / 2.0 == InitialPad(pts, segW, startIdx).y
            && InitialPad(pts, segW, startIdx)
               == PadState(startIdx as real * segW, n as real * segW, (f[startIdx].y + f[startIdx + n].y) / 2.0, true, false)
  {
    var f := Flattened(pts, startIdx, n);
    assert FlattenEnd(|pts|, startIdx, n) == startIdx + n;
    assert f[startIdx].y == PadLevel(pts, startIdx, n) && f[startIdx + n].y == PadLevel(pts, startIdx, n);
  }

  /** Initialize's pad step on a world: padSegs segments from startIdx are levelled and
      the new pad is appended to the list. */
  function PlacePad(w: World, startIdx: int, padSegs: int, pad: PadState): (r: World)
    requires Wellformed(w) && 0 <= startIdx && startIdx + padSegs < |w.points| && padSegs >= 1
    requires pad.width >= 0.0
    ensures Wellformed(r)
    ensures |r.pads| == |w.pads| + 1 && r.pads[..|w.pads|] == w.pads && r.pads[|w.pads|] == pad
  {
    FlattenPreservesInvariant(w.points, w.segW, w.baseY, startIdx, padSegs);
    w.(points := Flattened(w.points, startIdx, padSegs), pads := w.pads + [pad])
  }

  /** Initialize's last step: not over, not landed, no crash message, the camera at 0
      and no key held; everything else is kept. */
  function StatusCleared(w: World): (r: World)
    ensures !r.gameOver && !r.landed && r.crashReason == "" && r.camera == 0.0
    ensures !r.thrusting && !r.rotatingLeft && !r.rotatingRight
    ensures r.craft == w.craft && r.points == w.points && r.pads == w.pads && r.stars == w.stars
    ensures r.debris == w.debris && r.gravity == w.gravity && r.segW == w.segW && r.baseY == w.baseY
  {
    w.(gameOver := false, landed := false, crashReason := "", camera := 0.0,
       thrusting := false, rotatingLeft := false, rotatingRight := false)
  }

  /** The world Initialize has built before it places the pad: the craft at
      (clientWidth / 2, 50) at rest with a full tank of 100, the 200 generated samples,
      no pad, no wreckage, the first 100 accepted stars, the gravity, and the status
      cleared (not over, not landed, no message, camera at 0, no key held). */
  function Built(clientWidth: int, clientHeight: int, gravity: real, units: seq<real>,
                 draws: seq<StarDraw>): (w: World)
    requires clientWidth > 0 && clientHeight as real >= TerrainHeight
    requires |units| == InitialTotalPoints
    requires var segW := clientWidth as real / TerrainSegments as real;
             var baseY := clientHeight as real - TerrainHeight;
             |AcceptedStars(draws, Generated(units, segW, baseY, TerrainVariation), segW, baseY, baseY)| >= StarCount
    ensures Wellformed(w) && |w.points| == InitialTotalPoints
  {
    var segW := clientWidth as real / TerrainSegments as real;
    var baseY := clientHeight as real - TerrainHeight;
    var raw := Generated(units, segW, baseY, TerrainVariation);
    World(Craft((clientWidth / 2) as real, StartY, 0.0, 0.0, 0.0, StartFuel, StartFuel),
          raw, segW, baseY, [], false, "", false, 0.0, [],
          AcceptedStars(draws, raw, segW, baseY, baseY)[..StarCount],
          false, false, false, gravity)
  }

  /** What Initialize(clientWidth, clientHeight, gravity) leaves: the built world with
      the initial pad placed on its levelled stretch. */
  function InitialWorld(clientWidth: int, clientHeight: int, gravity: real, units: seq<real>,
                        draws: seq<StarDraw>, startIdx: int): (w: World)
    requires clientWidth > 0 && clientHeight as real >= TerrainHeight
    requires |units| == InitialTotalPoints
    requires 0 <= startIdx <= TerrainSegments - PadSegments(clientWidth as real / TerrainSegments as real)
    requires var segW := clientWidth as real / TerrainSegments as real;
             var baseY := clientHeight as real - TerrainHeight;
             |AcceptedStars(draws, Generated(units, segW, baseY, TerrainVariation), segW, baseY, baseY)| >= StarCount
    ensures Consistent(w)
  {
    var b := Built(clientWidth, clientHeight, gravity, units, draws);
    PlacePad(b, startIdx, PadSegments(b.segW), InitialPad(b.points, b.segW, startIdx))
  }

  /** Placing the pad does not look at the status flags: clearing them before or after
      the pad is placed gives the same world. */
  lemma ClearedAfterPadIgnoresStatus(w: World, startIdx: int, padSegs: int, pad: PadState)
    requires Wellformed(w) && 0 <= startIdx && startIdx + padSegs < |w.points| && padSegs >= 1
    requires pad.width >= 0.0
    ensures StatusCleared(PlacePad(w, startIdx, padSegs, pad)) == PlacePad(StatusCleared(w), startIdx, padSegs, pad)
  {
  }

  /** After Initialize: one pad, no wreckage, no crash, not landed, the camera at 0, no
      key held, the craft at rest at (clientWidth / 2, 50) with 100 units of fuel, and
      100 stars, each above the terrain as it was generated (before the pad's stretch
      was levelled). */
  lemma InitialState(clientWidth: int, clientHeight: int, gravity: real, units: seq<real>,
                     draws: seq<StarDraw>, startIdx: int)
    requires clientWidth > 0 && clientHeight as real >= TerrainHeight
    requires |units| == InitialTotalPoints
    requires 0 <= startIdx <= TerrainSegments - PadSegments(clientWidth as real / TerrainSegments as real)
    requires var segW := clientWidth as real / TerrainSegments as real;
             var baseY := clientHeight as real - TerrainHeight;
             |AcceptedStars(draws, Generated(units, segW, baseY, TerrainVariation), segW, baseY, baseY)| >= StarCount
    ensures var w := InitialWorld(clientWidth, clientHeight, gravity, units, draws, startIdx);
            var segW := clientWidth as real / TerrainSegments as real;
            var baseY := clientHeight as real - TerrainHeight;
            var raw := Generated(units, segW, baseY, TerrainVariation);
            && |w.pads| == 1 && w.debris == [] && !w.gameOver && !w.landed && w.crashReason == ""
            && w.camera == 0.0 && !w.thrusting && !w.rotatingLeft && !w.rotatingRight
            && w.craft == Craft((clientWidth / 2) as real, 50.0, 0.0, 0.0, 0.0, 100.0, 100.0)
            && |w.points| == 200 && w.segW == segW && w.gravity == gravity
            && |w.stars| == 100 && AllAbove(raw, segW, baseY, w.stars)
  {
    var segW := clientWidth as real / TerrainSegments as real;
    var baseY := clientHeight as real - TerrainHeight;
    var raw := Generated(units, segW, baseY, TerrainVariation);
    AcceptedAreAbove(draws, raw, segW, baseY, baseY);
    PrefixAllAbove(raw, segW, baseY, AcceptedStars(draws, raw, segW, baseY, baseY), StarCount);
  }

  /** The terrain under the initial pad, ends included, is level at exactly the pad's
      height once the pad's stretch of the generated samples has been flattened. */
  lemma InitialPadIsLevel(raw: seq<Point>, segW: real, baseY: real, startIdx: int, x: real)
    requires Grid(raw, segW) && |raw| == InitialTotalPoints && segW > 0.0
    requires 0 <= startIdx <= TerrainSegments - PadSegments(segW)
    requires var pad := InitialPad(raw, segW, startIdx);
             pad.x <= x <= pad.x + pad.width
    ensures HeightAt(Flattened(raw, startIdx, PadSegments(segW)), segW, baseY, x) == InitialPad(raw, segW, startIdx).y
  {
    var n := PadSegments(segW);
    assert FlattenEnd(|raw|, startIdx, n) == startIdx + n;
    assert startIdx as real * segW + n as real * segW == (startIdx + n) as real * segW;
    FlattenedHeightIsLevel(raw, segW, baseY, startIdx, n, x);
  }
}
