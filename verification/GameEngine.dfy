/** The game engine object (LanderGame/GameEngine.cs): it owns the craft, the terrain,
    the pads, the wreckage and the stars, and advances them one frame per Tick. Every
    operation is proved to move the engine's Snapshot exactly as the value-level rules
    of EngineRules and EngineSetup say; the properties are proved about those rules. */
module GameEngineModel {
  import opened Primitives
  import opened TerrainModel
  import opened LanderModel
  import opened LandingPadModel
  import opened EngineRules
  import opened EngineSetup

  /** The observable state of each pad object, in list order. */
  function PadStates(ps: seq<LandingPad>): (r: seq<PadState>)
    reads ps
    ensures |r| == |ps|
    ensures forall i :: 0 <= i < |ps| ==> r[i] == ps[i].State()
  {
    seq(|ps|, i requires 0 <= i < |ps| reads ps => ps[i].State())
  }

  class GameEngine {
    var lander: Lander?
    var terrain: Terrain?
    var pads: seq<LandingPad>
    var gameOver: bool
    var crashReason: string
    var landedSuccess: bool
    var gravity: real
    var cameraX: real
    var debris: seq<Fragment>
    var stars: seq<Point>
    var thrusting: bool
    var rotatingLeft: bool
    var rotatingRight: bool

    /** Initialized: a craft and a terrain of at least two samples exist, pad widths are
        non-negative, and no pad object appears twice in the list. */
    ghost predicate Valid()
      reads this, lander, terrain, pads
      reads if terrain != null then {terrain.Points} else {}
    {
      && lander != null && terrain != null
      && terrain.Valid() && terrain.Points.Length >= 2 && terrain.segmentWidth > 0.0
      && (forall i :: 0 <= i < |pads| ==> pads[i].Width >= 0.0)
      && (forall i :: 0 <= i < |pads| ==> pads[i].serial == i)
    }

    /** The engine's whole state as a value. */
    function Snapshot(): (w: World)
      requires Valid()
      reads this, lander, terrain, terrain.Points, pads
      ensures Wellformed(w)
    {
      World(lander.State(), terrain.Points[..], terrain.segmentWidth, terrain.BaseY,
            PadStates(pads), gameOver, crashReason, landedSuccess, cameraX, debris, stars,
            thrusting, rotatingLeft, rotatingRight, gravity)
    }

    /** A new engine holds no craft and no terrain until Initialize runs. */
    constructor ()
      ensures lander == null && terrain == null && pads == [] && debris == [] && stars == []
      ensures !gameOver && !landedSuccess && crashReason == "" && cameraX == 0.0 && gravity == 0.0
      ensures !thrusting && !rotatingLeft && !rotatingRight
    {
      lander := null;
      terrain := null;
      pads := [];
      gameOver := false;
      crashReason := "";
      landedSuccess := false;
      gravity := 0.0;
      cameraX := 0.0;
      debris := [];
      stars := [];
      thrusting := false;
      rotatingLeft := false;
      rotatingRight := false;
    }

    /** Builds a new game. `units` are the terrain's 200 NextDouble() draws, `draws` the
        star candidates, and `startIdx` the Next(0, 40 - padSegs + 1) draw. */
    method Initialize(clientWidth: int, clientHeight: int, selectedGravity: real, units: seq<real>,
                      draws: seq<StarDraw>, startIdx: int)
      requires clientWidth > 0 && clientHeight as real >= TerrainHeight
      requires |units| == InitialTotalPoints
      requires 0 <= startIdx <= TerrainSegments - PadSegments(clientWidth as real / TerrainSegments as real)
      requires var segW := clientWidth as real / TerrainSegments as real;
               var baseY := clientHeight as real - TerrainHeight;
               |AcceptedStars(draws, Generated(units, segW, baseY, TerrainVariation), segW, baseY, baseY)| >= StarCount
      modifies this
      ensures Valid() && fresh(lander) && fresh(terrain) && fresh(terrain.Points)
      ensures Snapshot() == InitialWorld(clientWidth, clientHeight, selectedGravity, units, draws, startIdx)
    {
      BuildWorld(clientWidth, clientHeight, selectedGravity, units, draws);
      var segW := clientWidth as real / TerrainSegments as real;
      ghost var built := Snapshot();
      var padSegs := ClampInt(RoundHalfEven(PadTargetWidth / segW), 1, TerrainSegments);
      PlaceInitialPad(startIdx, padSegs, segW);
      ClearStatus();
      ClearedAfterPadIgnoresStatus(built, startIdx, padSegs, InitialPad(built.points, built.segW, startIdx));
    }

    /** Initialize up to the pad: the craft, the generated terrain and the stars. */
    method BuildWorld(clientWidth: int, clientHeight: int, selectedGravity: real, units: seq<real>,
                      draws: seq<StarDraw>)
      requires clientWidth > 0 && clientHeight as real >= TerrainHeight
      requires |units| == InitialTotalPoints
      requires var segW := clientWidth as real / TerrainSegments as real;
               var baseY := clientHeight as real - TerrainHeight;
               |AcceptedStars(draws, Generated(units, segW, baseY, TerrainVariation), segW, baseY, baseY)| >= StarCount
      modifies this
      ensures Valid() && fresh(lander) && fresh(terrain) && fresh(terrain.Points) && pads == []
      ensures StatusCleared(Snapshot()) == Built(clientWidth, clientHeight, selectedGravity, units, draws)
    {
      var t := CreateObjects(clientWidth, clientHeight, selectedGravity);
      t.Generate(units, clientWidth as real);
      GenerateStars(draws, clientHeight,
                    Generated(units, clientWidth as real / TerrainSegments as real, clientHeight as real - TerrainHeight, TerrainVariation),
                    clientWidth as real / TerrainSegments as real, clientHeight as real - TerrainHeight);
      ghost var w := Snapshot();
      ghost var b := Built(clientWidth, clientHeight, selectedGravity, units, draws);
      assert w.craft == b.craft;
      assert w.segW == b.segW;
      assert w.baseY == b.baseY;
      assert w.points == b.points;
      assert w.stars == b.stars;
      assert w.pads == b.pads;
      assert w.debris == b.debris;
    }

    /** The first lines of Initialize: a new craft at the top centre and a new, empty
        terrain; pads, wreckage and stars cleared; the gravity set. */
    method CreateObjects(clientWidth: int, clientHeight: int, selectedGravity: real) returns (t: Terrain)
      requires clientHeight as real >= TerrainHeight
      modifies this
      ensures fresh(lander) && fresh(t) && fresh(t.Points) && terrain == t
      ensures lander.State() == Craft((clientWidth / 2) as real, StartY, 0.0, 0.0, 0.0, StartFuel, StartFuel)
      ensures t.visibleCount == TerrainSegments && t.Variation == TerrainVariation && t.BaseY == clientHeight as real - TerrainHeight
      ensures t.Valid() && t.Points.Length == 0
      ensures pads == [] && debris == [] && stars == [] && gravity == selectedGravity
    {
      lander := new Lander((clientWidth / 2) as real, StartY, StartFuel);
      t := new Terrain(TerrainSegments, TerrainVariation, clientHeight as real - TerrainHeight);
      terrain := t;
      pads, debris, stars := [], [], [];
      gravity := selectedGravity;
    }

    /** The pad-creating part of Initialize: level padSegs segments from startIdx on,
        then add an unused, lit pad spanning them at the level height. */
    method PlaceInitialPad(startIdx: int, padSegs: int, segW: real)
      requires Valid() && pads == [] && segW == terrain.segmentWidth
      requires 0 <= startIdx && startIdx + padSegs < terrain.Points.Length && padSegs == PadSegments(segW)
      modifies this`pads, terrain.Points
      ensures Valid()
      ensures Snapshot() == PlacePad(old(Snapshot()), startIdx, padSegs,
                                     InitialPad(old(Snapshot()).points, old(Snapshot()).segW, startIdx))
    {
      ghost var w0 := Snapshot();
      ghost var raw := terrain.Points[..];
      LevelStretch(startIdx, padSegs);
      var endIdx := startIdx + padSegs;
      InitialPadFields(raw, segW, startIdx, padSegs);
      assert terrain.Points[..] == Flattened(raw, startIdx, padSegs);
      var padY := (terrain.Points[startIdx].y + terrain.Points[endIdx].y) / 2.0;
      var padXCoord := startIdx as real * segW;
      var padW := padSegs as real * segW;
      NonNegMul(padSegs as real, segW);
      var initialPad := new LandingPad(padXCoord, padW, padY, BlinkIntervalMs, 0);
      assert initialPad.State() == InitialPad(w0.points, w0.segW, startIdx);
      AppendPad(initialPad);
    }

    /** terrain.Flatten(startIdx, padSegments) seen from the engine: only the samples change. */
    method LevelStretch(startIdx: int, padSegments: int)
      requires Valid() && FlattenSafe(terrain.Points.Length, startIdx, padSegments)
      modifies terrain.Points
      ensures Valid()
      ensures Snapshot() == old(Snapshot()).(points := Flattened(old(Snapshot()).points, startIdx, padSegments))
    {
      ghost var w0 := Snapshot();
      terrain.Flatten(startIdx, padSegments);
      assert lander.State() == w0.craft;
      assert PadStates(pads) == w0.pads;
    }

    /** pads.Add(p) for a pad object made just before: it goes to the end of the list. */
    method AppendPad(p: LandingPad)
      requires Valid() && p.serial == |pads| && p.Width >= 0.0
      modifies this`pads
      ensures Valid() && Snapshot() == old(Snapshot()).(pads := old(Snapshot()).pads + [p.State()])
    {
      ghost var w0 := Snapshot();
      pads := pads + [p];
      assert lander.State() == w0.craft;
      assert terrain.Points[..] == w0.points;
      assert PadStates(pads) == w0.pads + [p.State()];
    }

    /** The last lines of Initialize: the game is neither over nor landed, the crash
        message is empty, the camera is back at 0 and no key is held. */
    method ClearStatus()
      requires Valid()
      modifies this`gameOver, this`landedSuccess, this`crashReason, this`cameraX,
               this`thrusting, this`rotatingLeft, this`rotatingRight
      ensures Valid() && Snapshot() == StatusCleared(old(Snapshot()))
    {
      ghost var w0 := Snapshot();
      gameOver, landedSuccess, crashReason, cameraX, thrusting, rotatingLeft, rotatingRight
        := false, false, "", 0.0, false, false, false;
      assert lander.State() == w0.craft;
      assert terrain.Points[..] == w0.points;
      assert PadStates(pads) == w0.pads;
    }

    /** Reset is Initialize. */
    method Reset(clientWidth: int, clientHeight: int, selectedGravity: real, units: seq<real>,
                 draws: seq<StarDraw>, startIdx: int)
      requires clientWidth > 0 && clientHeight as real >= TerrainHeight
      requires |units| == InitialTotalPoints
      requires 0 <= startIdx <= TerrainSegments - PadSegments(clientWidth as real / TerrainSegments as real)
      requires var segW := clientWidth as real / TerrainSegments as real;
               var baseY := clientHeight as real - TerrainHeight;
               |AcceptedStars(draws, Generated(units, segW, baseY, TerrainVariation), segW, baseY, baseY)| >= StarCount
      modifies this
      ensures Valid() && fresh(lander) && fresh(terrain) && fresh(terrain.Points)
      ensures Snapshot() == InitialWorld(clientWidth, clientHeight, selectedGravity, units, draws, startIdx)
    {
      Initialize(clientWidth, clientHeight, selectedGravity, units, draws, startIdx);
    }

    /** The rejection loop: for each of the 100 stars, candidates are drawn until one
        lies strictly above the terrain. `pts`, `segW` and `baseY` name the terrain's
        samples, segment width and baseline. */
    method GenerateStars(draws: seq<StarDraw>, clientHeight: int, ghost pts: seq<Point>, ghost segW: real, ghost baseY: real)
      requires terrain != null && terrain.Valid() && terrain.Points.Length >= 2 && terrain.segmentWidth > 0.0
      requires pts == terrain.Points[..] && segW == terrain.segmentWidth && baseY == terrain.BaseY
      requires |AcceptedStars(draws, pts, segW, baseY, clientHeight as real - TerrainHeight)| >= StarCount
      modifies this`stars
      ensures stars == AcceptedStars(draws, pts, segW, baseY, clientHeight as real - TerrainHeight)[..StarCount]
    {
      ghost var skyHeight := clientHeight as real - TerrainHeight;
      stars := [];
      var next := 0;
      ghost var all := AcceptedStars(draws, pts, segW, baseY, skyHeight);
      assert draws[next..] == draws;
      for i := 0 to StarCount
        invariant next <= |draws|
        invariant |stars| == i
        invariant stars + AcceptedStars(draws[next..], pts, segW, baseY, skyHeight) == all
      {
        ghost var rest := AcceptedStars(draws[next..], pts, segW, baseY, skyHeight);
        assert |all| == |stars| + |rest|;
        var star;
        star, next := NextStar(draws, next, clientHeight);
        ghost var remaining := AcceptedStars(draws[next..], pts, segW, baseY, skyHeight);
        assert rest == [star] + remaining;
        assert (stars + [star]) + remaining == stars + rest;
        stars := stars + [star];
      }
      assert stars == all[..StarCount];
    }

    /** One pass of the rejection loop: draw candidates from position `next` on until one
        lies above the terrain; that one is the next accepted star. */
    method NextStar(draws: seq<StarDraw>, next: nat, clientHeight: int) returns (star: Point, after: nat)
      requires terrain != null && terrain.Valid() && terrain.Points.Length >= 2 && terrain.segmentWidth > 0.0
      requires next <= |draws|
      requires var skyHeight := clientHeight as real - TerrainHeight;
               |AcceptedStars(draws[next..], terrain.Points[..], terrain.segmentWidth, terrain.BaseY, skyHeight)| >= 1
      ensures next < after <= |draws|
      ensures var skyHeight := clientHeight as real - TerrainHeight;
              var pts := terrain.Points[..];
              AcceptedStars(draws[next..], pts, terrain.segmentWidth, terrain.BaseY, skyHeight)
                == [star] + AcceptedStars(draws[after..], pts, terrain.segmentWidth, terrain.BaseY, skyHeight)
    {
      var pts := terrain.Points[..];
      var segW := terrain.segmentWidth;
      var baseY := terrain.BaseY;
      var lastX := terrain.Points[terrain.Points.Length - 1].x;
      var skyHeight := clientHeight as real - TerrainHeight;
      ghost var target := AcceptedStars(draws[next..], pts, segW, baseY, skyHeight);
      var x, y := 0.0, 0.0;
      var accepted := false;
      after := next;
      while !accepted
        invariant next <= after <= |draws|
        invariant !accepted ==> target == AcceptedStars(draws[after..], pts, segW, baseY, skyHeight)
        invariant accepted ==> next < after && target == [Point(x, y)] + AcceptedStars(draws[after..], pts, segW, baseY, skyHeight)
        decreases |draws| - after, !accepted
      {
        if after == |draws| {
          assert false;
        }
        AcceptedFrom(draws, after, pts, segW, baseY, skyHeight);
        var c := Candidate(draws[after], lastX, skyHeight);
        x, y := c.x, c.y;
        after := after + 1;
        accepted := y < terrain.GetHeightAt(x);
        assert accepted == AboveTerrain(pts, segW, baseY, c);
      }
      star := Point(x, y);
    }

    /** Overwrites the three input flags; nothing else changes. */
    method UpdateInput(thrust: bool, rotLeft: bool, rotRight: bool)
      modifies this`thrusting, this`rotatingLeft, this`rotatingRight
      ensures thrusting == thrust && rotatingLeft == rotLeft && rotatingRight == rotRight
      ensures old(Valid()) ==> Valid() && Snapshot() == old(Snapshot()).(thrusting := thrust, rotatingLeft := rotLeft, rotatingRight := rotRight)
    {
      thrusting := thrust;
      rotatingLeft := rotLeft;
      rotatingRight := rotRight;
    }

    /** pads.FirstOrDefault(p => !p.IsUsed && x >= p.X && x <= p.X + p.Width), as an index. */
    method FindPad(x: real) returns (k: Option<nat>)
      ensures k == FirstUnusedContaining(PadStates(pads), x)
    {
      var i := 0;
      while i < |pads|
        invariant 0 <= i <= |pads|
        invariant forall j :: 0 <= j < i ==> !Available(pads[j].State(), x)
      {
        var p := pads[i];
        if !p.IsUsed && x >= p.X && x <= p.X + p.Width {
          assert Available(PadStates(pads)[i], x);
          return Some(i);
        }
        i := i + 1;
      }
      return None;
    }

    /** The newest pad, pads.Last(). Under the engine invariant it is the only pad not
        yet landed on. */
    function CurrentPad(): (p: LandingPad)
      requires Valid() && |pads| >= 1
      reads this, lander, terrain, terrain.Points, pads
      ensures p == pads[|pads| - 1]
      ensures Consistent(Snapshot()) ==> !p.IsUsed && forall i :: 0 <= i < |pads| - 1 ==> pads[i].IsUsed
    {
      pads[|pads| - 1]
    }

    /** The terrain height under x. */
    function GetTerrainYAt(xPos: real): (h: real)
      requires Valid()
      reads this, lander, terrain, terrain.Points, pads
      ensures h == TerrainYAt(Snapshot(), xPos)
      ensures xPos <= terrain.Points[terrain.Points.Length - 1].x ==> 0.0 <= h <= terrain.BaseY
    {
      terrain.GetHeightAt(xPos)
    }

    /** Adds one wreckage piece per angle draw (NextDouble() * 2 * pi), all at (x, y). */
    method GenerateDebris(x: real, y: real, angles: seq<real>, sin: real -> real, cos: real -> real)
      requires |angles| == DebrisCount
      modifies this`debris
      ensures debris == old(debris) + Fragments(x, y, angles, sin, cos)
    {
      ghost var before := debris;
      for i := 0 to DebrisCount
        invariant debris == before + Fragments(x, y, angles[..i], sin, cos)
      {
        var a := angles[i];
        var start := Point(x, y);
        var end := Point(x + cos(a) * 10.0, y + sin(a) * 10.0);
        debris := debris + [Fragment(start, end, (end.x - start.x) * 0.1, (end.y - start.y) * 0.1)];
        assert Fragments(x, y, angles[..i + 1], sin, cos) == Fragments(x, y, angles[..i], sin, cos) + [MakeFragment(x, y, a, sin, cos)];
      }
      assert angles[..DebrisCount] == angles;
    }

    /** Moves every piece of wreckage by its velocity and adds gravity to its vertical
        velocity (one piece is moved as Drift says), walking the list from the back. */
    method UpdateDebris(delta: real)
      modifies this`debris
      ensures debris == DriftAll(old(debris), delta, gravity)
    {
      ghost var before := debris;
      if |debris| > 0 {
        var i := |debris| - 1;
        while i >= 0
          invariant -1 <= i < |debris| && |debris| == |before|
          invariant forall j :: 0 <= j <= i ==> debris[j] == before[j]
          invariant forall j :: i < j < |debris| ==> debris[j] == Drift(before[j], delta, gravity)
        {
          debris := debris[i := Drift(debris[i], delta, gravity)];
          i := i - 1;
        }
      }
      assert debris == DriftAll(before, delta, gravity);
    }

    /** A safe touchdown on pad k: the craft is set down at rest and refuelled, the pad
        stops blinking, and a new pad is spawned offset segments to the right on a
        levelled stretch of terrain. */
    method LandOnPad(k: nat, x: real, terrainY: real, segW: real, offset: int)
      requires Valid() && k < |pads| && x == lander.X
      modifies this`landedSuccess, this`pads, lander, terrain.Points, pads[k]
      ensures Valid() && lander == old(lander) && terrain == old(terrain)
      ensures Snapshot() == LandOn(old(Snapshot()), k, terrainY, segW, offset)
    {
      SettleOnPad(k, x, terrainY);
      SpawnPad(k, segW, offset);
    }

    /** The first half of LandOnPad: craft set down and refuelled, pad k stopped. */
    method SettleOnPad(k: nat, x: real, terrainY: real)
      requires Valid() && k < |pads| && x == lander.X
      modifies this`landedSuccess, lander, pads[k]
      ensures Valid() && Snapshot() == Settle(old(Snapshot()), k, terrainY)
    {
      ghost var w0 := Snapshot();
      lander.SetState(x, terrainY - GearClearance, lander.Angle, 0.0, 0.0);
      lander.Refuel();
      pads[k].StopBlinking();
      landedSuccess := true;
      assert lander.State() == w0.craft.(y := terrainY - GearClearance, vx := 0.0, vy := 0.0, fuel := w0.craft.maxFuel);
      assert terrain.Points[..] == w0.points;
      assert PadStates(pads) == w0.pads[k := Stopped(w0.pads[k])];
    }

    /** The second half of LandOnPad: the next pad, offset Tick-segments right of pad k. */
    method SpawnPad(k: nat, segW: real, offset: int)
      requires Valid() && k < |pads|
      modifies this`pads, terrain.Points
      ensures Valid() && Snapshot() == SpawnNext(old(Snapshot()), k, segW, offset)
    {
      ghost var w0 := Snapshot();
      var pad := pads[k];
      var nextX := pad.X + offset as real * segW;
      var nextW := pad.Width;
      assert nextX == SpawnX(w0.pads[k].x, offset, segW) && nextW == w0.pads[k].width;
      DivMonotone(0.0, nextW, terrain.segmentWidth);
      LevelStretchAt(nextX, nextW);
      var nextY := terrain.GetHeightAt(nextX);
      var newPad := new LandingPad(nextX, nextW, nextY, BlinkIntervalMs, |pads|);
      AppendPad(newPad);
    }

    /** terrain.FlattenAt(startX, width) seen from the engine: only the samples change. */
    method LevelStretchAt(startX: real, width: real)
      requires Valid()
      requires FlattenSafe(terrain.Points.Length, RoundHalfEven(startX / terrain.segmentWidth),
                           RoundHalfEven(width / terrain.segmentWidth))
      modifies terrain.Points
      ensures Valid()
      ensures Snapshot() == old(Snapshot()).(points := Flattened(old(Snapshot()).points,
                RoundHalfEven(startX / old(Snapshot()).segW), RoundHalfEven(width / old(Snapshot()).segW)))
    {
      ghost var w0 := Snapshot();
      terrain.FlattenAt(startX, width);
      assert lander.State() == w0.craft;
      assert PadStates(pads) == w0.pads;
    }

    /** Any other touchdown: the craft is set down with zero velocity, the game ends with
        the reason chain's message, and 30 pieces of wreckage start at (x, y). */
    method CrashOnGround(k: Option<nat>, x: real, y: real, vx: real, vy: real, terrainY: real,
                         angles: seq<real>, sin: real -> real, cos: real -> real)
      requires Valid() && |angles| == DebrisCount
      requires x == lander.X && y == lander.Y && vx == lander.Vx && vy == lander.Vy
      requires k.Some? ==> k.value < |pads|
      modifies this, lander
      ensures Valid() && lander == old(lander) && terrain == old(terrain) && pads == old(pads)
      ensures Snapshot() == CrashAt(old(Snapshot()), if k.Some? then Some(old(pads[k.value].State())) else None,
                                    terrainY, angles, sin, cos)
    {
      ghost var w0 := Snapshot();
      ghost var found := if k.Some? then Some(pads[k.value].State()) else None;
      lander.SetState(x, terrainY - GearClearance, lander.Angle, 0.0, 0.0);
      var reason;
      if k.None? {
        reason := "Crashed: no pad";
      } else if Abs(vx) > MaxLandingSpeed || Abs(vy) > MaxLandingSpeed {
        reason := "Crashed: excessive speed";
      } else if x < pads[k.value].X || x > pads[k.value].X + pads[k.value].Width {
        reason := "Crashed: missed pad";
      } else if Abs(lander.Angle * RadToDeg) > LandingAngleToleranceDeg {
        reason := "Crashed: bad angle";
      } else {
        reason := "Crashed";
      }
      assert reason == CrashReason(found, w0.craft.x, w0.craft.vx, w0.craft.vy, w0.craft.angle);
      gameOver, crashReason := true, reason;
      GenerateDebris(x, y, angles, sin, cos);
      assert lander.State() == w0.craft.(y := terrainY - GearClearance, vx := 0.0, vy := 0.0);
      assert terrain.Points[..] == w0.points;
      assert PadStates(pads) == w0.pads;
    }

    /** One frame. `offset` is the Next(100, 201) draw for the next pad and `angles` the
        30 wreckage angles, used only when the frame ends in a landing or a crash. */
    method Tick(delta: real, clientWidth: int, offset: int, angles: seq<real>, sin: real -> real, cos: real -> real)
      requires Valid() && 100 <= offset <= 200 && |angles| == DebrisCount
      modifies this, lander, terrain.Points, pads
      ensures Valid() && lander == old(lander) && terrain == old(terrain)
      ensures Snapshot() == TickModel(old(Snapshot()), delta, clientWidth, offset, angles, sin, cos)
    {
      ghost var w := Snapshot();
      if landedSuccess {
        if thrusting || rotatingLeft || rotatingRight {
          landedSuccess := false;
          lander.Update(delta, thrusting, rotatingLeft, rotatingRight, gravity, sin, cos);
        } else {
          return;
        }
      } else {
        lander.Update(delta, thrusting, rotatingLeft, rotatingRight, gravity, sin, cos);
      }
      assert Snapshot() == Launched(w, delta, sin, cos);
      ResolveContact(delta, clientWidth, offset, angles, sin, cos);
    }

    /** The rest of a frame once the craft has moved: a touchdown lands or crashes,
        otherwise the camera follows and the wreckage drifts. */
    method ResolveContact(delta: real, clientWidth: int, offset: int, angles: seq<real>,
                          sin: real -> real, cos: real -> real)
      requires Valid() && 100 <= offset <= 200 && |angles| == DebrisCount
      modifies this, lander, terrain.Points, pads
      ensures Valid() && lander == old(lander) && terrain == old(terrain)
      ensures Snapshot() == Resolve(old(Snapshot()), delta, clientWidth, offset, angles, sin, cos)
    {
      ghost var w := Snapshot();
      var x, y, vx, vy := lander.X, lander.Y, lander.Vx, lander.Vy;
      var segW := clientWidth as real / TerrainSegments as real;
      var terrainY := terrain.GetHeightAt(x);
      if !gameOver && vy >= 0.0 && y + GearClearance >= terrainY {
        var k := FindPad(x);
        assert w.craft == lander.State();
        assert terrainY == TerrainYAt(w, x);
        assert k == FirstUnusedContaining(w.pads, x);
        assert Contact(w, terrainY);
        var angle := lander.Angle;
        assert vx == w.craft.vx && vy == w.craft.vy && angle == w.craft.angle;
        if k.Some? && SafeSpeed(vx, vy) && SafeAngle(angle) {
          ResolvedAsLanding(w, delta, clientWidth, offset, angles, sin, cos, k.value);
          LandOnPad(k.value, x, terrainY, segW, offset);
          return;
        }
        ResolvedAsCrash(w, delta, clientWidth, offset, angles, sin, cos);
        CrashOnGround(k, x, y, vx, vy, terrainY, angles, sin, cos);
        return;
      }
      ResolvedAsCoast(w, delta, clientWidth, offset, angles, sin, cos);
      FollowCraft(delta, clientWidth);
    }

    /** Flight without touchdown: the camera follows the craft unless the game is over,
        and the wreckage drifts. */
    method FollowCraft(delta: real, clientWidth: int)
      requires Valid()
      modifies this`cameraX, this`debris
      ensures Valid() && Snapshot() == Coast(old(Snapshot()), delta, clientWidth)
    {
      var x := lander.X;
      if !gameOver {
        if x - cameraX < ScrollMargin {
          cameraX := MaxReal(0.0, x - ScrollMargin);
        } else if x - cameraX > clientWidth as real - ScrollMargin {
          cameraX := x - (clientWidth as real - ScrollMargin);
        }
      }
      UpdateDebris(delta);
    }
  }
}
