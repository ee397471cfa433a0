/** The per-tick rules of the game engine (LanderGame/GameEngine.cs) over a value that
    holds the whole game state. The GameEngine class is proved to follow these rules;
    the lemmas here say what a tick, a landing, a crash and the camera rule promise. */
module EngineRules {
  import opened Primitives
  import opened TerrainModel
  import opened LanderModel
  import opened LandingPadModel

  const TerrainHeight: real := 20.0
  const TerrainSegments: int := 40
  const TerrainVariation: real := 500.0
  const ScrollMargin: real := 500.0
  const BlinkIntervalMs: int := 500
  const Pi: real := 3.141592653589793
  const RadToDeg: real := 180.0 / Pi
  const LandingAngleToleranceDeg: real := 15.0
  const MaxLandingSpeed: real := 0.5
  const StarCount: nat := 100
  const DebrisCount: nat := 30
  /** Distance from the craft's origin down to its landing gear. */
  const GearClearance: real := 20.0
  const StartFuel: real := 100.0
  const StartY: real := 50.0

  /** One piece of wreckage: a short segment and its velocity. */
  datatype Fragment = Fragment(start: Point, end: Point, vx: real, vy: real)

  /** The whole engine state. Pads are kept in creation order. */
  datatype World = World(
    craft: Craft,
    points: seq<Point>, segW: real, baseY: real,
    pads: seq<PadState>,
    gameOver: bool, crashReason: string, landed: bool,
    camera: real,
    debris: seq<Fragment>,
    stars: seq<Point>,
    thrusting: bool, rotatingLeft: bool, rotatingRight: bool,
    gravity: real)

  /** The terrain is a valid sample grid and every pad has a non-negative width. */
  ghost predicate Wellformed(w: World) {
    && |w.points| >= 2 && w.segW > 0.0 && w.baseY >= 0.0
    && Grid(w.points, w.segW) && InBand(w.points, w.baseY)
    && forall i :: 0 <= i < |w.pads| ==> w.pads[i].width >= 0.0
  }

  function TerrainYAt(w: World, x: real): (r: real)
    requires Wellformed(w)
  {
    HeightAt(w.points, w.segW, w.baseY, x)
  }

  /** The collision test: the game is running, the craft is not rising, and its gear
      has reached the terrain. */
  predicate Contact(w: World, terrainY: real) {
    !w.gameOver && w.craft.vy >= 0.0 && w.craft.y + GearClearance >= terrainY
  }

  predicate SafeSpeed(vx: real, vy: real) {
    Abs(vx) <= MaxLandingSpeed && Abs(vy) <= MaxLandingSpeed
  }

  predicate SafeAngle(angle: real) {
    Abs(angle * RadToDeg) <= LandingAngleToleranceDeg
  }

  predicate Available(p: PadState, x: real) {
    !p.used && Covers(p, x)
  }

  /** The first pad, in creation order, that is unused and spans x. */
  function FirstUnusedContaining(pads: seq<PadState>, x: real): (r: Option<nat>)
    ensures r.Some? ==> r.value < |pads| && Available(pads[r.value], x)
    ensures r.Some? ==> forall j :: 0 <= j < r.value ==> !Available(pads[j], x)
    ensures r.None? <==> forall j :: 0 <= j < |pads| ==> !Available(pads[j], x)
    decreases |pads|
  {
    if |pads| == 0 then None
    else if Available(pads[0], x) then Some(0)
    else
      match FirstUnusedContaining(pads[1..], x)
      case None => None
      case Some(j) => Some(j + 1)
  }

  /** The crash message; the conditions are tried in the source's order. */
  function CrashReason(pad: Option<PadState>, x: real, vx: real, vy: real, angle: real): (s: string)
    ensures s != ""
  {
    if pad.None? then "Crashed: no pad"
    else if Abs(vx) > MaxLandingSpeed || Abs(vy) > MaxLandingSpeed then "Crashed: excessive speed"
    else if x < pad.value.x || x > pad.value.x + pad.value.width then "Crashed: missed pad"
    else if Abs(angle * RadToDeg) > LandingAngleToleranceDeg then "Crashed: bad angle"
    else "Crashed"
  }

  /** On a crash (no safe landing), the reason is "no pad" when no pad was found, else
      "excessive speed" when too fast, else "bad angle": the pad found always spans x,
      so "missed pad" and the bare "Crashed" can never be reported. */
  lemma CrashReasonPriority(pads: seq<PadState>, x: real, vx: real, vy: real, angle: real)
    requires var k := FirstUnusedContaining(pads, x);
             !(k.Some? && SafeSpeed(vx, vy) && SafeAngle(angle))
    ensures var k := FirstUnusedContaining(pads, x);
            var pad := if k.Some? then Some(pads[k.value]) else None;
            var s := CrashReason(pad, x, vx, vy, angle);
            && (k.None? ==> s == "Crashed: no pad")
            && (k.Some? && !SafeSpeed(vx, vy) ==> s == "Crashed: excessive speed")
            && (k.Some? && SafeSpeed(vx, vy) ==> s == "Crashed: bad angle")
            && s != "Crashed: missed pad" && s != "Crashed"
  {
    var k := FirstUnusedContaining(pads, x);
    if k.Some? {
      assert Covers(pads[k.value], x);
    }
  }

  /** The wreckage piece for one random angle a: it starts at (x, y), ends 10 units away
      along a, and moves with unit speed along a. */
  function MakeFragment(x: real, y: real, a: real, sin: real -> real, cos: real -> real): (f: Fragment)
    ensures f.start == Point(x, y)
    ensures f.end.x - f.start.x == 10.0 * cos(a) && f.end.y - f.start.y == 10.0 * sin(a)
    ensures f.vx == cos(a) && f.vy == sin(a)
  {
    var start := Point(x, y);
    var end := Point(x + cos(a) * 10.0, y + sin(a) * 10.0);
    Fragment(start, end, (end.x - start.x) * 0.1, (end.y - start.y) * 0.1)
  }

  /** GenerateDebris's output: one piece per angle, all starting at (x, y). */
  function Fragments(x: real, y: real, angles: seq<real>, sin: real -> real, cos: real -> real): (r: seq<Fragment>)
    ensures |r| == |angles|
    ensures forall i :: 0 <= i < |r| ==> r[i].start == Point(x, y) && r[i].vx == cos(angles[i]) && r[i].vy == sin(angles[i])
  {
    seq(|angles|, i requires 0 <= i < |angles| => MakeFragment(x, y, angles[i], sin, cos))
  }

  /** One debris step: both ends move by the velocity held before this step, then
      gravity is added to the vertical velocity only. */
  function Drift(f: Fragment, delta: real, gravity: real): (r: Fragment)
    ensures r.end.x - r.start.x == f.end.x - f.start.x && r.end.y - r.start.y == f.end.y - f.start.y
    ensures r.start == Point(f.start.x + f.vx * delta, f.start.y + f.vy * delta)
    ensures r.vx == f.vx && r.vy - f.vy == gravity * delta
  {
    var start := Point(f.start.x + f.vx * delta, f.start.y + f.vy * delta);
    var end := Point(f.end.x + f.vx * delta, f.end.y + f.vy * delta);
    Fragment(start, end, f.vx, f.vy + gravity * delta)
  }

  /** UpdateDebris's output: every piece drifts, none is added or removed. */
  function DriftAll(ds: seq<Fragment>, delta: real, gravity: real): (r: seq<Fragment>)
    ensures |r| == |ds|
    ensures forall i :: 0 <= i < |ds| ==> r[i] == Drift(ds[i], delta, gravity)
  {
    seq(|ds|, i requires 0 <= i < |ds| => Drift(ds[i], delta, gravity))
  }

  /** The dead-zone camera: it follows the craft only when the craft leaves the band
      [ScrollMargin, clientWidth - ScrollMargin] measured from the camera. */
  function FollowCamera(camera: real, x: real, clientWidth: int): (r: real)
    ensures camera >= 0.0 ==> r >= 0.0
    ensures ScrollMargin <= x - camera <= clientWidth as real - ScrollMargin ==> r == camera
    ensures camera >= 0.0 && x - camera < ScrollMargin ==> r <= camera
    ensures x - camera < ScrollMargin ==> r >= 0.0 && r >= x - ScrollMargin && (r == 0.0 || x - r == ScrollMargin)
    ensures x - camera >= ScrollMargin && x - camera > clientWidth as real - ScrollMargin ==>
              x - r == clientWidth as real - ScrollMargin && r > camera
  {
    if x - camera < ScrollMargin then MaxReal(0.0, x - ScrollMargin)
    else if x - camera > clientWidth as real - ScrollMargin then x - (clientWidth as real - ScrollMargin)
    else camera
  }

  /** With a window at least two margins wide, one camera update puts the craft inside
      the dead zone (or the camera at 0), so a second update changes nothing. */
  lemma CameraSettles(camera: real, x: real, clientWidth: int)
    requires clientWidth as real >= 2.0 * ScrollMargin
    ensures FollowCamera(FollowCamera(camera, x, clientWidth), x, clientWidth) == FollowCamera(camera, x, clientWidth)
  {
  }

  /** With a window at least two margins wide, a camera that is at rest for the craft
      at x never moves left while the craft moves right from x. */
  lemma CameraNeverBacksUpWhileAdvancing(camera: real, x: real, x2: real, clientWidth: int)
    requires clientWidth as real >= 2.0 * ScrollMargin && camera >= 0.0
    requires FollowCamera(camera, x, clientWidth) == camera && x <= x2
    ensures FollowCamera(camera, x2, clientWidth) >= camera
  {
  }

  /** With a narrower window the dead zone is empty and a craft hovering at x = 1000 in
      an 800-wide window makes the camera jump between 700 and 500 on every tick. */
  lemma CameraOscillatesInNarrowWindow()
    ensures FollowCamera(0.0, 1000.0, 800) == 700.0
    ensures FollowCamera(700.0, 1000.0, 800) == 500.0
    ensures FollowCamera(500.0, 1000.0, 800) == 700.0
  {
  }

  /** Tick's successful landing on pad k, in the order Tick performs it: first Settle,
      then SpawnNext. */
  function LandOn(w: World, k: nat, terrainY: real, tickSegW: real, offset: int): (r: World)
    requires Wellformed(w) && k < |w.pads|
    ensures Wellformed(r)
  {
    SpawnNext(Settle(w, k, terrainY), k, tickSegW, offset)
  }

  /** The first half of a landing: the craft is set on the surface at rest and
      refuelled, pad k stops blinking, and the landed flag is set. */
  function Settle(w: World, k: nat, terrainY: real): (r: World)
    requires k < |w.pads|
    ensures Wellformed(w) ==> Wellformed(r)
    ensures |r.pads| == |w.pads| && SamePlacement(r.pads[k], w.pads[k])
  {
    w.(craft := w.craft.(y := terrainY - GearClearance, vx := 0.0, vy := 0.0, fuel := w.craft.maxFuel),
       pads := w.pads[k := Stopped(w.pads[k])],
       landed := true)
  }

  /** The second half: a new pad of pad k's width is spawned offset segments (Tick's
      segment width) to its right, on terrain levelled for it. */
  function SpawnNext(w: World, k: nat, tickSegW: real, offset: int): (r: World)
    requires Wellformed(w) && k < |w.pads|
    ensures Wellformed(r)
  {
    var pad := w.pads[k];
    var nextX := SpawnX(pad.x, offset, tickSegW);
    var startIdx := RoundHalfEven(nextX / w.segW);
    DivMonotone(0.0, pad.width, w.segW);
    var count := RoundHalfEven(pad.width / w.segW);
    FlattenPreservesInvariant(w.points, w.segW, w.baseY, startIdx, count);
    var pts := Flattened(w.points, startIdx, count);
    var nextY := HeightAt(pts, w.segW, w.baseY, nextX);
    w.(pads := w.pads + [PadState(nextX, pad.width, nextY, true, false)],
       points := pts)
  }

  /** Where Tick puts the next pad: offset segments to the right of the pad landed on. */
  function SpawnX(padX: real, offset: int, segW: real): (r: real) {
    padX + offset as real * segW
  }

  /** With a non-negative segment width, an offset drawn from [100, 200] puts the next
      pad between 100 and 200 segments to the right. */
  lemma SpawnWithinRange(padX: real, offset: int, segW: real)
    requires 100 <= offset <= 200 && segW >= 0.0
    ensures padX + 100.0 * segW <= SpawnX(padX, offset, segW) <= padX + 200.0 * segW
  {
    NonNegMul(offset as real - 100.0, segW);
    NonNegMul(200.0 - offset as real, segW);
  }

  /** Tick's crash: the craft is set on the surface with zero velocity, the game ends
      with a reason, and 30 pieces of wreckage start from the craft's position before
      it was set down. */
  function CrashAt(w: World, pad: Option<PadState>, terrainY: real, angles: seq<real>,
                   sin: real -> real, cos: real -> real): (r: World)
    ensures r.gameOver && r.crashReason != ""
    ensures r.craft.x == w.craft.x && r.craft.vx == 0.0 && r.craft.vy == 0.0 && r.craft.fuel == w.craft.fuel
    ensures |r.debris| == |w.debris| + |angles| && r.debris[..|w.debris|] == w.debris
    ensures r.pads == w.pads && r.points == w.points && r.camera == w.camera && r.landed == w.landed
  {
    var c := w.craft;
    w.(craft := c.(y := terrainY - GearClearance, vx := 0.0, vy := 0.0),
       gameOver := true,
       crashReason := CrashReason(pad, c.x, c.vx, c.vy, c.angle),
       debris := w.debris + Fragments(c.x, c.y, angles, sin, cos))
  }

  /** Flight without contact: the camera follows unless the game is over, debris drifts. */
  function Coast(w: World, delta: real, clientWidth: int): (r: World)
    ensures r.craft == w.craft && r.pads == w.pads && r.points == w.points
    ensures r.gameOver == w.gameOver && r.landed == w.landed && |r.debris| == |w.debris|
    ensures w.gameOver ==> r.camera == w.camera
    ensures w.camera >= 0.0 ==> r.camera >= 0.0
  {
    w.(camera := if w.gameOver then w.camera else FollowCamera(w.camera, w.craft.x, clientWidth),
       debris := DriftAll(w.debris, delta, w.gravity))
  }

  /** Everything Tick does after the craft has moved. */
  function Resolve(w: World, delta: real, clientWidth: int, offset: int, angles: seq<real>,
                   sin: real -> real, cos: real -> real): (r: World)
    requires Wellformed(w)
  {
    var c := w.craft;
    var terrainY := TerrainYAt(w, c.x);
    if Contact(w, terrainY) then
      var k := FirstUnusedContaining(w.pads, c.x);
      if k.Some? && SafeSpeed(c.vx, c.vy) && SafeAngle(c.angle) then
        LandOn(w, k.value, terrainY, clientWidth as real / TerrainSegments as real, offset)
      else
        CrashAt(w, OptionPad(w.pads, c.x), terrainY, angles, sin, cos)
    else
      Coast(w, delta, clientWidth)
  }

  /** A touchdown at safe speed and angle on an available pad is resolved as a landing on it. */
  lemma ResolvedAsLanding(w: World, delta: real, clientWidth: int, offset: int, angles: seq<real>,
                          sin: real -> real, cos: real -> real, k: nat)
    requires Wellformed(w) && Contact(w, TerrainYAt(w, w.craft.x))
    requires FirstUnusedContaining(w.pads, w.craft.x) == Some(k)
    requires SafeSpeed(w.craft.vx, w.craft.vy) && SafeAngle(w.craft.angle)
    ensures k < |w.pads|
    ensures Resolve(w, delta, clientWidth, offset, angles, sin, cos)
            == LandOn(w, k, TerrainYAt(w, w.craft.x), clientWidth as real / TerrainSegments as real, offset)
  {
  }

  /** Any other touchdown is resolved as a crash. */
  lemma ResolvedAsCrash(w: World, delta: real, clientWidth: int, offset: int, angles: seq<real>,
                        sin: real -> real, cos: real -> real)
    requires Wellformed(w) && Contact(w, TerrainYAt(w, w.craft.x))
    requires var k := FirstUnusedContaining(w.pads, w.craft.x);
             !(k.Some? && SafeSpeed(w.craft.vx, w.craft.vy) && SafeAngle(w.craft.angle))
    ensures Resolve(w, delta, clientWidth, offset, angles, sin, cos)
            == CrashAt(w, OptionPad(w.pads, w.craft.x), TerrainYAt(w, w.craft.x), angles, sin, cos)
  {
  }

  /** Without a touchdown the frame is resolved by coasting. */
  lemma ResolvedAsCoast(w: World, delta: real, clientWidth: int, offset: int, angles: seq<real>,
                        sin: real -> real, cos: real -> real)
    requires Wellformed(w) && !Contact(w, TerrainYAt(w, w.craft.x))
    ensures Resolve(w, delta, clientWidth, offset, angles, sin, cos) == Coast(w, delta, clientWidth)
  {
  }

  /** Whether any control key is held. */
  predicate AnyInput(w: World) {
    w.thrusting || w.rotatingLeft || w.rotatingRight
  }

  /** The craft after one physics step with the held keys. */
  function Moved(w: World, delta: real, sin: real -> real, cos: real -> real): (r: Craft) {
    Step(w.craft, delta, w.thrusting, w.rotatingLeft, w.rotatingRight, w.gravity, sin, cos)
  }

  /** GameEngine.Tick: a landed craft with no key held stays put and nothing else
      happens; otherwise the landed flag is cleared, the craft moves one step, and the
      outcome is resolved. */
  function TickModel(w: World, delta: real, clientWidth: int, offset: int, angles: seq<real>,
                     sin: real -> real, cos: real -> real): (r: World)
    requires Wellformed(w)
  {
    if w.landed && !AnyInput(w) then w
    else Resolve(Launched(w, delta, sin, cos), delta, clientWidth, offset, angles, sin, cos)
  }

  /** The state after the physics step of a tick: the landed flag cleared, the craft moved. */
  function Launched(w: World, delta: real, sin: real -> real, cos: real -> real): (r: World)
    ensures !r.landed && r.pads == w.pads && r.points == w.points && r.gameOver == w.gameOver
    ensures r.craft.maxFuel == w.craft.maxFuel
  {
    w.(landed := false, craft := Moved(w, delta, sin, cos))
  }

  /** The pad the collision code found, as a value (None for the C# null). */
  function OptionPad(pads: seq<PadState>, x: real): (p: Option<PadState>)
    ensures p.Some? <==> FirstUnusedContaining(pads, x).Some?
    ensures p.Some? ==> Available(p.value, x)
  {
    var k := FirstUnusedContaining(pads, x);
    if k.Some? then Some(pads[k.value]) else None
  }

  /** What a landing on pad k makes of w: pad k stopped, one new unused, lit pad of its
      width appended offset segments to its right, the samples from the one nearest its
      left end over its width (both rounded to whole segments) levelled, the new pad's
      height read from the levelled samples at its left end, the craft at rest on the
      surface with a full tank, the landed flag set, and camera, wreckage, stars, game
      status and sample spacing unchanged. */
  ghost predicate LandedOn(w: World, r: World, k: nat, terrainY: real, tickSegW: real, offset: int)
    requires Wellformed(w) && k < |w.pads|
  {
    && |r.pads| == |w.pads| + 1
    && r.pads[k] == Stopped(w.pads[k])
    && (forall j :: 0 <= j < |w.pads| && j != k ==> r.pads[j] == w.pads[j])
    && r.pads[|w.pads|].x == SpawnX(w.pads[k].x, offset, tickSegW)
    && r.pads[|w.pads|].width == w.pads[k].width
    && !r.pads[|w.pads|].used && r.pads[|w.pads|].lightsVisible
    && r.craft == w.craft.(y := terrainY - GearClearance, vx := 0.0, vy := 0.0, fuel := w.craft.maxFuel)
    && r.landed && r.gameOver == w.gameOver && r.crashReason == w.crashReason
    && r.camera == w.camera && r.debris == w.debris && r.stars == w.stars
    && |r.points| == |w.points| && r.segW == w.segW && r.baseY == w.baseY
    && var nextX := SpawnX(w.pads[k].x, offset, tickSegW);
       var startIdx := RoundHalfEven(nextX / w.segW);
       var count := RoundHalfEven(w.pads[k].width / w.segW);
       && FlattenSafe(|w.points|, startIdx, count)
       && r.points == Flattened(w.points, startIdx, count)
       && r.pads[|w.pads|].y == HeightAt(r.points, w.segW, w.baseY, nextX)
  }

  /** LandOn does what LandedOn describes. */
  lemma LandOnFacts(w: World, k: nat, terrainY: real, tickSegW: real, offset: int)
    requires Wellformed(w) && k < |w.pads|
    ensures LandedOn(w, LandOn(w, k, terrainY, tickSegW, offset), k, terrainY, tickSegW, offset)
  {
  }

  /** The engine invariant. Beyond a well-formed terrain: fuel within the tank, the
      camera never left of 0, a crash message exactly when the game is over, never both
      landed and crashed, a landed craft at rest with a full tank, and the pad list
      non-empty with every pad but the newest used (and used pads lit). */
  ghost predicate Consistent(w: World) {
    && Wellformed(w)
    && 0.0 <= w.craft.fuel <= w.craft.maxFuel
    && w.camera >= 0.0
    && (w.gameOver <==> w.crashReason != "")
    && !(w.landed && w.gameOver)
    && (w.landed ==> w.craft.vx == 0.0 && w.craft.vy == 0.0 && w.craft.fuel == w.craft.maxFuel)
    && |w.pads| >= 1
    && (forall i :: 0 <= i < |w.pads| - 1 ==> w.pads[i].used)
    && !w.pads[|w.pads| - 1].used
    && (forall i :: 0 <= i < |w.pads| ==> w.pads[i].used ==> w.pads[i].lightsVisible)
  }

  /** Under the invariant the only pad a craft can land on is the newest one. */
  lemma OnlyNewestPadIsAvailable(w: World, x: real)
    requires Consistent(w)
    ensures FirstUnusedContaining(w.pads, x).Some? ==> FirstUnusedContaining(w.pads, x).value == |w.pads| - 1
  {
  }

  /** A landed craft with no key held: the tick changes nothing at all. */
  lemma IdleWhileLanded(w: World, delta: real, clientWidth: int, offset: int, angles: seq<real>,
                        sin: real -> real, cos: real -> real)
    requires Wellformed(w) && w.landed && !AnyInput(w)
    ensures TickModel(w, delta, clientWidth, offset, angles, sin, cos) == w
  {
  }

  /** A key held while landed lifts the landed flag and moves the craft; unless the
      moved craft touches down again at once, it is simply flying. */
  lemma TakeoffMovesCraft(w: World, delta: real, clientWidth: int, offset: int, angles: seq<real>,
                          sin: real -> real, cos: real -> real)
    requires Wellformed(w) && w.landed && AnyInput(w)
    requires var c := Moved(w, delta, sin, cos);
             !Contact(w.(craft := c), HeightAt(w.points, w.segW, w.baseY, c.x))
    ensures var r := TickModel(w, delta, clientWidth, offset, angles, sin, cos);
            !r.landed && r.craft == Moved(w, delta, sin, cos) && r.pads == w.pads && r.gameOver == w.gameOver
  {
  }

  /** Turning on the pad without thrust is a crash. The rotation key lifts the landed
      flag, gravity sinks the craft (no horizontal motion) back to the ground, and the
      pad under it is already used; so unless the newest pad happens to span the craft,
      the frame ends the game with "no pad". */
  lemma TurningOnThePadCrashes(w: World, delta: real, clientWidth: int, offset: int, angles: seq<real>,
                               sin: real -> real, cos: real -> real)
    requires Consistent(w) && w.landed && !w.thrusting && (w.rotatingLeft || w.rotatingRight)
    requires delta >= 0.0 && w.gravity >= 0.0
    requires w.craft.y + GearClearance >= TerrainYAt(w, w.craft.x)
    requires !Covers(w.pads[|w.pads| - 1], w.craft.x)
    ensures var r := TickModel(w, delta, clientWidth, offset, angles, sin, cos);
            r.gameOver && r.crashReason == "Crashed: no pad" && r.craft.x == w.craft.x
  {
    var c := w.craft;
    var v := Launched(w, delta, sin, cos);
    StepLaws(c, delta, false, w.rotatingLeft, w.rotatingRight, w.gravity, sin, cos);
    NonNegMul(w.gravity, delta);
    NonNegMul(w.gravity * delta, delta);
    assert v.craft.x == c.x && v.craft.y >= c.y && v.craft.vy >= 0.0;
    assert TerrainYAt(v, v.craft.x) == TerrainYAt(w, c.x);
    assert FirstUnusedContaining(v.pads, c.x).None? by {
      forall j | 0 <= j < |v.pads| ensures !Available(v.pads[j], c.x) {
        if j < |v.pads| - 1 {
          assert v.pads[j].used;
        }
      }
    }
    ResolvedAsCrash(v, delta, clientWidth, offset, angles, sin, cos);
  }

  /** Without contact the pads, terrain and game status are untouched, the debris keeps
      its size and drifts, and the camera keeps to the dead-zone rule. */
  lemma NoContactFlight(w: World, delta: real, clientWidth: int, offset: int, angles: seq<real>,
                        sin: real -> real, cos: real -> real)
    requires Wellformed(w) && !(w.landed && !AnyInput(w))
    requires var c := Moved(w, delta, sin, cos);
             !Contact(w.(craft := c), HeightAt(w.points, w.segW, w.baseY, c.x))
    ensures var r := TickModel(w, delta, clientWidth, offset, angles, sin, cos);
            && r.craft == Moved(w, delta, sin, cos) && !r.landed
            && r.pads == w.pads && r.points == w.points
            && r.gameOver == w.gameOver && r.crashReason == w.crashReason
            && r.debris == DriftAll(w.debris, delta, w.gravity)
            && (w.gameOver ==> r.camera == w.camera)
            && (!w.gameOver ==> r.camera == FollowCamera(w.camera, r.craft.x, clientWidth))
  {
  }

  /** After the game is over there is never another contact: the craft keeps falling,
      the camera stays, the wreckage drifts, and the outcome is frozen. */
  lemma FrozenAfterGameOver(w: World, delta: real, clientWidth: int, offset: int, angles: seq<real>,
                            sin: real -> real, cos: real -> real)
    requires Consistent(w) && w.gameOver
    ensures var r := TickModel(w, delta, clientWidth, offset, angles, sin, cos);
            && r.gameOver && r.crashReason == w.crashReason && r.camera == w.camera
            && r.pads == w.pads && r.points == w.points
            && r.craft == Moved(w, delta, sin, cos)
            && r.debris == DriftAll(w.debris, delta, w.gravity)
  {
  }

  /** A landing on pad k, as LandedOn describes it, whose new pad lies between 100 and
      200 of Tick's segments right of pad k: the craft rests on the surface with a full
      tank, that pad becomes used, exactly one unused, lit pad of the same width is
      appended, and the older pads, the game status, the camera and the wreckage are
      untouched. */
  lemma NewPadWithinRange(w: World, k: nat, terrainY: real, tickSegW: real, offset: int)
    requires Wellformed(w) && k < |w.pads| && 100 <= offset <= 200 && tickSegW >= 0.0
    ensures var r := LandOn(w, k, terrainY, tickSegW, offset);
            && LandedOn(w, r, k, terrainY, tickSegW, offset)
            && w.pads[k].x + 100.0 * tickSegW <= r.pads[|w.pads|].x <= w.pads[k].x + 200.0 * tickSegW
  {
    LandOnFacts(w, k, terrainY, tickSegW, offset);
    SpawnWithinRange(w.pads[k].x, offset, tickSegW);
  }

  /** After a landing whose new pad's left end lies on the stretch levelled for it, the
      new pad's height is that stretch's level, and the surface is at that height
      anywhere on the stretch. */
  lemma SpawnedPadIsLevel(w: World, r: World, k: nat, terrainY: real, tickSegW: real, offset: int, x: real)
    requires Wellformed(w) && k < |w.pads| && LandedOn(w, r, k, terrainY, tickSegW, offset)
    requires var nextX := SpawnX(w.pads[k].x, offset, tickSegW);
             var startIdx := RoundHalfEven(nextX / w.segW);
             var count := RoundHalfEven(w.pads[k].width / w.segW);
             && OnLevelledRange(|w.points|, w.segW, startIdx, count, nextX)
             && OnLevelledRange(|w.points|, w.segW, startIdx, count, x)
    ensures var startIdx := RoundHalfEven(SpawnX(w.pads[k].x, offset, tickSegW) / w.segW);
            var count := RoundHalfEven(w.pads[k].width / w.segW);
            && FlattenSafe(|w.points|, startIdx, count)
            && Grid(r.points, r.segW) && |r.points| >= 2
            && r.pads[|w.pads|].y == PadLevel(w.points, startIdx, count)
            && HeightAt(r.points, r.segW, r.baseY, x) == r.pads[|w.pads|].y
  {
    LevelledRangeAgrees(w.points, w.segW, w.baseY, RoundHalfEven(SpawnX(w.pads[k].x, offset, tickSegW) / w.segW),
                        RoundHalfEven(w.pads[k].width / w.segW), SpawnX(w.pads[k].x, offset, tickSegW), x);
  }

  /** With Tick's segment width equal to the terrain's (segW here), a pad starting on
      sample i and spanning m whole segments, moved offset segments right and still
      ending before the last of len samples: FlattenAt levels from sample i + offset
      over m segments, a range that holds the moved pad's left end and every x the moved
      pad spans. So such a landing meets SpawnedPadIsLevel's conditions for every x
      under the next pad, which therefore rests on level ground over its whole width. */
  lemma AlignedSpawnIndices(padX: real, width: real, segW: real, offset: int, i: int, m: nat, len: int, x: real)
    requires segW > 0.0 && padX == i as real * segW && width == m as real * segW
    requires 0 <= i + offset && i + offset + m < len
    requires SpawnX(padX, offset, segW) <= x <= SpawnX(padX, offset, segW) + width
    ensures RoundHalfEven(SpawnX(padX, offset, segW) / segW) == i + offset
    ensures RoundHalfEven(width / segW) == m
    ensures OnLevelledRange(len, segW, RoundHalfEven(SpawnX(padX, offset, segW) / segW), RoundHalfEven(width / segW),
                            SpawnX(padX, offset, segW))
    ensures OnLevelledRange(len, segW, RoundHalfEven(SpawnX(padX, offset, segW) / segW), RoundHalfEven(width / segW), x)
  {
    var j := i + offset;
    var nextX := SpawnX(padX, offset, segW);
    AlignedSpawnRounding(padX, width, segW, offset, i, m);
    SumOfMultiples(j, m, segW);
    WholeSegmentsOnRange(len, segW, j, m, nextX);
    WholeSegmentsOnRange(len, segW, j, m, x);
    SameLevelledRange(len, segW, RoundHalfEven(nextX / segW), RoundHalfEven(width / segW), j, m, nextX);
    SameLevelledRange(len, segW, RoundHalfEven(nextX / segW), RoundHalfEven(width / segW), j, m, x);
  }

  /** The moved pad's left end and width, measured in segments, are whole numbers. */
  lemma AlignedSpawnRounding(padX: real, width: real, segW: real, offset: int, i: int, m: nat)
    requires segW > 0.0 && padX == i as real * segW && width == m as real * segW
    ensures SpawnX(padX, offset, segW) == (i + offset) as real * segW
    ensures RoundHalfEven(SpawnX(padX, offset, segW) / segW) == i + offset
    ensures RoundHalfEven(width / segW) == m
  {
    var j := i + offset;
    var nextX := SpawnX(padX, offset, segW);
    SumOfMultiples(i, offset, segW);
    assert nextX == j as real * segW;
    MulDivCancel(j as real, segW);
    assert nextX / segW == j as real;
    RoundWhole(j);
    MulDivCancel(m as real, segW);
    assert width / segW == m as real;
    RoundWhole(m);
  }

  /** Samples j to j + m, all before the last of len, span [j * segW, (j + m) * segW]. */
  lemma WholeSegmentsOnRange(len: int, segW: real, j: int, m: nat, x: real)
    requires 0 <= j && j + m < len
    requires j as real * segW <= x <= (j + m) as real * segW
    ensures OnLevelledRange(len, segW, j, m, x)
  {
    assert FlattenEnd(len, j, m) == j + m;
  }

  /** The same range under other names. */
  lemma SameLevelledRange(len: int, segW: real, startIdx: int, count: int, j: int, m: int, x: real)
    requires startIdx == j && count == m && OnLevelledRange(len, segW, j, m, x)
    ensures OnLevelledRange(len, segW, startIdx, count, x)
  {
  }

  /** Any other touchdown is a crash: the game ends with a reason from the priority
      chain, the craft stops on the surface, exactly 30 pieces of wreckage are added at
      the craft's position, and the pads, terrain and camera are untouched. */
  lemma UnsafeTouchdownCrashes(w: World, delta: real, clientWidth: int, offset: int, angles: seq<real>,
                               sin: real -> real, cos: real -> real)
    requires Wellformed(w) && |angles| == DebrisCount
    requires var c := w.craft;
             var k := FirstUnusedContaining(w.pads, c.x);
             && Contact(w, TerrainYAt(w, c.x))
             && !(k.Some? && SafeSpeed(c.vx, c.vy) && SafeAngle(c.angle))
    ensures var c := w.craft;
            var r := Resolve(w, delta, clientWidth, offset, angles, sin, cos);
            && r.gameOver && r.landed == w.landed
            && r.crashReason in {"Crashed: no pad", "Crashed: excessive speed", "Crashed: bad angle"}
            && r.craft == c.(y := TerrainYAt(w, c.x) - GearClearance, vx := 0.0, vy := 0.0)
            && |r.debris| == |w.debris| + 30
            && r.debris[..|w.debris|] == w.debris
            && (forall i :: |w.debris| <= i < |r.debris| ==> r.debris[i].start == Point(c.x, c.y))
            && r.pads == w.pads && r.points == w.points && r.camera == w.camera
  {
    var c := w.craft;
    CrashReasonPriority(w.pads, c.x, c.vx, c.vy, c.angle);
    var r := Resolve(w, delta, clientWidth, offset, angles, sin, cos);
    assert r.debris == w.debris + Fragments(c.x, c.y, angles, sin, cos);
  }

  /** A tick that lands: the landed flag is set, the craft rests at the surface under
      its moved position, and the landing rules above apply to the moved craft. */
  lemma LandingOutcome(w: World, delta: real, clientWidth: int, offset: int, angles: seq<real>,
                       sin: real -> real, cos: real -> real)
    requires Wellformed(w) && !(w.landed && !AnyInput(w)) && 100 <= offset <= 200 && clientWidth > 0
    requires var c := Moved(w, delta, sin, cos);
             var k := FirstUnusedContaining(w.pads, c.x);
             && Contact(w.(craft := c), HeightAt(w.points, w.segW, w.baseY, c.x))
             && k.Some? && SafeSpeed(c.vx, c.vy) && SafeAngle(c.angle)
    ensures var c := Moved(w, delta, sin, cos);
            var r := TickModel(w, delta, clientWidth, offset, angles, sin, cos);
            && r.landed && !r.gameOver
            && r.craft == c.(y := HeightAt(w.points, w.segW, w.baseY, c.x) - GearClearance, vx := 0.0, vy := 0.0, fuel := c.maxFuel)
            && |r.pads| == |w.pads| + 1
            && r.pads[FirstUnusedContaining(w.pads, c.x).value].used
            && !r.pads[|w.pads|].used
  {
    var v := Launched(w, delta, sin, cos);
    var k := FirstUnusedContaining(v.pads, v.craft.x).value;
    var segW := clientWidth as real / TerrainSegments as real;
    ResolvedAsLanding(v, delta, clientWidth, offset, angles, sin, cos, k);
    DivMonotone(0.0, clientWidth as real, TerrainSegments as real);
    NewPadWithinRange(v, k, TerrainYAt(v, v.craft.x), segW, offset);
  }

  /** A tick that crashes ends the game with 30 new pieces of wreckage and leaves the
      pads alone. */
  lemma CrashOutcome(w: World, delta: real, clientWidth: int, offset: int, angles: seq<real>,
                     sin: real -> real, cos: real -> real)
    requires Wellformed(w) && !(w.landed && !AnyInput(w)) && |angles| == DebrisCount
    requires var c := Moved(w, delta, sin, cos);
             var k := FirstUnusedContaining(w.pads, c.x);
             && Contact(w.(craft := c), HeightAt(w.points, w.segW, w.baseY, c.x))
             && !(k.Some? && SafeSpeed(c.vx, c.vy) && SafeAngle(c.angle))
    ensures var c := Moved(w, delta, sin, cos);
            var r := TickModel(w, delta, clientWidth, offset, angles, sin, cos);
            && r.gameOver && !r.landed && r.crashReason != ""
            && r.craft == c.(y := HeightAt(w.points, w.segW, w.baseY, c.x) - GearClearance, vx := 0.0, vy := 0.0)
            && |r.debris| == |w.debris| + 30
            && r.pads == w.pads
  {
    UnsafeTouchdownCrashes(Launched(w, delta, sin, cos), delta, clientWidth, offset, angles, sin, cos);
  }

  /** Placement is kept and a used pad stays used, from one pad list to the next. */
  ghost predicate KeepsHistory(before: seq<PadState>, after: seq<PadState>) {
    && |before| <= |after|
    && forall j :: 0 <= j < |before| ==>
         SamePlacement(before[j], after[j]) && (before[j].used ==> after[j].used)
  }

  /** A landing keeps the pad history and adds exactly one pad. */
  lemma LandOnKeepsHistory(w: World, k: nat, terrainY: real, tickSegW: real, offset: int)
    requires Wellformed(w) && k < |w.pads|
    ensures var r := LandOn(w, k, terrainY, tickSegW, offset);
            KeepsHistory(w.pads, r.pads) && |r.pads| == |w.pads| + 1
  {
    LandOnFacts(w, k, terrainY, tickSegW, offset);
  }

  /** The pad list only grows, by at most one pad: older pads keep their placement, and
      a used pad stays used. */
  lemma TickKeepsPadHistory(w: World, delta: real, clientWidth: int, offset: int, angles: seq<real>,
                            sin: real -> real, cos: real -> real)
    requires Wellformed(w)
    ensures var r := TickModel(w, delta, clientWidth, offset, angles, sin, cos);
            KeepsHistory(w.pads, r.pads) && |r.pads| <= |w.pads| + 1
  {
    if !(w.landed && !AnyInput(w)) {
      ResolveKeepsHistory(Launched(w, delta, sin, cos), delta, clientWidth, offset, angles, sin, cos);
    }
  }

  /** Only a landing changes the pad list, and it keeps the history. */
  lemma ResolveKeepsHistory(w: World, delta: real, clientWidth: int, offset: int, angles: seq<real>,
                            sin: real -> real, cos: real -> real)
    requires Wellformed(w)
    ensures var r := Resolve(w, delta, clientWidth, offset, angles, sin, cos);
            KeepsHistory(w.pads, r.pads) && |r.pads| <= |w.pads| + 1
  {
    var c := w.craft;
    var terrainY := TerrainYAt(w, c.x);
    var k := FirstUnusedContaining(w.pads, c.x);
    if Contact(w, terrainY) && k.Some? && SafeSpeed(c.vx, c.vy) && SafeAngle(c.angle) {
      LandOnKeepsHistory(w, k.value, terrainY, clientWidth as real / TerrainSegments as real, offset);
    }
  }

  /** The invariant holds after the physics step of a tick with a non-negative frame. */
  lemma LaunchKeepsConsistent(w: World, delta: real, sin: real -> real, cos: real -> real)
    requires Consistent(w) && delta >= 0.0
    ensures Consistent(Launched(w, delta, sin, cos))
  {
    StepFuelBounds(w.craft, delta, w.thrusting, w.rotatingLeft, w.rotatingRight, w.gravity, sin, cos);
  }

  /** Landing on the newest pad of a running game preserves the invariant. */
  lemma LandOnKeepsConsistent(w: World, k: nat, terrainY: real, tickSegW: real, offset: int)
    requires Consistent(w) && !w.gameOver && k == |w.pads| - 1
    ensures Consistent(LandOn(w, k, terrainY, tickSegW, offset))
  {
    LandOnFacts(w, k, terrainY, tickSegW, offset);
  }

  /** A crash of a craft in flight preserves the invariant. */
  lemma CrashAtKeepsConsistent(w: World, pad: Option<PadState>, terrainY: real, angles: seq<real>,
                               sin: real -> real, cos: real -> real)
    requires Consistent(w) && !w.landed
    ensures Consistent(CrashAt(w, pad, terrainY, angles, sin, cos))
  {
  }

  /** Flight without contact preserves the invariant. */
  lemma CoastKeepsConsistent(w: World, delta: real, clientWidth: int)
    requires Consistent(w)
    ensures Consistent(Coast(w, delta, clientWidth))
  {
  }

  /** Landing, crashing and coasting each preserve the invariant. */
  lemma ResolveKeepsConsistent(w: World, delta: real, clientWidth: int, offset: int, angles: seq<real>,
                               sin: real -> real, cos: real -> real)
    requires Consistent(w) && !w.landed
    ensures Consistent(Resolve(w, delta, clientWidth, offset, angles, sin, cos))
  {
    var c := w.craft;
    var terrainY := TerrainYAt(w, c.x);
    var k := FirstUnusedContaining(w.pads, c.x);
    if !Contact(w, terrainY) {
      CoastKeepsConsistent(w, delta, clientWidth);
    } else if k.Some? && SafeSpeed(c.vx, c.vy) && SafeAngle(c.angle) {
      OnlyNewestPadIsAvailable(w, c.x);
      LandOnKeepsConsistent(w, k.value, terrainY, clientWidth as real / TerrainSegments as real, offset);
    } else {
      CrashAtKeepsConsistent(w, OptionPad(w.pads, c.x), terrainY, angles, sin, cos);
    }
  }

  /** A tick with a non-negative frame length preserves the engine invariant. */
  lemma TickPreservesConsistent(w: World, delta: real, clientWidth: int, offset: int, angles: seq<real>,
                                sin: real -> real, cos: real -> real)
    requires Consistent(w) && delta >= 0.0
    ensures Consistent(TickModel(w, delta, clientWidth, offset, angles, sin, cos))
  {
    if !(w.landed && !AnyInput(w)) {
      LaunchKeepsConsistent(w, delta, sin, cos);
      ResolveKeepsConsistent(Launched(w, delta, sin, cos), delta, clientWidth, offset, angles, sin, cos);
    }
  }
}
