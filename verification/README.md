# Lunar lander core, modelled in Dafny

This project models the simulation core of a side-scrolling lunar-lander game. The
original is written in C# (WinForms). Four classes hold the core:

- the **craft** (`Lander`): position, velocity, heading and fuel, advanced once per
  frame by a semi-implicit Euler step;
- the **terrain** (`Terrain`): an array of height samples at constant spacing. It is
  generated with random heights clamped to a band, grows in batches as the camera
  nears its tail, is levelled under landing pads, and is queried by linear
  interpolation;
- the **landing pad** (`LandingPad`): a fixed placement, lights that a timer blinks,
  and a one-way "used" mark;
- the **game engine** (`GameEngine`): it owns all of the above plus the camera, the
  wreckage and the stars. Each frame it moves the craft and then decides between a
  landing, a crash and plain flight.

The model keeps the source's form. Objects whose fields change in place are Dafny
classes with `modifies` frames: `Lander`, `Terrain` (its samples are an `array`),
`LandingPad` and `GameEngine`. Each method of these classes is proved against a pure
specification function, and the game's promises are proved as lemmas about those
functions.

Modules, one file each:

| file | module | contents |
|---|---|---|
| `Primitives.dfy` | `Primitives` | `Option`, `Point`, the C# numeric helpers used (`Math.Max`, `Math.Min`, `Math.Clamp`, `(int)` truncation, `Math.Round` half-to-even), small arithmetic lemmas |
| `Terrain.dfy` | `TerrainModel` | the sample grid and band invariant, generation, extension, flattening, the height query, and the `Terrain` class |
| `Lander.dfy` | `LanderModel` | the frame step `Step`, the flame polygon, and the `Lander` class |
| `LandingPad.dfy` | `LandingPadModel` | pad state, the toggle / stop / timer events, and the `LandingPad` class |
| `EngineRules.dfy` | `EngineRules` | the engine state as a value (`World`) and one frame as a function (`TickModel`), with the landing, crash, camera and wreckage rules and the engine invariant `Consistent` |
| `EngineSetup.dfy` | `EngineSetup` | the world `Initialize` builds: terrain, stars, the initial pad |
| `GameEngine.dfy` | `GameEngineModel` | the `GameEngine` class; every method is proved to move `Snapshot()` as the rules say |

Numbers are Dafny `real`s. `Math.Sin` and `Math.Cos` are parameters (`sin`, `cos`). Every
random draw is a parameter:

- a `NextDouble()` draw is a real `unit`;
- `Next(100, 201)` is `offset`;
- `Next(0, 40 - padSegs + 1)` is `startIdx`;
- `Next(5, 15)` is `tipJitter`;
- the debris angles are `angles`;
- the star candidates are `draws`.

## Model

| member | source | states |
|---|---|---|
| `Primitives.Abs` | LanderGame/GameEngine.cs:139-141 | `Math.Abs`: the result is non-negative and is v or -v |
| `Primitives.MaxReal` | LanderGame/GameEngine.cs:187 | `Math.Max`: the result is at least both arguments and is one of them |
| `Primitives.MinInt` | LanderGame/Terrain.cs:75 | `Math.Min`: the result is at most both arguments and is one of them |
| `Primitives.ClampReal` | LanderGame/Terrain.cs:38 | `Math.Clamp` on floats: the result is in [lo, hi], is v when v is in range, and the nearer bound otherwise |
| `Primitives.ClampInt` | LanderGame/GameEngine.cs:73 | `Math.Clamp` on ints: the result is in [lo, hi], is v when v is in range, and the nearer bound otherwise |
| `Primitives.TruncToInt` | LanderGame/Terrain.cs:115 | the `(int)` cast truncates toward zero: for v >= 0 the result is the greatest integer not above v, for v < 0 the least not below it |
| `Primitives.RoundHalfEven` | LanderGame/Terrain.cs:86-87 | `Math.Round`: the result is within 0.5 of v, and an exact tie goes to the even neighbour |
| `Primitives.RoundWhole` | LanderGame/Terrain.cs:86-87 | a whole number rounds to itself |
| `TerrainModel.Jitter` | LanderGame/Terrain.cs:36-38 | a generated height always lies in [0, BaseY], and equals baseline + (2u - 1) * variation whenever that value is already inside the band |
| `TerrainModel.Generated` | LanderGame/Terrain.cs:29-40 | the generated samples number one per draw, lie on the grid x_i = i * segW, and all lie in the band [0, BaseY] |
| `TerrainModel.Extended` | LanderGame/Terrain.cs:54-69 | extension keeps every old sample unchanged as a prefix, adds exactly one sample per draw, and every new height is inside the band |
| `TerrainModel.ExtendedAt` | LanderGame/Terrain.cs:59-67 | new sample i lies (i - n + 1) segment widths past the old last sample and has the draw's clamped height |
| `TerrainModel.ExtendedSpacing` | LanderGame/Terrain.cs:60-63 | every new sample lies exactly one segment width to the right of the sample before it, including the first one after the old tail |
| `TerrainModel.ExtendedPointwise` | LanderGame/Terrain.cs:56-69 | an array holding the old samples followed by the loop's new samples is exactly the extended sequence |
| `TerrainModel.ExtendedKeepsInvariant` | LanderGame/Terrain.cs:51-70 | extending grid-aligned, in-band samples yields grid-aligned, in-band samples (x stays i * segW, heights stay in [0, BaseY]) |
| `TerrainModel.FlattenEnd` | LanderGame/Terrain.cs:75 | the last levelled index is startIdx + padSegments capped at the last sample, and is one of the two |
| `TerrainModel.PadLevel` | LanderGame/Terrain.cs:77 | the level lies between the two endpoint heights, and is their common value when they agree |
| `TerrainModel.Flattened` | LanderGame/Terrain.cs:73-80 | flattening never moves an x. It changes nothing when the start index is out of range, changes no sample outside [startIdx, end], and sets every sample in that range to the level |
| `TerrainModel.FlattenPreservesInvariant` | LanderGame/Terrain.cs:73-80 | flattening keeps the grid and the height band |
| `TerrainModel.FlattenIdempotent` | LanderGame/Terrain.cs:73-80 | flattening the same range twice gives the same samples as flattening it once |
| `TerrainModel.SegmentIndex` | LanderGame/Terrain.cs:113-116 | the chosen segment always has two samples: the index is in [0, len - 2] |
| `TerrainModel.HeightAt` | LanderGame/Terrain.cs:108-121 | with fewer than two samples the height query answers the baseline; what it answers otherwise is stated by `HeightAtOnSegment`, `HeightAtSample`, `HeightAtMidpoint`, `HeightAtWithinBand` and `HeightBeyondTail` |
| `TerrainModel.SegmentPosition` | LanderGame/Terrain.cs:113-115 | the query position in segment widths is non-negative and, for x >= 0, times segW gives back x |
| `TerrainModel.HeightAtOnSegment` | LanderGame/Terrain.cs:117-120 | the query is the line through samples idx and idx + 1, at parameter (position / segW - idx) |
| `TerrainModel.SegmentIndexOfPosition` | LanderGame/Terrain.cs:115-116 | the index is the truncated position, clamped to the last segment |
| `TerrainModel.PositionOfSample` | LanderGame/Terrain.cs:113-115 | the position of x = k * segW is k |
| `TerrainModel.PositionMonotone` | LanderGame/Terrain.cs:113-115 | positions are monotone in x |
| `TerrainModel.HeightAtSample` | LanderGame/Terrain.cs:108-121 | at a sample's own x the query returns that sample's height |
| `TerrainModel.HeightAtMidpoint` | LanderGame/Terrain.cs:108-121 | halfway between two neighbouring samples the query returns their average |
| `TerrainModel.HeightAtConstant` | LanderGame/Terrain.cs:108-121 | on terrain of one height the query answers that height at every x, including past the tail |
| `TerrainModel.SegmentParameterInUnit` | LanderGame/Terrain.cs:115-119 | within the samples the interpolation parameter t lies in [0, 1] |
| `TerrainModel.HeightAtWithinBand` | LanderGame/Terrain.cs:108-121 | up to the last sample's x, the interpolated height stays in [0, BaseY] |
| `TerrainModel.HeightBeyondTail` | LanderGame/Terrain.cs:113-120 | past the last sample the query extrapolates along the last segment's line; it is not held at the last height |
| `TerrainModel.LevelledSegment` | LanderGame/Terrain.cs:115-120 | a position inside a levelled index range lands on a segment whose used endpoint is inside the range |
| `TerrainModel.PositionBetweenSamples` | LanderGame/Terrain.cs:113-115 | an x between samples s and e has its position between s and e |
| `TerrainModel.FlattenedHeightIsLevel` | LanderGame/Terrain.cs:73-80 | after flattening, the height query answers exactly the level at every x across the flattened range, ends included |
| `TerrainModel.LevelledRangeAgrees` | LanderGame/Terrain.cs:73-121 | two points of the same levelled stretch read the same height after flattening, and that height is the level |
| `TerrainModel.LevelLine` | LanderGame/Terrain.cs:120 | interpolating between two levelled heights, or at a levelled endpoint, gives the level |
| `TerrainModel.VisibleLastIndex` | LanderGame/Terrain.cs:45 | no contract of its own; `ExpansionThreshold` states its value with the camera on a sample |
| `TerrainModel.NeedsExpansion` | LanderGame/Terrain.cs:45-46 | no contract of its own (a predicate); `ExpansionThreshold` states when it holds |
| `TerrainModel.ExpansionThreshold` | LanderGame/Terrain.cs:45-46 | with the camera on sample k the last visible index is k + visibleCount - 1, and expansion happens exactly when at most 100 samples remain past it |
| `TerrainModel.FillExtension` | LanderGame/Terrain.cs:59-68 | the loop writes sample k as one segment width per step past the old last x, with the draw's clamped height, and leaves the copied samples alone |
| `TerrainModel.Terrain.constructor` | LanderGame/Terrain.cs:19-24 | the settings are stored and the terrain starts empty, with segment width 0 |
| `TerrainModel.Terrain.Segments` | LanderGame/Terrain.cs:15 | the segment count is the visible count fixed at construction |
| `TerrainModel.Terrain.Generate` | LanderGame/Terrain.cs:26-41 | segment width = width / visibleCount; a fresh array of 200 samples as `Generated` describes; the grid and band invariant hold |
| `TerrainModel.Terrain.ExpandIfNeeded` | LanderGame/Terrain.cs:43-48 | the samples are extended by 200 exactly when `NeedsExpansion` holds, and are untouched otherwise; the invariant is kept |
| `TerrainModel.Terrain.Expand` | LanderGame/Terrain.cs:51-70 | the new array is the old samples extended as `Extended` describes; spacing and segment width are unchanged, and the invariant is kept |
| `TerrainModel.Terrain.Flatten` | LanderGame/Terrain.cs:73-80 | the samples become `Flattened(old samples)`; the invariant is kept |
| `TerrainModel.Terrain.FlattenAt` | LanderGame/Terrain.cs:83-90 | the world x and width are rounded half-to-even to sample indices and that stretch is flattened |
| `TerrainModel.Terrain.GetHeightAt` | LanderGame/Terrain.cs:108-121 | baseline with fewer than two samples; within the generated samples the answer lies in [0, BaseY] |
| `LanderModel.Burns` | LanderGame/Lander.cs:46 | no contract of its own (a predicate); `Step`, `StepLaws` and `EmptyTankIgnoresThrust` state what a burn does and that none happens on an empty tank |
| `LanderModel.Impulse` | LanderGame/Lander.cs:48-49 | no contract of its own; `StepLaws` states that a burn adds it to the velocity along the new heading |
| `LanderModel.Step` | LanderGame/Lander.cs:41-57 | a frame never changes the tank capacity, and without a burn it never changes the fuel; the full frame laws are `StepLaws` |
| `LanderModel.StepLaws` | LanderGame/Lander.cs:41-57 | the heading turns by RotationSpeed * delta per held key (opposite keys cancel). A burn adds the thrust impulse along the new heading and drains fuel, floored at 0. Coasting keeps vx and fuel. Gravity always adds to vy. The position moves by the updated velocity |
| `LanderModel.StepFuelBounds` | LanderGame/Lander.cs:46-52 | fuel never goes negative, and with delta >= 0 it never rises |
| `LanderModel.Fly` | LanderGame/Lander.cs:41-57 | no sequence of frames changes the tank capacity; `FuelNeverRises` and `CoastingKeepsDriftAndFuel` state what a sequence of frames does to fuel and drift |
| `LanderModel.FuelNeverRises` | LanderGame/Lander.cs:46-52 | over any sequence of non-negative frames fuel stays within [0, starting fuel] |
| `LanderModel.CoastingKeepsDriftAndFuel` | LanderGame/Lander.cs:43-56 | without thrust, whatever the rotation keys, horizontal speed and fuel never change |
| `LanderModel.EmptyTankIgnoresThrust` | LanderGame/Lander.cs:46 | with an empty tank the thrust key has no effect at all |
| `LanderModel.BurnEmptiesTank` | LanderGame/Lander.cs:50-51 | a burn longer than the remaining fuel leaves the tank at exactly 0 |
| `LanderModel.OpposingKeysCancel` | LanderGame/Lander.cs:43-44 | holding both rotation keys leaves the heading unchanged |
| `LanderModel.FlamePolygon` | LanderGame/Lander.cs:131-138 | no flame exactly when not thrusting or out of fuel. Otherwise a triangle with base (-5, 20)–(5, 20) and its tip at x = 0, y in [25, 34] |
| `LanderModel.Lander.constructor` | LanderGame/Lander.cs:21-25 | the craft starts at the given point, at rest and upright; the capacity is the starting fuel and the tank is full |
| `LanderModel.Lander.Refuel` | LanderGame/Lander.cs:28-31 | fuel is set to the capacity and nothing else changes |
| `LanderModel.Lander.Reset` | LanderGame/Lander.cs:33-39 | the craft is at the given point, at rest and upright, with the given fuel; the capacity is kept |
| `LanderModel.Lander.Update` | LanderGame/Lander.cs:41-57 | the new fields are one `Step` of the old ones, so every law of `StepLaws` holds of the object |
| `LanderModel.Lander.SetState` | LanderGame/Lander.cs:141-148 | position, heading and velocity are overwritten; fuel and capacity are kept |
| `LanderModel.Lander.GetFlamePolygon` | LanderGame/Lander.cs:131-138 | null (None) exactly when not thrusting or the tank is empty; otherwise three points |
| `LandingPadModel.Toggled` | LanderGame/LandingPad.cs:27-30 | the lights flip; placement and the used mark are kept |
| `LandingPadModel.Stopped` | LanderGame/LandingPad.cs:32-36 | after stopping, the lights are on and the pad is used; placement is kept |
| `LandingPadModel.TimerTicked` | LanderGame/LandingPad.cs:22-24 | a timer tick toggles the lights of an unused pad and does nothing to a used one |
| `LandingPadModel.ToggleTwiceIsIdentity` | LanderGame/LandingPad.cs:27-30 | two toggles restore the pad |
| `LandingPadModel.StopIsIdempotent` | LanderGame/LandingPad.cs:32-36 | stopping twice is stopping once |
| `LandingPadModel.UsedIsPermanent` | LanderGame/LandingPad.cs:16-36 | whatever sequence of toggles, stops and ticks happens, placement never changes and a used pad stays used |
| `LandingPadModel.StoppedLightsStayOn` | LanderGame/LandingPad.cs:32-36 | after StopBlinking, any number of timer ticks leave the lights on |
| `LandingPadModel.EvenTicksRestoreLights` | LanderGame/LandingPad.cs:22-30 | while unused, an even number of ticks brings the lights back to where they were |
| `LandingPadModel.LandingPad.constructor` | LanderGame/LandingPad.cs:16-25 | the placement is stored as given, the lights are on, the pad is unused and the blink interval is kept |
| `LandingPadModel.LandingPad.ToggleLights` | LanderGame/LandingPad.cs:27-30 | the pad's state becomes `Toggled` of the old state |
| `LandingPadModel.LandingPad.StopBlinking` | LanderGame/LandingPad.cs:32-36 | the pad's state becomes `Stopped` of the old state |
| `LandingPadModel.LandingPad.BlinkTimerTick` | LanderGame/LandingPad.cs:22-24 | the pad's state becomes `TimerTicked` of the old state |
| `LandingPadModel.Covers` | LanderGame/GameEngine.cs:135 | no contract of its own (a predicate, ends included); used through `Available`, and `TurningOnThePadCrashes` relies on the newest pad not covering the craft |
| `EngineRules.Available` | LanderGame/GameEngine.cs:135 | no contract of its own (a predicate); `FirstUnusedContaining` and `OptionPad` state that the pad found is the first one satisfying it |
| `EngineRules.SafeSpeed` | LanderGame/GameEngine.cs:139-140 | no contract of its own (a predicate); `ResolvedAsLanding`, `ResolvedAsCrash` and `CrashReasonPriority` state which outcome it selects |
| `EngineRules.SafeAngle` | LanderGame/GameEngine.cs:141 | no contract of its own (a predicate); `ResolvedAsLanding`, `ResolvedAsCrash` and `CrashReasonPriority` state which outcome it selects |
| `EngineRules.TerrainYAt` | LanderGame/GameEngine.cs:131 | no contract of its own; the height query `HeightAt` on the world's samples, whose values `HeightAtOnSegment`, `HeightAtWithinBand` and `FlattenedHeightIsLevel` state |
| `EngineRules.AnyInput` | LanderGame/GameEngine.cs:110 | no contract of its own (a predicate); `IdleWhileLanded` and `TakeoffMovesCraft` state the two branches it selects |
| `EngineRules.Moved` | LanderGame/GameEngine.cs:114 | no contract of its own; one `Step` with the held keys, and `NoContactFlight`, `TakeoffMovesCraft` and `FrozenAfterGameOver` state that the frame's craft is this one |
| `EngineRules.FirstUnusedContaining` | LanderGame/GameEngine.cs:135 | the result is the first pad in list order that is unused and spans x: it is available, no earlier pad is, and None exactly when no pad is available |
| `EngineRules.CrashReason` | LanderGame/GameEngine.cs:166-175 | a crash always has a non-empty message |
| `EngineRules.CrashReasonPriority` | LanderGame/GameEngine.cs:135-175 | a crash reports "no pad" when no pad was found, else "excessive speed" when too fast, else "bad angle". "missed pad" and the bare "Crashed" are unreachable |
| `EngineRules.MakeFragment` | LanderGame/GameEngine.cs:220-223 | a wreckage piece starts at (x, y), ends 10 units away along the angle, and moves at unit speed along it |
| `EngineRules.Fragments` | LanderGame/GameEngine.cs:215-225 | one piece per angle, each starting at (x, y) with velocity (cos a, sin a) |
| `EngineRules.Drift` | LanderGame/GameEngine.cs:233-241 | a piece keeps its shape and horizontal speed, moves by its old velocity, and gains gravity * delta of vertical speed |
| `EngineRules.DriftAll` | LanderGame/GameEngine.cs:227-244 | every piece drifts and none is added or removed |
| `EngineRules.FollowCamera` | LanderGame/GameEngine.cs:184-190 | the camera stays put while the craft is inside the dead zone. Left of the zone it moves to the larger of 0 and x - ScrollMargin: onto 0, or so that the craft sits on the zone's left edge, whichever is further right. Right of it, it moves right so that the craft sits on the zone's right edge |
| `EngineRules.CameraSettles` | LanderGame/GameEngine.cs:184-190 | in a window at least two margins wide, a second update with the craft in the same place changes nothing |
| `EngineRules.CameraNeverBacksUpWhileAdvancing` | LanderGame/GameEngine.cs:184-190 | in a window at least two margins wide, a camera at rest for the craft never moves left while the craft moves right |
| `EngineRules.CameraOscillatesInNarrowWindow` | LanderGame/GameEngine.cs:184-190 | in an 800-wide window a craft at x = 1000 drives the camera 0 → 700 → 500 → 700 |
| `EngineRules.LandOn` | LanderGame/GameEngine.cs:142-158 | a landing keeps the terrain and pads well-formed; what it does is stated by `LandOnFacts` (pads, craft, levelled samples, new pad's height), `NewPadWithinRange` and `SpawnedPadIsLevel` |
| `EngineRules.Settle` | LanderGame/GameEngine.cs:143-148 | setting the craft down keeps the pad count and pad k's placement, and keeps the world well-formed |
| `EngineRules.SpawnNext` | LanderGame/GameEngine.cs:151-158 | spawning the next pad keeps the world well-formed; where the pad goes, which samples are levelled and the pad's height are stated by `LandOnFacts`, `SpawnWithinRange`, `NewPadWithinRange` and `SpawnedPadIsLevel` |
| `EngineRules.SpawnWithinRange` | LanderGame/GameEngine.cs:152-153 | an offset in [100, 200] puts the next pad 100 to 200 segment widths right of the pad landed on |
| `EngineRules.ResolvedAsLanding` | LanderGame/GameEngine.cs:132-161 | a touchdown at safe speed and angle on a found pad is resolved as a landing on that pad |
| `EngineRules.ResolvedAsCrash` | LanderGame/GameEngine.cs:132-180 | any other touchdown is resolved as a crash |
| `EngineRules.ResolvedAsCoast` | LanderGame/GameEngine.cs:129-193 | without touchdown the frame is resolved by coasting |
| `EngineRules.OptionPad` | LanderGame/GameEngine.cs:135 | the found pad is present exactly when an available pad exists, and it is available |
| `EngineRules.LandOnFacts` | LanderGame/GameEngine.cs:142-158 | a landing does everything `LandedOn` lists. Pad k is stopped and the other pads are kept. One unused, lit pad of the same width is appended, offset segments right. The samples are `Flattened` from the rounded sample index of the new pad's x over its width rounded to whole segments, and the new pad's height is the levelled surface's height at its x. The craft rests on the surface with a full tank. Camera, wreckage and stars are kept |
| `EngineRules.OnlyNewestPadIsAvailable` | LanderGame/GameEngine.cs:135 | under the engine invariant the only pad a craft can land on is the newest one (`CurrentPad`) |
| `EngineRules.IdleWhileLanded` | LanderGame/GameEngine.cs:107-121 | a landed craft with no key held: the frame changes nothing at all |
| `EngineRules.TakeoffMovesCraft` | LanderGame/GameEngine.cs:109-115 | a key held while landed clears the landed flag and moves the craft one step; if it does not touch down at once, pads and status are untouched |
| `EngineRules.TurningOnThePadCrashes` | LanderGame/GameEngine.cs:107-175 | a landed craft that only turns, with gravity >= 0, sinks straight back to the ground. No unused pad lies under it, so unless the newest pad spans it the frame is a crash: "Crashed: no pad" |
| `EngineRules.NoContactFlight` | LanderGame/GameEngine.cs:104-196 | without touchdown the craft moves one step and pads, terrain and status are untouched. The wreckage drifts. The camera follows the dead-zone rule unless the game is over |
| `EngineRules.FrozenAfterGameOver` | LanderGame/GameEngine.cs:129-193 | once the game is over nothing lands or crashes again: the reason, camera, pads and terrain are frozen while the craft falls and the wreckage drifts |
| `EngineRules.NewPadWithinRange` | LanderGame/GameEngine.cs:142-158 | a landing does everything `LandedOn` lists (pads, craft, levelled samples, the new pad's height), and the new pad lies between 100 and 200 segment widths right of the pad landed on |
| `EngineRules.SpawnedPadIsLevel` | LanderGame/GameEngine.cs:151-158 | when the new pad's left end lies on the stretch levelled for it, the new pad's height is that stretch's level, and the surface has that height at every x of the stretch |
| `EngineRules.AlignedSpawnIndices` | LanderGame/GameEngine.cs:152-155 | a pad on whole segments, moved by whole segments and ending before the last sample, is levelled from its own sample over its own width, so its left end and every x under it lie on the levelled stretch (the condition of `SpawnedPadIsLevel`) |
| `EngineRules.AlignedSpawnRounding` | LanderGame/Terrain.cs:86-87 | for a pad on whole segments, rounding its moved x and its width to segments gives back exactly those whole numbers |
| `EngineRules.UnsafeTouchdownCrashes` | LanderGame/GameEngine.cs:163-180 | an unsafe touchdown ends the game with one of "no pad", "excessive speed" or "bad angle". The craft stops on the surface. Exactly 30 pieces of wreckage are appended, starting at the craft's pre-crash position. Pads, terrain and camera are untouched |
| `EngineRules.LandingOutcome` | LanderGame/GameEngine.cs:104-161 | a frame that lands sets the landed flag, keeps the game running, and rests the moved craft on the surface with zero velocity and a full tank. It marks the pad landed on as used and appends one unused pad |
| `EngineRules.CrashOutcome` | LanderGame/GameEngine.cs:104-180 | a frame that crashes ends the game with a message. The moved craft stops on the surface, 30 pieces of wreckage are added, and the pads are untouched |
| `EngineRules.LandOnKeepsHistory` | LanderGame/GameEngine.cs:142-158 | a landing adds exactly one pad; older pads keep their placement, and used pads stay used |
| `EngineRules.TickKeepsPadHistory` | LanderGame/GameEngine.cs:104-196 | a frame adds at most one pad; no pad moves and no used pad becomes available again |
| `EngineRules.ResolveKeepsHistory` | LanderGame/GameEngine.cs:129-193 | only a landing changes the pad list, and it keeps the history |
| `EngineRules.Contact` | LanderGame/GameEngine.cs:132 | no contract of its own (a predicate); which outcome it selects is stated by `ResolvedAsLanding`, `ResolvedAsCrash` and `ResolvedAsCoast` |
| `EngineRules.SpawnX` | LanderGame/GameEngine.cs:153 | no contract of its own; `SpawnWithinRange` bounds it and `AlignedSpawnRounding` rounds it |
| `EngineRules.CrashAt` | LanderGame/GameEngine.cs:163-180 | a crash ends the game with a non-empty message, stops the craft at its x with its fuel, appends one wreckage piece per angle after the old ones, and keeps pads, terrain, camera and the landed flag |
| `EngineRules.Coast` | LanderGame/GameEngine.cs:183-193 | flight without contact keeps craft, pads, terrain, status and the number of wreckage pieces; the camera stays when the game is over and never goes left of 0 |
| `EngineRules.Launched` | LanderGame/GameEngine.cs:107-127 | the physics step clears the landed flag and keeps pads, terrain, game status and tank capacity |
| `EngineRules.Resolve` | LanderGame/GameEngine.cs:129-193 | no contract of its own; stated by `ResolvedAsLanding`, `ResolvedAsCrash`, `ResolvedAsCoast`, `UnsafeTouchdownCrashes`, `ResolveKeepsConsistent` and `ResolveKeepsHistory` |
| `EngineRules.TickModel` | LanderGame/GameEngine.cs:104-196 | no contract of its own; stated by `TickPreservesConsistent`, `TickKeepsPadHistory`, `IdleWhileLanded`, `TakeoffMovesCraft`, `LandingOutcome`, `CrashOutcome`, `NoContactFlight`, `FrozenAfterGameOver` and `TurningOnThePadCrashes` |
| `EngineRules.LaunchKeepsConsistent` | LanderGame/GameEngine.cs:109-127 | the physics step of a frame with delta >= 0 keeps the engine invariant |
| `EngineRules.LandOnKeepsConsistent` | LanderGame/GameEngine.cs:142-158 | landing on the newest pad keeps the engine invariant |
| `EngineRules.CrashAtKeepsConsistent` | LanderGame/GameEngine.cs:163-180 | a crash of a flying craft keeps the engine invariant; the message is non-empty exactly when the game is over |
| `EngineRules.CoastKeepsConsistent` | LanderGame/GameEngine.cs:183-193 | flight without touchdown keeps the engine invariant |
| `EngineRules.ResolveKeepsConsistent` | LanderGame/GameEngine.cs:129-193 | landing, crashing and coasting each keep the engine invariant |
| `EngineRules.TickPreservesConsistent` | LanderGame/GameEngine.cs:104-196 | every frame with delta >= 0 keeps the engine invariant. Fuel stays in the tank's range, the camera at or right of 0, and a message exactly when the game is over; never landed and over at once. At least one pad exists, all pads but the newest are used, and used pads are lit |
| `EngineSetup.PadSegments` | LanderGame/GameEngine.cs:73 | the initial pad spans between 1 and 40 segments: 60 / segW rounded half-to-even, when that is already in range |
| `EngineSetup.Candidate` | LanderGame/GameEngine.cs:208-209 | no contract of its own; `CandidateInBox` states where it lies |
| `EngineSetup.CandidateInBox` | LanderGame/GameEngine.cs:208-209 | draws in [0, 1) give a candidate with x in [0, last sample's x] and y in [0, sky height] |
| `EngineSetup.AboveTerrain` | LanderGame/GameEngine.cs:210 | no contract of its own (a predicate); `AcceptedAreAbove` states that every kept star satisfies it |
| `EngineSetup.AcceptedStars` | LanderGame/GameEngine.cs:206-210 | the rejection loop never keeps more stars than it draws candidates; `AcceptedAreAbove` states that every kept star is above the terrain |
| `EngineSetup.PrefixAllAbove` | LanderGame/GameEngine.cs:201-211 | the first n of the stars kept are above the terrain |
| `EngineSetup.AcceptedAreAbove` | LanderGame/GameEngine.cs:206-210 | every star the loop keeps lies strictly above the terrain |
| `EngineSetup.AcceptedFrom` | LanderGame/GameEngine.cs:206-210 | from candidate k on, the first candidate is kept exactly when it is above the terrain, and the rest are filtered the same way |
| `EngineSetup.InitialPad` | LanderGame/GameEngine.cs:73-80 | the initial pad starts at sample startIdx's x, spans PadSegments segment widths, is lit and unused, and has non-negative width |
| `EngineSetup.InitialPadFields` | LanderGame/GameEngine.cs:76-80 | after flattening, the mean of the heights at startIdx and startIdx + PadSegments is the initial pad's height, and the pad built from that mean, startIdx * segW and PadSegments * segW is exactly `InitialPad` |
| `EngineSetup.PlacePad` | LanderGame/GameEngine.cs:75-81 | placing the pad keeps the world well-formed and appends exactly that pad to the list |
| `EngineSetup.StatusCleared` | LanderGame/GameEngine.cs:84-87 | not over, not landed, no message, camera at 0, no key held; everything else is kept |
| `EngineSetup.Built` | LanderGame/GameEngine.cs:55-70 | the world built before the pad is well-formed and has 200 samples; its contents are stated by `InitialState` |
| `EngineSetup.InitialWorld` | LanderGame/GameEngine.cs:52-90 | the world Initialize leaves satisfies the engine invariant |
| `EngineSetup.ClearedAfterPadIgnoresStatus` | LanderGame/GameEngine.cs:73-87 | clearing the status before or after placing the pad gives the same world |
| `EngineSetup.InitialState` | LanderGame/GameEngine.cs:52-90 | after Initialize there is one pad and no wreckage, no crash, not landed, camera 0 and no key held. The craft rests at (clientWidth / 2, 50) with 100 of 100 fuel. There are 200 samples and 100 stars, each above the terrain as generated |
| `EngineSetup.InitialPadIsLevel` | LanderGame/GameEngine.cs:73-80 | across the initial pad, ends included, the terrain height is exactly the pad's height |
| `GameEngineModel.PadStates` | LanderGame/GameEngine.cs:46 | the pad list as values, one per pad object, in order |
| `GameEngineModel.GameEngine.Snapshot` | LanderGame/GameEngine.cs:11-34 | an initialized engine's state is a well-formed world |
| `GameEngineModel.GameEngine.constructor` | LanderGame/GameEngine.cs:11-34 | a new engine has no craft, no terrain, no pads, no wreckage and no stars, and is not over |
| `GameEngineModel.GameEngine.Initialize` | LanderGame/GameEngine.cs:52-90 | the engine's state becomes `InitialWorld`, so `InitialState` and `Consistent` hold of it |
| `GameEngineModel.GameEngine.BuildWorld` | LanderGame/GameEngine.cs:55-70 | craft, terrain and stars are built as `Built` describes, with no pads |
| `GameEngineModel.GameEngine.CreateObjects` | LanderGame/GameEngine.cs:55-62 | a fresh craft at (clientWidth / 2, 50) with 100 fuel, and a fresh empty terrain with 40 segments, variation 500 and baseline clientHeight - 20. The lists are cleared and the gravity is set |
| `GameEngineModel.GameEngine.PlaceInitialPad` | LanderGame/GameEngine.cs:73-81 | the stretch is levelled and the initial pad appended, as `PlacePad` with `InitialPad` describes |
| `GameEngineModel.GameEngine.LevelStretch` | LanderGame/GameEngine.cs:75 | only the samples change, becoming `Flattened` |
| `GameEngineModel.GameEngine.AppendPad` | LanderGame/GameEngine.cs:81 | the pad goes to the end of the list and nothing else changes |
| `GameEngineModel.GameEngine.ClearStatus` | LanderGame/GameEngine.cs:84-87 | the state becomes `StatusCleared` of the old state |
| `GameEngineModel.GameEngine.Reset` | LanderGame/GameEngine.cs:92-95 | Reset leaves the same state Initialize does |
| `GameEngineModel.GameEngine.GenerateStars` | LanderGame/GameEngine.cs:198-213 | the stars are the first 100 candidates the rejection loop accepts, in draw order |
| `GameEngineModel.GameEngine.NextStar` | LanderGame/GameEngine.cs:203-211 | one pass of the do-while consumes at least one candidate and returns the next accepted one |
| `GameEngineModel.GameEngine.UpdateInput` | LanderGame/GameEngine.cs:97-102 | the three input flags are overwritten and nothing else changes |
| `GameEngineModel.GameEngine.FindPad` | LanderGame/GameEngine.cs:135 | the index found is the first unused pad spanning x, or none |
| `GameEngineModel.GameEngine.CurrentPad` | LanderGame/GameEngine.cs:47 | the current pad is the last one. Under the engine invariant it is unused and every older pad is used |
| `GameEngineModel.GameEngine.GetTerrainYAt` | LanderGame/GameEngine.cs:247 | the terrain query on the engine's samples; within them it lies in [0, BaseY] |
| `GameEngineModel.GameEngine.GenerateDebris` | LanderGame/GameEngine.cs:215-225 | 30 wreckage pieces are appended, as `Fragments` describes |
| `GameEngineModel.GameEngine.UpdateDebris` | LanderGame/GameEngine.cs:227-244 | the wreckage becomes `DriftAll` of the old wreckage |
| `GameEngineModel.GameEngine.LandOnPad` | LanderGame/GameEngine.cs:142-158 | the state becomes `LandOn` of the old state |
| `GameEngineModel.GameEngine.SettleOnPad` | LanderGame/GameEngine.cs:143-148 | the state becomes `Settle` of the old state |
| `GameEngineModel.GameEngine.SpawnPad` | LanderGame/GameEngine.cs:151-158 | the state becomes `SpawnNext` of the old state |
| `GameEngineModel.GameEngine.LevelStretchAt` | LanderGame/GameEngine.cs:155 | only the samples change, flattened at the rounded indices |
| `GameEngineModel.GameEngine.CrashOnGround` | LanderGame/GameEngine.cs:163-180 | the state becomes `CrashAt` of the old state, with the pad found |
| `GameEngineModel.GameEngine.Tick` | LanderGame/GameEngine.cs:104-196 | the state becomes `TickModel` of the old state, so every lemma about `TickModel` (invariant, history, landing, crash, flight) holds of the object |
| `GameEngineModel.GameEngine.ResolveContact` | LanderGame/GameEngine.cs:129-193 | the state becomes `Resolve` of the state after the physics step |
| `GameEngineModel.GameEngine.FollowCraft` | LanderGame/GameEngine.cs:183-193 | the state becomes `Coast` of the old state: the camera follows and the wreckage drifts |

## Left out

- Drawing: `Draw`, `DrawLandingLegs` and `GetShipPolygon` in Lander.cs, `Terrain.Draw` and `LandingPad.Draw` are left out. They paint and compute nothing the simulation reads. The exception is `Terrain.Draw`'s call to `ExpandIfNeeded`, which is modelled as its own method.
- The window classes (`Form1`, `TitleScreen`) and the scratch programs at the repository root are not part of this model.
- The `GameStateChanged` and `RequestRedraw` events are left out. They notify the renderer and change no state.
- The WinForms blink `Timer` is not modelled as a clock. Each of its ticks is an explicit `BlinkTimerTick` call, which toggles the lights exactly while the timer runs.
- `IsUsed`: `FindPad`, `CurrentPad` and the model read a pad's used flag. In LandingPad.cs as given, no `IsUsed` member exists and `StopBlinking` only stops the timer and lights the pad. The model adds the flag and sets it in `StopBlinking`, the one place the engine marks a pad after a landing.
- `float` (single precision) rounding is not modelled; numbers are exact reals. `Math.PI` is the real constant 3.141592653589793.
- `Math.Sin` and `Math.Cos` are uninterpreted parameters. Nothing is proved that depends on their values.
- `System.Random` is left out: every draw is a parameter with the range the call promises.
- GameEngineModel.GameEngine.GenerateStars: the source's rejection loop runs until 100 candidates have landed above the terrain, however many draws that takes. The model requires a finite run of draws that contains at least 100 accepted candidates, so an endless run of rejected draws is not modelled.
- `Tick`'s `clientHeight` and `Generate`'s `screenHeight` parameters are never read, so they are dropped.
- `GameEngine.GetTerrainYAt`: in the source it is a test helper. It is modelled because `Tick` uses the same query.
- GameEngineModel.GameEngine.Valid adds a ghost serial number per pad object. This gives distinct pad objects, which the source gets from constructing each pad fresh.
- LanderModel.Lander.Update works out the new heading, velocity and fuel in locals and writes them back at once. The source assigns the properties one by one, and the result is the same.
- TerrainModel.Terrain.Flatten: the source throws `IndexOutOfRangeException` when the start index is in range but `startIdx + padSegments` is negative. The model's `FlattenSafe` precondition rules that input out; the engine never produces it.
- TerrainModel.Terrain.GetHeightAt: its contract states the baseline case and the band within the samples. The interpolation itself is stated on `HeightAt` by `HeightAtOnSegment`, `HeightAtSample`, `HeightAtMidpoint` and `HeightBeyondTail`, and `GameEngine.GetTerrainYAt` ties the query to `HeightAt`. It also requires a positive segment width when there are two or more samples: with a zero width the division at Terrain.cs:115 gives an infinite or NaN index, and with a negative one the position and the segment disagree in sign. Neither case is modelled; `Generate` with a positive screen width never produces them.
- TerrainModel.Terrain.Generate: requires `BaseY >= 0`, because with a negative baseline `Math.Clamp(ty, 0f, BaseY)` (Terrain.cs:38) throws `ArgumentException`. It also requires `visibleCount != 0`, because the float division at Terrain.cs:29 then gives an infinite or NaN segment width, which exact reals cannot hold. Neither failure is modelled.
- TerrainModel.Terrain.FlattenAt: requires `segmentWidth != 0`, because before `Generate` (or with width 0) the divisions at Terrain.cs:86-87 give an infinite or NaN index and an unspecified `(int)` cast of `Math.Round`. It also requires `FlattenSafe` on the rounded indices, because an in-range start with a negative rounded end makes `Flatten` throw `IndexOutOfRangeException` (see `TerrainModel.Terrain.Flatten`). Neither failure is modelled.
- TerrainModel.Terrain.ExpandIfNeeded: requires `segmentWidth != 0`, because before `Generate` (or with width 0) the division at Terrain.cs:45 gives an infinite or NaN index and an unspecified `(int)` cast. It also requires at least one sample whenever expansion is due, because `Expand` would otherwise read `Points[-1]` and throw `IndexOutOfRangeException`. Neither failure is modelled.
- TerrainModel.Terrain.Expand: requires at least one sample, because on an empty array `Points[oldCount - 1]` (Terrain.cs:59) throws `IndexOutOfRangeException`; that exception is not modelled.
- GameEngineModel.GameEngine.Initialize: requires `clientHeight >= 20` and `clientWidth > 0`. A lower window gives the terrain a negative baseline (GameEngine.cs:56), and `Generate`'s `Math.Clamp` throws `ArgumentException`. A zero width makes `60f / segW` infinite at GameEngine.cs:73. The thrown exception and the infinite width are not modelled.
- GameEngineModel.GameEngine.Reset: has the same requirement as `Initialize`, which it calls, for the same reason.
- GameEngineModel.GameEngine.BuildWorld: has the same window-size requirement as `Initialize`, for the same reason.
- GameEngineModel.GameEngine.CreateObjects: requires `clientHeight >= 20`, so that the terrain's baseline is not negative (see `Initialize`).
- EngineSetup.Built: has the same window-size requirement as `Initialize`, for the same reason.
- EngineSetup.InitialWorld: has the same window-size requirement as `Initialize`, for the same reason.
- EngineSetup.InitialState: has the same window-size requirement as `Initialize`, for the same reason.
- Integer overflow of `int` indices (`(int)` of a huge float) is not modelled: indices are unbounded integers truncated toward zero.

Behaviours of the code that a reader may not expect, each stated by a lemma:

- The camera moves backward when the craft drifts left of the margin (`FollowCamera`'s first branch); it does not only advance.
- A negative frame length makes fuel rise; `StepFuelBounds` only bounds it for delta >= 0.
- Past the generated tail, `GetHeightAt` extends the last segment's line rather than clamping to the last height (`HeightBeyondTail`).
- The next pad is placed by `offset` in [100, 200] segments. It may lie beyond the generated samples, in which case `FlattenAt` does nothing and its height is extrapolated.
- The stars are placed above the terrain as generated, before the initial pad's stretch is levelled.
- The crash-reason chain lists "missed pad" and a bare "Crashed", but neither can be reported (`CrashReasonPriority`).
- Pressing only a rotation key while landed counts as taking off. The craft sinks back under gravity, and its pad is already used, so the game ends with "Crashed: no pad" (`TurningOnThePadCrashes`).
- With a window narrower than two scroll margins the dead zone is empty and the camera jumps back and forth (`CameraOscillatesInNarrowWindow`).
