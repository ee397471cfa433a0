/** The player's craft (LanderGame/Lander.cs): position, velocity, heading and fuel,
    advanced once per frame by a semi-implicit Euler step. The trigonometric functions
    are parameters (`sin`, `cos`), so nothing here depends on how they are computed. */
module LanderModel {
  import opened Primitives

  const ThrustPower: real := 0.002
  const RotationSpeed: real := 0.005
  const FuelConsumptionRate: real := 0.02

  /** A snapshot of every field of a Lander, including the capacity fixed at construction. */
  datatype Craft = Craft(x: real, y: real, vx: real, vy: real, angle: real, fuel: real, maxFuel: real)

  /** One frame's controls: the frame length and the three keys. */
  datatype Controls = Controls(delta: real, thrusting: bool, left: bool, right: bool)

  /** The main engine fires only when thrust is requested and the tank is not empty. */
  predicate Burns(c: Craft, thrusting: bool) {
    thrusting && c.fuel > 0.0
  }

  /** The velocity change a burn of length delta gives along heading a: sin(a) across
      and -cos(a) down, scaled by the thrust power. */
  function Impulse(a: real, delta: real, sin: real -> real, cos: real -> real): (r: Point) {
    Point(sin(a) * ThrustPower * delta, -cos(a) * ThrustPower * delta)
  }

  /** Lander.Update: rotate (left first, then right), burn if possible (velocity along the
      heading, fuel down by the consumption rate and floored at zero), add gravity, then
      move by the updated velocity. */
  function Step(c: Craft, delta: real, thrusting: bool, left: bool, right: bool, gravity: real,
                sin: real -> real, cos: real -> real): (r: Craft)
    ensures r.maxFuel == c.maxFuel
    ensures !Burns(c, thrusting) ==> r.fuel == c.fuel
  {
    var a1 := if left then c.angle - RotationSpeed * delta else c.angle;
    var a := if right then a1 + RotationSpeed * delta else a1;
    var burn := Burns(c, thrusting);
    var dv := Impulse(a, delta, sin, cos);
    var vx := if burn then c.vx + dv.x else c.vx;
    var vy1 := if burn then c.vy + dv.y else c.vy;
    var f1 := c.fuel - FuelConsumptionRate * delta;
    var fuel := if burn then (if f1 < 0.0 then 0.0 else f1) else c.fuel;
    var vy := vy1 + gravity * delta;
    Craft(c.x + vx * delta, c.y + vy * delta, vx, vy, a, fuel, c.maxFuel)
  }

  /** What one frame does: the heading turns by RotationSpeed * delta per held key
      (opposite keys cancel); a burn accelerates along the heading and drains the tank,
      never below zero; coasting leaves fuel and horizontal speed alone; gravity always
      acts; the position moves by the already updated velocity. */
  lemma StepLaws(c: Craft, delta: real, thrusting: bool, left: bool, right: bool, gravity: real,
                 sin: real -> real, cos: real -> real)
    ensures var r := Step(c, delta, thrusting, left, right, gravity, sin, cos);
            && r.angle == c.angle + RotationSpeed * delta * (Indicator(right) - Indicator(left))
            && (Burns(c, thrusting) ==>
                  && r.vx == c.vx + sin(r.angle) * ThrustPower * delta
                  && r.vy == c.vy - cos(r.angle) * ThrustPower * delta + gravity * delta
                  && r.fuel == MaxReal(0.0, c.fuel - FuelConsumptionRate * delta))
            && (!Burns(c, thrusting) ==> r.vx == c.vx && r.vy == c.vy + gravity * delta && r.fuel == c.fuel)
            && r.x == c.x + r.vx * delta && r.y == c.y + r.vy * delta
  {
  }

  /** The tank never goes negative, and with a non-negative frame length it never fills. */
  lemma StepFuelBounds(c: Craft, delta: real, thrusting: bool, left: bool, right: bool, gravity: real,
                       sin: real -> real, cos: real -> real)
    requires c.fuel >= 0.0
    ensures Step(c, delta, thrusting, left, right, gravity, sin, cos).fuel >= 0.0
    ensures delta >= 0.0 ==> Step(c, delta, thrusting, left, right, gravity, sin, cos).fuel <= c.fuel
  {
  }

  /** A sequence of frames, applied in order. */
  function Fly(c: Craft, frames: seq<Controls>, gravity: real, sin: real -> real, cos: real -> real): (r: Craft)
    ensures r.maxFuel == c.maxFuel
    decreases |frames|
  {
    if |frames| == 0 then c
    else
      var f := frames[0];
      Fly(Step(c, f.delta, f.thrusting, f.left, f.right, gravity, sin, cos), frames[1..], gravity, sin, cos)
  }

  /** With non-negative frame lengths the tank only drains, and never below zero. */
  lemma {:induction false} FuelNeverRises(c: Craft, frames: seq<Controls>, gravity: real, sin: real -> real, cos: real -> real)
    requires c.fuel >= 0.0
    requires forall i :: 0 <= i < |frames| ==> frames[i].delta >= 0.0
    ensures 0.0 <= Fly(c, frames, gravity, sin, cos).fuel <= c.fuel
    decreases |frames|
  {
    if |frames| > 0 {
      var f := frames[0];
      var next := Step(c, f.delta, f.thrusting, f.left, f.right, gravity, sin, cos);
      StepFuelBounds(c, f.delta, f.thrusting, f.left, f.right, gravity, sin, cos);
      FuelNeverRises(next, frames[1..], gravity, sin, cos);
    }
  }

  /** Without thrust the horizontal velocity and the fuel never change, whatever the keys. */
  lemma {:induction false} CoastingKeepsDriftAndFuel(c: Craft, frames: seq<Controls>, gravity: real, sin: real -> real, cos: real -> real)
    requires forall i :: 0 <= i < |frames| ==> !frames[i].thrusting
    ensures Fly(c, frames, gravity, sin, cos).vx == c.vx
    ensures Fly(c, frames, gravity, sin, cos).fuel == c.fuel
    decreases |frames|
  {
    if |frames| > 0 {
      var f := frames[0];
      var next := Step(c, f.delta, f.thrusting, f.left, f.right, gravity, sin, cos);
      CoastingKeepsDriftAndFuel(next, frames[1..], gravity, sin, cos);
    }
  }

  /** With an empty tank the thrust key has no effect at all. */
  lemma EmptyTankIgnoresThrust(c: Craft, delta: real, left: bool, right: bool, gravity: real, sin: real -> real, cos: real -> real)
    requires c.fuel <= 0.0
    ensures Step(c, delta, true, left, right, gravity, sin, cos) == Step(c, delta, false, left, right, gravity, sin, cos)
  {
    StepLaws(c, delta, true, left, right, gravity, sin, cos);
    StepLaws(c, delta, false, left, right, gravity, sin, cos);
  }

  /** A burn longer than the remaining fuel allows empties the tank exactly. */
  lemma BurnEmptiesTank(c: Craft, delta: real, left: bool, right: bool, gravity: real, sin: real -> real, cos: real -> real)
    requires c.fuel > 0.0 && c.fuel <= FuelConsumptionRate * delta
    ensures Step(c, delta, true, left, right, gravity, sin, cos).fuel == 0.0
  {
  }

  /** Holding both rotation keys leaves the heading unchanged. */
  lemma OpposingKeysCancel(c: Craft, delta: real, thrusting: bool, gravity: real, sin: real -> real, cos: real -> real)
    ensures Step(c, delta, thrusting, true, true, gravity, sin, cos).angle == c.angle
  {
  }

  /** Lander.GetFlamePolygon: no flame unless thrusting with fuel in the tank; otherwise a
      triangle with base corners (-5, 20) and (5, 20) and a tip at (0, 20 + tipJitter),
      where tipJitter is the generator's Next(5, 15) draw. */
  function FlamePolygon(fuel: real, thrusting: bool, tipJitter: int): (r: Option<seq<Point>>)
    requires 5 <= tipJitter < 15
    ensures r.None? <==> !thrusting || fuel <= 0.0
    ensures r.Some? ==> |r.value| == 3
    ensures r.Some? ==> r.value[0] == Point(-5.0, 20.0) && r.value[2] == Point(5.0, 20.0)
    ensures r.Some? ==> r.value[1].x == 0.0 && 25.0 <= r.value[1].y <= 34.0
  {
    if !thrusting || fuel <= 0.0 then None
    else Some([Point(-5.0, 20.0), Point(0.0, 20.0 + tipJitter as real), Point(5.0, 20.0)])
  }

  class Lander {
    const maxFuel: real
    var X: real
    var Y: real
    var Vx: real
    var Vy: real
    var Angle: real
    var Fuel: real

    /** The lander's fields as a value. */
    function State(): (c: Craft)
      reads this
      ensures c.maxFuel == maxFuel && c.fuel == Fuel
    {
      Craft(X, Y, Vx, Vy, Angle, Fuel, maxFuel)
    }

    /** The capacity is the starting fuel; the craft starts at rest, upright, full. */
    constructor (startX: real, startY: real, startFuel: real)
      ensures State() == Craft(startX, startY, 0.0, 0.0, 0.0, startFuel, startFuel)
    {
      maxFuel := startFuel;
      new;
      Reset(startX, startY, startFuel);
    }

    /** Refills the tank to the capacity fixed at construction; nothing else changes. */
    method Refuel()
      modifies this
      ensures State() == old(State()).(fuel := maxFuel)
    {
      Fuel := maxFuel;
    }

    /** Moves the craft to a start position, at rest and upright, with the given fuel
        (the capacity is not changed). */
    method Reset(startX: real, startY: real, startFuel: real)
      modifies this
      ensures State() == Craft(startX, startY, 0.0, 0.0, 0.0, startFuel, maxFuel)
    {
      X := startX;
      Y := startY;
      Vx := 0.0;
      Vy := 0.0;
      Angle := 0.0;
      Fuel := startFuel;
    }

    /** One physics frame, as Step describes it. The new heading, velocity and fuel are
        worked out in locals and written back together with the new position. */
    method Update(delta: real, thrusting: bool, rotatingLeft: bool, rotatingRight: bool, gravity: real,
                  sin: real -> real, cos: real -> real)
      modifies this
      ensures State() == Step(old(State()), delta, thrusting, rotatingLeft, rotatingRight, gravity, sin, cos)
    {
      ghost var next := Step(State(), delta, thrusting, rotatingLeft, rotatingRight, gravity, sin, cos);
      var angle, vx, vy, fuel := Angle, Vx, Vy, Fuel;
      if rotatingLeft {
        angle := angle - RotationSpeed * delta;
      }
      if rotatingRight {
        angle := angle + RotationSpeed * delta;
      }
      if thrusting && fuel > 0.0 {
        var dv := Impulse(angle, delta, sin, cos);
        vx, vy := vx + dv.x, vy + dv.y;
        fuel := fuel - FuelConsumptionRate * delta;
        if fuel < 0.0 {
          fuel := 0.0;
        }
      }
      vy := vy + gravity * delta;
      assert angle == next.angle && vx == next.vx && vy == next.vy && fuel == next.fuel;
      X, Y, Vx, Vy, Angle, Fuel := X + vx * delta, Y + vy * delta, vx, vy, angle, fuel;
    }

    /** Overwrites position, heading and velocity; fuel and capacity are kept. */
    method SetState(x: real, y: real, angle: real, vx: real, vy: real)
      modifies this
      ensures State() == old(State()).(x := x, y := y, angle := angle, vx := vx, vy := vy)
    {
      X := x;
      Y := y;
      Angle := angle;
      Vx := vx;
      Vy := vy;
    }

    /** The flame drawn under the craft, as FlamePolygon describes it. */
    function GetFlamePolygon(thrusting: bool, tipJitter: int): (r: Option<seq<Point>>)
      requires 5 <= tipJitter < 15
      reads this
      ensures r.None? <==> !thrusting || Fuel <= 0.0
      ensures r.Some? ==> |r.value| == 3
    {
      FlamePolygon(Fuel, thrusting, tipJitter)
    }
  }
}
