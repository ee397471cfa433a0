/** A landing pad (LanderGame/LandingPad.cs): a fixed placement, landing lights that a
    blink timer toggles, and a one-way "used" mark set when the craft lands on it. The
    timer is started by the constructor and stopped only by StopBlinking, so it is
    running exactly while the pad is unused; its ticks are modelled as explicit calls. */
module LandingPadModel {

  /** The observable fields of a pad. */
  datatype PadState = PadState(x: real, width: real, y: real, lightsVisible: bool, used: bool)

  /** The pad's horizontal extent contains x (both ends included). */
  predicate Covers(p: PadState, x: real) {
    p.x <= x <= p.x + p.width
  }

  /** Placement is fixed once the pad exists. */
  predicate SamePlacement(p: PadState, q: PadState) {
    p.x == q.x && p.width == q.width && p.y == q.y
  }

  /** ToggleLights: the lights flag flips; nothing else changes. */
  function Toggled(p: PadState): (r: PadState)
    ensures SamePlacement(p, r) && r.used == p.used
    ensures r.lightsVisible != p.lightsVisible
  {
    p.(lightsVisible := !p.lightsVisible)
  }

  /** StopBlinking: the timer stops, the lights stay on and the pad is marked used. */
  function Stopped(p: PadState): (r: PadState)
    ensures SamePlacement(p, r) && r.used && r.lightsVisible
  {
    p.(lightsVisible := true, used := true)
  }

  /** One tick of the blink timer: it toggles the lights while it is running, that is
      while the pad is unused, and does nothing once it has been stopped. */
  function TimerTicked(p: PadState): (r: PadState)
    ensures p.used ==> r == p
    ensures !p.used ==> r == Toggled(p)
  {
    if p.used then p else Toggled(p)
  }

  /** Everything that can happen to a pad after construction. */
  datatype PadEvent = Toggle | Stop | TimerTick

  function Apply(p: PadState, e: PadEvent): (r: PadState) {
    match e
    case Toggle => Toggled(p)
    case Stop => Stopped(p)
    case TimerTick => TimerTicked(p)
  }

  function ApplyAll(p: PadState, events: seq<PadEvent>): (r: PadState)
    decreases |events|
  {
    if |events| == 0 then p else ApplyAll(Apply(p, events[0]), events[1..])
  }

  /** Toggling twice restores the lights. */
  lemma ToggleTwiceIsIdentity(p: PadState)
    ensures Toggled(Toggled(p)) == p
  {
  }

  /** Stopping is idempotent. */
  lemma StopIsIdempotent(p: PadState)
    ensures Stopped(Stopped(p)) == Stopped(p)
  {
  }

  /** Whatever happens, a pad keeps its placement, and once used it stays used. */
  lemma {:induction false} UsedIsPermanent(p: PadState, events: seq<PadEvent>)
    ensures SamePlacement(p, ApplyAll(p, events))
    ensures p.used ==> ApplyAll(p, events).used
    decreases |events|
  {
    if |events| > 0 {
      UsedIsPermanent(Apply(p, events[0]), events[1..]);
    }
  }

  /** After StopBlinking the timer has no effect: any number of ticks leave the lights on. */
  lemma {:induction false} StoppedLightsStayOn(p: PadState, ticks: nat)
    ensures ApplyAll(Stopped(p), seq(ticks, _ => TimerTick)) == Stopped(p)
    decreases ticks
  {
    if ticks > 0 {
      var rest := seq(ticks - 1, _ => TimerTick);
      assert seq(ticks, _ => TimerTick) == [TimerTick] + rest;
      assert ([TimerTick] + rest)[1..] == rest;
      StoppedLightsStayOn(p, ticks - 1);
    }
  }

  /** While unused, an even number of ticks brings the lights back to where they were. */
  lemma {:induction false} EvenTicksRestoreLights(p: PadState, pairs: nat)
    requires !p.used
    ensures ApplyAll(p, seq(2 * pairs, _ => TimerTick)) == p
    decreases pairs
  {
    if pairs > 0 {
      var rest := seq(2 * (pairs - 1), _ => TimerTick);
      assert seq(2 * pairs, _ => TimerTick) == [TimerTick, TimerTick] + rest;
      assert ([TimerTick, TimerTick] + rest)[1..] == [TimerTick] + rest;
      assert ([TimerTick] + rest)[1..] == rest;
      EvenTicksRestoreLights(p, pairs - 1);
    }
  }

  class LandingPad {
    const X: real
    const Width: real
    const Y: real
    const blinkIntervalMs: int
    /** A serial number: the pad's position in the engine's list, fixed at creation. */
    ghost const serial: nat
    var LightsVisible: bool
    var IsUsed: bool

    function State(): (p: PadState)
      reads this
      ensures p.x == X && p.width == Width && p.y == Y
    {
      PadState(X, Width, Y, LightsVisible, IsUsed)
    }

    /** The placement is stored as given; the lights start on and the blink timer running. */
    constructor (x: real, width: real, y: real, blinkInterval: int, ghost serialNumber: nat)
      ensures State() == PadState(x, width, y, true, false)
      ensures blinkIntervalMs == blinkInterval && serial == serialNumber
    {
      serial := serialNumber;
      X := x;
      Width := width;
      Y := y;
      blinkIntervalMs := blinkInterval;
      LightsVisible := true;
      IsUsed := false;
    }

    method ToggleLights()
      modifies this
      ensures State() == Toggled(old(State()))
    {
      LightsVisible := !LightsVisible;
    }

    method StopBlinking()
      modifies this
      ensures State() == Stopped(old(State()))
    {
      IsUsed := true;
      LightsVisible := true;
    }

    /** The timer's Tick handler, which calls ToggleLights while the timer runs. */
    method BlinkTimerTick()
      modifies this
      ensures State() == TimerTicked(old(State()))
    {
      if !IsUsed {
        ToggleLights();
      }
    }
  }
}
