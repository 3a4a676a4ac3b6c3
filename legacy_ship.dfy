/**
 * The older ship of pyrate/engine/ship.py: the same motion rules as the current
 * ship (friction, fixed acceleration and turning steps) with a top speed of 5,
 * and no cannons, health or hitbox.
 */
module LegacyShips {
  import opened Numeric
  import Ships

  const LegacyMaxSpeed: real := 5.0

  /** Everything the older ship holds, as a value. */
  datatype HullView = HullView(x: real, y: real, angle: real, speed: real)
  {
    /** The speeds this ship can reach: from one friction step below zero to the top speed. */
    predicate Valid() {
      -Ships.Friction <= speed <= LegacyMaxSpeed
    }
  }

  /** A new ship at (x, y), at rest and heading 0. */
  function Launched(x: real, y: real): (r: HullView)
    ensures r.x == x && r.y == y && r.angle == 0.0 && r.speed == 0.0
    ensures r.Valid()
  {
    HullView(x, y, 0.0, 0.0)
  }

  /** `update`: the friction step shared with the current ship, then one step along the heading. */
  function Moved(t: Trig, v: HullView): (r: HullView)
    ensures r.speed == Ships.AfterFriction(v.speed)
    ensures r.x - v.x == r.speed * t.Cos(v.angle) && r.y - v.y == r.speed * t.Sin(v.angle)
    ensures r.angle == v.angle
    ensures v.Valid() ==> r.Valid()
  {
    var s := Ships.AfterFriction(v.speed);
    v.(speed := s, x := v.x + s * t.Cos(v.angle), y := v.y + s * t.Sin(v.angle))
  }

  /** `accelerate`: one step of 0.2 up, never past 5. */
  function Accelerated(v: HullView): (r: HullView)
    ensures r == v.(speed := r.speed)
    ensures v.speed <= LegacyMaxSpeed - Ships.Acceleration ==> r.speed == v.speed + Ships.Acceleration
    ensures v.speed >= LegacyMaxSpeed - Ships.Acceleration ==> r.speed == LegacyMaxSpeed
    ensures v.Valid() ==> r.Valid() && 0.0 <= r.speed
  {
    v.(speed := Min(v.speed + Ships.Acceleration, LegacyMaxSpeed))
  }

  /** `decelerate`: one step of 0.2 down, never below zero. */
  function Decelerated(v: HullView): (r: HullView)
    ensures r == v.(speed := r.speed)
    ensures v.speed >= Ships.Acceleration ==> r.speed == v.speed - Ships.Acceleration
    ensures v.speed <= Ships.Acceleration ==> r.speed == 0.0
    ensures v.Valid() ==> r.Valid() && 0.0 <= r.speed
  {
    v.(speed := Max(v.speed - Ships.Acceleration, 0.0))
  }

  /** `turn_left` (delta = -3) and `turn_right` (delta = 3): only the heading changes. */
  function Turned(v: HullView, delta: real): (r: HullView)
    ensures r.angle - v.angle == delta
    ensures r == v.(angle := r.angle)
  {
    v.(angle := v.angle + delta)
  }

  /** The ship after n calls of `accelerate`. */
  function AcceleratedTimes(v: HullView, n: nat): HullView {
    if n == 0 then v else Accelerated(AcceleratedTimes(v, n - 1))
  }

  /** n calls of `accelerate` add n steps until the speed saturates at 5; from rest that
      takes 25 calls. */
  lemma {:induction false} LegacyAccelerationSaturates(v: HullView, n: nat)
    requires v.speed <= LegacyMaxSpeed
    ensures AcceleratedTimes(v, n) == v.(speed := Min(v.speed + n as real * Ships.Acceleration, LegacyMaxSpeed))
  {
    if n > 0 {
      LegacyAccelerationSaturates(v, n - 1);
    }
  }

  class Ship {
    var x: real
    var y: real
    var angle: real
    var speed: real

    function View(): HullView
      reads this
    {
      HullView(x, y, angle, speed)
    }

    /** `Ship(x, y)`. */
    constructor (x0: real, y0: real)
      ensures View() == Launched(x0, y0)
    {
      x, y := x0, y0;
      angle := 0.0;
      speed := 0.0;
    }

    /** `update`. */
    method Update(t: Trig)
      modifies this
      ensures View() == Moved(t, old(View()))
    {
      if speed > 0.0 {
        speed := speed - Ships.Friction;
      } else if speed < 0.0 {
        speed := speed + Ships.Friction;
      }
      x := x + speed * t.Cos(angle);
      y := y + speed * t.Sin(angle);
    }

    /** `accelerate`. */
    method Accelerate()
      modifies this
      ensures View() == Accelerated(old(View()))
    {
      speed := Min(speed + Ships.Acceleration, LegacyMaxSpeed);
    }

    /** `decelerate`. */
    method Decelerate()
      modifies this
      ensures View() == Decelerated(old(View()))
    {
      speed := Max(speed - Ships.Acceleration, 0.0);
    }

    /** `turn_left`. */
    method TurnLeft()
      modifies this
      ensures View() == Turned(old(View()), -Ships.RotationSpeed)
    {
      angle := angle - Ships.RotationSpeed;
    }

    /** `turn_right`. */
    method TurnRight()
      modifies this
      ensures View() == Turned(old(View()), Ships.RotationSpeed)
    {
      angle := angle + Ships.RotationSpeed;
    }
  }
}
