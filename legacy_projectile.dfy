/**
 * The older cannonball of pyrate/engine/projectile.py: the same flight and range
 * test as the current one, without damage, name or alive flag.
 */
module LegacyProjectiles {
  import opened Numeric
  import Projectiles

  /** Everything the older cannonball holds, as a value. */
  datatype BallView = BallView(
    x: real, y: real, startX: real, startY: real, angle: real, speed: real,
    radius: real, maxDistance: real)
  {
    /** `has_exceeded_range`: strictly farther than `max_distance` from the start point. */
    function ExceededRange(t: Trig): bool {
      t.Hypot(x - startX, y - startY) > maxDistance
    }

    /** The current cannonball with the same flight state. */
    function AsCurrent(): (r: Projectiles.CannonballView)
      ensures r.x == x && r.y == y && r.startX == startX && r.startY == startY
      ensures r.angle == angle && r.speed == speed && r.maxDistance == maxDistance
    {
      Projectiles.CannonballView(x, y, startX, startY, angle, speed, radius, maxDistance,
                                 Projectiles.Damage, 1.0, "Cannonball", true)
    }
  }

  /** `Cannonball(x, y, angle, speed=8, max_distance=600)`: the start point is where it was made. */
  function Spawned(x: real, y: real, angle: real, speed: real, maxDistance: real): (r: BallView)
    ensures r.x == r.startX == x && r.y == r.startY == y
    ensures r.angle == angle && r.speed == speed && r.maxDistance == maxDistance
    ensures r.radius == Projectiles.Radius
    ensures r.AsCurrent() == Projectiles.Spawned(x, y, angle, speed, maxDistance)
  {
    BallView(x, y, x, y, angle, speed, Projectiles.Radius, maxDistance)
  }

  /** `update`: one step of `speed` along the heading. */
  function Stepped(t: Trig, v: BallView): (r: BallView)
    ensures r.x - v.x == t.Cos(v.angle) * v.speed && r.y - v.y == t.Sin(v.angle) * v.speed
    ensures r == v.(x := r.x, y := r.y)
  {
    v.(x := v.x + t.Cos(v.angle) * v.speed, y := v.y + t.Sin(v.angle) * v.speed)
  }

  /** The older ball after n updates. */
  function SteppedTimes(t: Trig, v: BallView, n: nat): BallView {
    if n == 0 then v else Stepped(t, SteppedTimes(t, v, n - 1))
  }

  /** One update of the older ball is one update of the current one. */
  lemma StepAgrees(t: Trig, v: BallView)
    ensures Stepped(t, v).AsCurrent() == Projectiles.Stepped(t, v.AsCurrent())
  {
    var w := v.AsCurrent();
    var a, b := Stepped(t, v).AsCurrent(), Projectiles.Stepped(t, w);
    assert w.StepX(t) == t.Cos(v.angle) * v.speed && w.StepY(t) == t.Sin(v.angle) * v.speed;
    assert a.x == b.x && a.y == b.y;
    assert b == w.(x := b.x, y := b.y);
  }

  /** The range tests of the two balls agree on the same flight state. */
  lemma RangeAgrees(t: Trig, v: BallView)
    ensures v.ExceededRange(t) == v.AsCurrent().ExceededRange(t)
  {
    assert v.AsCurrent().Travelled(t) == t.Hypot(v.x - v.startX, v.y - v.startY);
  }

  /** The older ball flies exactly as the current one: n updates of either give the same
      flight state. */
  lemma {:induction false} FliesAsCurrent(t: Trig, v: BallView, n: nat)
    ensures SteppedTimes(t, v, n).AsCurrent() == Projectiles.SteppedTimes(t, v.AsCurrent(), n)
  {
    if n > 0 {
      FliesAsCurrent(t, v, n - 1);
      StepAgrees(t, SteppedTimes(t, v, n - 1));
    }
  }

  /** With the default speed and range, the older ball is out of range exactly after its
      75th update, like the current one. */
  lemma LegacyDefaultRange(t: Trig, x: real, y: real, angle: real, n: nat)
    requires t.Sound()
    ensures var v := Spawned(x, y, angle, Projectiles.DefaultSpeed, Projectiles.DefaultMaxDistance);
      SteppedTimes(t, v, n).ExceededRange(t) <==> n > 75
  {
    var v := Spawned(x, y, angle, Projectiles.DefaultSpeed, Projectiles.DefaultMaxDistance);
    FliesAsCurrent(t, v, n);
    RangeAgrees(t, SteppedTimes(t, v, n));
    Projectiles.DefaultRangeExceeded(t, x, y, angle, n);
  }

  class Cannonball {
    var x: real
    var y: real
    const startX: real
    const startY: real
    const angle: real
    const speed: real
    const radius: real
    const maxDistance: real

    function View(): BallView
      reads this
    {
      BallView(x, y, startX, startY, angle, speed, radius, maxDistance)
    }

    constructor (x0: real, y0: real, angle0: real, speed0: real := Projectiles.DefaultSpeed,
                 maxDistance0: real := Projectiles.DefaultMaxDistance)
      ensures View() == Spawned(x0, y0, angle0, speed0, maxDistance0)
    {
      x, y := x0, y0;
      startX, startY := x0, y0;
      angle := angle0;
      speed := speed0;
      radius := Projectiles.Radius;
      maxDistance := maxDistance0;
    }

    /** `update`. */
    method Update(t: Trig)
      modifies this
      ensures View() == Stepped(t, old(View()))
    {
      x := x + t.Cos(angle) * speed;
      y := y + t.Sin(angle) * speed;
    }

    /** `has_exceeded_range`. */
    method HasExceededRange(t: Trig) returns (b: bool)
      ensures b == View().ExceededRange(t)
    {
      b := t.Hypot(x - startX, y - startY) > maxDistance;
    }
  }
}
