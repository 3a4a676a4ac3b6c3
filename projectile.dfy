/**
 * The cannonball of pyrate/engine/entities/projectile.py.  It flies in a straight
 * line from the point where it was fired and is out of range once it is more than
 * `max_distance` away from that point.
 */
module Projectiles {
  import opened Numeric
  import opened Geometry

  const DefaultSpeed: real := 8.0
  const DefaultMaxDistance: real := 600.0
  const Radius: real := 5.0
  const Damage: real := 30.0

  /** Everything a cannonball holds, as a value. */
  datatype CannonballView = CannonballView(
    x: real, y: real, startX: real, startY: real, angle: real, speed: real,
    radius: real, maxDistance: real, damage: real, dmgCoeff: real, name: string, isAlive: bool)
  {
    /** The displacement of one update, along each axis. */
    function StepX(t: Trig): real {
      t.Cos(angle) * speed
    }

    function StepY(t: Trig): real {
      t.Sin(angle) * speed
    }

    /** How far the ball is from the point it was fired from. */
    function Travelled(t: Trig): (r: real)
      ensures t.SqrtSound() ==> 0.0 <= r && Sq(r) == Sq(x - startX) + Sq(y - startY)
    {
      t.Hypot(x - startX, y - startY)
    }

    /** `has_exceeded_range`: strictly farther than `max_distance` from the start point. */
    function ExceededRange(t: Trig): bool {
      Travelled(t) > maxDistance
    }

    /** `get_hitbox`: the axis-aligned square of half-side `radius` around the ball. */
    function Hitbox(): (r: Polygon)
      ensures |r| == 4
      ensures r[0].x + r[2].x == 2.0 * x && r[0].y + r[2].y == 2.0 * y
      ensures r[1].x - r[0].x == 2.0 * radius && r[2].y - r[1].y == 2.0 * radius
    {
      Square(x, y, radius)
    }
  }

  /** The state of a cannonball just fired from (x, y) along `angle`. */
  function Spawned(x: real, y: real, angle: real, speed: real, maxDistance: real): (r: CannonballView)
    ensures r.x == r.startX == x && r.y == r.startY == y
    ensures r.angle == angle && r.speed == speed && r.maxDistance == maxDistance
    ensures r.radius == Radius && r.damage == Damage && r.isAlive
  {
    CannonballView(x, y, x, y, angle, speed, Radius, maxDistance, Damage, 1.0, "Cannonball", true)
  }

  /** `update`: one step of `speed` along the heading; only the position changes. */
  function Stepped(t: Trig, v: CannonballView): (r: CannonballView)
    ensures r.x - v.x == t.Cos(v.angle) * v.speed && r.y - v.y == t.Sin(v.angle) * v.speed
    ensures r == v.(x := r.x, y := r.y)
  {
    v.(x := v.x + v.StepX(t), y := v.y + v.StepY(t))
  }

  /** The ball after n updates. */
  function SteppedTimes(t: Trig, v: CannonballView, n: nat): CannonballView {
    if n == 0 then v else Stepped(t, SteppedTimes(t, v, n - 1))
  }

  /** The length covered by n steps of `step`, summed step by step. */
  function Along(n: nat, step: real): (r: real)
    ensures 0.0 <= step ==> 0.0 <= r
  {
    if n == 0 then 0.0 else Along(n - 1, step) + step
  }

  /** Summing n steps is multiplying. */
  lemma {:induction false} AlongIsProduct(n: nat, step: real)
    ensures Along(n, step) == n as real * step
  {
    if n > 0 {
      AlongIsProduct(n - 1, step);
    }
  }

  /** n steps of c * s cover c times what n steps of s cover. */
  lemma AlongScaled(n: nat, c: real, s: real)
    ensures Along(n, c * s) == Along(n, s) * c
  {
    AlongIsProduct(n, c * s);
    AlongIsProduct(n, s);
    assert n as real * (c * s) == (n as real * s) * c;
  }

  /** n updates add n velocity steps to the position and change nothing else. */
  lemma {:induction false} SteppedTimesPosition(t: Trig, v: CannonballView, n: nat)
    ensures SteppedTimes(t, v, n) == v.(x := v.x + Along(n, v.StepX(t)), y := v.y + Along(n, v.StepY(t)))
  {
    if n > 0 {
      SteppedTimesPosition(t, v, n - 1);
    }
  }

  /** n updates cover n steps' length along the heading. */
  lemma AlongHeading(t: Trig, v: CannonballView, n: nat)
    ensures Along(n, v.StepX(t)) == Along(n, v.speed) * t.Cos(v.angle)
    ensures Along(n, v.StepY(t)) == Along(n, v.speed) * t.Sin(v.angle)
  {
    AlongScaled(n, t.Cos(v.angle), v.speed);
    AlongScaled(n, t.Sin(v.angle), v.speed);
  }

  /** A ball that starts at its start point on a unit heading is, after n updates,
      n steps' length from it (stated on squares). */
  lemma SquaredTravelAfter(t: Trig, v: CannonballView, n: nat)
    requires Sq(t.Cos(v.angle)) + Sq(t.Sin(v.angle)) == 1.0
    requires v.x == v.startX && v.y == v.startY
    ensures var r := SteppedTimes(t, v, n);
      Sq(r.x - r.startX) + Sq(r.y - r.startY) == Sq(Along(n, v.speed))
  {
    SteppedTimesPosition(t, v, n);
    AlongHeading(t, v, n);
    var r := SteppedTimes(t, v, n);
    assert r.x - r.startX == Along(n, v.speed) * t.Cos(v.angle);
    assert r.y - r.startY == Along(n, v.speed) * t.Sin(v.angle);
    RotatedLength(Along(n, v.speed), t.Cos(v.angle), t.Sin(v.angle));
  }

  /** With sound trigonometry, a ball fired with a non-negative speed is exactly
      n * speed away from its start after n updates. */
  lemma DistanceAfter(t: Trig, x: real, y: real, angle: real, speed: real, maxDistance: real, n: nat)
    requires t.Sound() && 0.0 <= speed
    ensures SteppedTimes(t, Spawned(x, y, angle, speed, maxDistance), n).Travelled(t) == n as real * speed
  {
    var v := Spawned(x, y, angle, speed, maxDistance);
    SquaredTravelAfter(t, v, n);
    SquareInjective(SteppedTimes(t, v, n).Travelled(t), Along(n, speed));
    AlongIsProduct(n, speed);
  }

  /** With the default speed and range (8 and 600), the range test first fires on the
      76th update: the ball is out of range exactly when n > 75. */
  lemma DefaultRangeExceeded(t: Trig, x: real, y: real, angle: real, n: nat)
    requires t.Sound()
    ensures SteppedTimes(t, Spawned(x, y, angle, DefaultSpeed, DefaultMaxDistance), n).ExceededRange(t)
            <==> n > 75
  {
    DistanceAfter(t, x, y, angle, DefaultSpeed, DefaultMaxDistance, n);
    SteppedTimesPosition(t, Spawned(x, y, angle, DefaultSpeed, DefaultMaxDistance), n);
    if n > 75 {
      assert n as real >= 76.0;
    } else {
      assert n as real <= 75.0;
    }
  }

  /** The range test is the comparison of squared distances. */
  lemma ExceededRangeSquared(t: Trig, v: CannonballView)
    requires t.Sound() && 0.0 <= v.maxDistance
    ensures v.ExceededRange(t) <==> Sq(v.x - v.startX) + Sq(v.y - v.startY) > Sq(v.maxDistance)
  {
    SquareMonotone(v.maxDistance, v.Travelled(t));
  }

  /** A ball is never out of range where it was fired (for a non-negative range). */
  lemma NotExceededAtSpawn(t: Trig, x: real, y: real, angle: real, speed: real, maxDistance: real)
    requires t.Sound() && 0.0 <= maxDistance
    ensures !Spawned(x, y, angle, speed, maxDistance).ExceededRange(t)
  {
  }

  class Cannonball {
    var x: real
    var y: real
    var isAlive: bool
    const startX: real
    const startY: real
    const angle: real
    const speed: real
    const radius: real
    const maxDistance: real
    const damage: real
    const dmgCoeff: real
    const name: string

    function View(): CannonballView
      reads this
    {
      CannonballView(x, y, startX, startY, angle, speed, radius, maxDistance, damage, dmgCoeff, name, isAlive)
    }

    /** `Cannonball(x, y, angle, speed=8, max_distance=600)`. */
    constructor (x0: real, y0: real, angle0: real, speed0: real := DefaultSpeed,
                 maxDistance0: real := DefaultMaxDistance)
      ensures View() == Spawned(x0, y0, angle0, speed0, maxDistance0)
    {
      x, y := x0, y0;
      startX, startY := x0, y0;
      angle := angle0;
      speed := speed0;
      radius := Radius;
      maxDistance := maxDistance0;
      damage := Damage;
      dmgCoeff := 1.0;
      name := "Cannonball";
      isAlive := true;
    }

    /** `update`. */
    method Update(t: Trig)
      modifies this
      ensures View() == Stepped(t, old(View()))
    {
      x := x + t.Cos(angle) * speed;
      y := y + t.Sin(angle) * speed;
    }

    /** `has_exceeded_range`. */
    method HasExceededRange(t: Trig) returns (b: bool)
      ensures b == View().ExceededRange(t)
    {
      b := t.Hypot(x - startX, y - startY) > maxDistance;
    }

    /** `apply_damage`: a cannonball takes no damage. */
    method ApplyDamage(amount: real)
      ensures View() == old(View())
    {
    }
  }
}
