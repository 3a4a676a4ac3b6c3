/**
 * The player ship of pyrate/engine/entities/ship.py: a heading in degrees, a
 * speed kept in check by acceleration limits and friction, two cannons (left
 * and right) with independent cooldowns, and a health bar whose exhaustion
 * clears the `is_living` flag for good.
 *
 * Each method of the class is specified by a function on `ShipView`, the value
 * of all the ship's fields; the lemmas and the functions' own contracts state
 * what those transitions guarantee.
 */
module Ships {
  import opened Numeric
  import opened Geometry
  import opened Projectiles

  const MaxSpeed: real := 2.0
  const Acceleration: real := 0.2
  const RotationSpeed: real := 3.0
  const Friction: real := 0.05
  const Cooldown: real := 4.0
  const MaxHealth: real := 100.0
  const Width: real := 50.0
  const Height: real := 20.0
  /** How far from the centre a cannonball appears. */
  const MuzzleDistance: real := 20.0

  /** The two cannons, the keys of `last_fire_time`. */
  datatype Side = Left | Right
  {
    function Other(): (r: Side)
      ensures r != this
    {
      if this == Left then Right else Left
    }
  }

  /** The team a player ship fights for; ships built without one have none. */
  datatype Team = TeamA | TeamB | NoTeam

  /** Everything a ship holds, as a value.  `isAlive` is the flag inherited from the
      base entity; `isLiving` is the ship's own. */
  datatype ShipView = ShipView(
    x: real, y: real, angle: real, speed: real, health: real, isLiving: bool,
    lastFire: map<Side, real>, projectiles: seq<Cannonball>, team: Team,
    name: string, dmgCoeff: real, isAlive: bool)
  {
    /** What every reachable ship state satisfies: the speed lies between a friction
        step below zero and the maximum, the health in [0, 100], the ship is living
        exactly while it has health left, and both cannons have a timer. */
    predicate Valid() {
      && -Friction <= speed <= MaxSpeed
      && 0.0 <= health <= MaxHealth
      && (isLiving <==> health > 0.0)
      && Left in lastFire && Right in lastFire
    }

    /** `get_hitbox`: the Width x Height rectangle turned to the heading. */
    function Hitbox(t: Trig): (r: Polygon)
      ensures |r| == 4
      ensures r[0].x + r[2].x == 2.0 * x && r[0].y + r[2].y == 2.0 * y
      ensures r[1].x + r[3].x == 2.0 * x && r[1].y + r[3].y == 2.0 * y
    {
      RotatedRect(x, y, Width / 2.0, Height / 2.0, t.Cos(angle), t.Sin(angle))
    }
  }

  /** A new ship at (x, y): at rest, full health, living, both cannons ready at time 0. */
  function Launched(x: real, y: real, angle: real, team: Team): (r: ShipView)
    ensures r.Valid()
    ensures r.x == x && r.y == y && r.angle == angle && r.team == team
    ensures r.speed == 0.0 && r.health == MaxHealth && r.isLiving && r.isAlive
    ensures r.lastFire == map[Left := 0.0, Right := 0.0] && r.projectiles == []
  {
    ShipView(x, y, angle, 0.0, MaxHealth, true, map[Left := 0.0, Right := 0.0], [], team, "Ship", 1.0, true)
  }

  /** The friction step of `update`: a non-zero speed moves toward zero by exactly
      `Friction` (it may cross zero when smaller than that); zero stays zero. */
  function AfterFriction(s: real): (r: real)
    ensures s == 0.0 ==> r == 0.0
    ensures s != 0.0 ==> Abs(r - s) == Friction && (s < 0.0 <==> r > s)
    ensures Friction <= Abs(s) ==> Abs(r) == Abs(s) - Friction
    ensures -Friction <= s <= MaxSpeed ==> -Friction <= r <= MaxSpeed
  {
    if s > 0.0 then s - Friction else if s < 0.0 then s + Friction else s
  }

  /** `update`: friction first, then one step of the new speed along the heading. */
  function Moved(t: Trig, v: ShipView): (r: ShipView)
    ensures r.speed == AfterFriction(v.speed)
    ensures r.x - v.x == r.speed * t.Cos(v.angle) && r.y - v.y == r.speed * t.Sin(v.angle)
    ensures r == v.(x := r.x, y := r.y, speed := r.speed)
    ensures v.Valid() ==> r.Valid()
  {
    var s := AfterFriction(v.speed);
    v.(speed := s, x := v.x + s * t.Cos(v.angle), y := v.y + s * t.Sin(v.angle))
  }

  /** With sound trigonometry, `update` moves the ship by exactly its new speed. */
  lemma MovedByItsSpeed(t: Trig, v: ShipView)
    requires t.Sound()
    ensures var r := Moved(t, v); Sq(r.x - v.x) + Sq(r.y - v.y) == Sq(r.speed)
  {
    var r := Moved(t, v);
    assert Sq(t.Cos(v.angle)) + Sq(t.Sin(v.angle)) == 1.0;
    assert r.x - v.x == r.speed * t.Cos(v.angle);
    assert r.y - v.y == r.speed * t.Sin(v.angle);
    RotatedLength(r.speed, t.Cos(v.angle), t.Sin(v.angle));
  }

  /** `accelerate`: one step of `Acceleration`, never past `MaxSpeed`. */
  function Accelerated(v: ShipView): (r: ShipView)
    ensures r == v.(speed := r.speed)
    ensures v.speed <= MaxSpeed - Acceleration ==> r.speed == v.speed + Acceleration
    ensures v.speed >= MaxSpeed - Acceleration ==> r.speed == MaxSpeed
    ensures v.Valid() ==> r.Valid() && 0.0 <= r.speed
  {
    v.(speed := Min(v.speed + Acceleration, MaxSpeed))
  }

  /** `decelerate`: one step of `Acceleration` down, never below zero. */
  function Decelerated(v: ShipView): (r: ShipView)
    ensures r == v.(speed := r.speed)
    ensures v.speed >= Acceleration ==> r.speed == v.speed - Acceleration
    ensures v.speed <= Acceleration ==> r.speed == 0.0
    ensures v.Valid() ==> r.Valid() && 0.0 <= r.speed
  {
    v.(speed := Max(v.speed - Acceleration, 0.0))
  }

  /** Below the top step, decelerating undoes an acceleration. */
  lemma DecelerateUndoesAccelerate(v: ShipView)
    requires 0.0 <= v.speed <= MaxSpeed - Acceleration
    ensures Decelerated(Accelerated(v)) == v
  {
    assert Accelerated(v).speed == v.speed + Acceleration;
  }

  /** Above the bottom step, accelerating undoes a deceleration. */
  lemma AccelerateUndoesDecelerate(v: ShipView)
    requires Acceleration <= v.speed <= MaxSpeed
    ensures Accelerated(Decelerated(v)) == v
  {
    assert Decelerated(v).speed == v.speed - Acceleration;
  }

  /** The ship after n calls of `accelerate`. */
  function AcceleratedTimes(v: ShipView, n: nat): ShipView {
    if n == 0 then v else Accelerated(AcceleratedTimes(v, n - 1))
  }

  /** n calls of `accelerate` add n steps to the speed until it saturates at `MaxSpeed`. */
  lemma {:induction false} AccelerationSaturates(v: ShipView, n: nat)
    requires v.speed <= MaxSpeed
    ensures AcceleratedTimes(v, n) == v.(speed := Min(v.speed + n as real * Acceleration, MaxSpeed))
  {
    if n > 0 {
      AccelerationSaturates(v, n - 1);
    }
  }

  /** From rest, ten calls of `accelerate` reach top speed and further calls keep it there. */
  lemma TopSpeedFromRest(v: ShipView, n: nat)
    requires v.speed == 0.0 && n >= 10
    ensures AcceleratedTimes(v, n).speed == MaxSpeed
  {
    AccelerationSaturates(v, n);
    assert n as real >= 10.0;
  }

  /** `turn_left` (delta = -RotationSpeed) and `turn_right` (delta = RotationSpeed):
      only the heading changes, by exactly delta, whatever the speed. */
  function Turned(v: ShipView, delta: real): (r: ShipView)
    ensures r.angle - v.angle == delta
    ensures r == v.(angle := r.angle)
    ensures v.Valid() ==> r.Valid()
  {
    v.(angle := v.angle + delta)
  }

  /** A left turn and a right turn cancel out. */
  lemma TurnsCancel(v: ShipView)
    ensures Turned(Turned(v, -RotationSpeed), RotationSpeed) == v
    ensures Turned(Turned(v, RotationSpeed), -RotationSpeed) == v
  {
    assert v.angle - RotationSpeed + RotationSpeed == v.angle;
  }

  /** The angle a cannon points at relative to the heading: +90 for the right side, -90 for the left. */
  function CannonOffset(side: Side): (r: real)
    ensures r == 90.0 || r == -90.0
    ensures side == Right ==> r == 90.0
    ensures side == Left ==> r == -90.0
  {
    if side == Right then 90.0 else -90.0
  }

  /** The heading of a shot, `(angle + offset) % 360`: in [0, 360) and a whole number of
      turns away from the heading plus the offset. */
  function CannonAngle(angle: real, side: Side): (r: real)
    ensures 0.0 <= r < 360.0
    ensures ((angle + CannonOffset(side) - r) / 360.0).Floor as real == (angle + CannonOffset(side) - r) / 360.0
  {
    Mod360(angle + CannonOffset(side))
  }

  /** The two cannons point in opposite directions. */
  lemma CannonsOpposite(angle: real)
    ensures CannonAngle(angle, Right) == Mod360(CannonAngle(angle, Left) + 180.0)
  {
    Mod360Periodic(angle - 90.0, -(((angle - 90.0) / 360.0).Floor));
    Mod360Periodic(angle - 90.0, 1 - (((angle - 90.0) / 360.0).Floor));
    assert angle - 90.0 + 180.0 == angle + 90.0;
    var l := CannonAngle(angle, Left);
    var q := ((angle - 90.0) / 360.0).Floor;
    assert l == angle - 90.0 - 360.0 * q as real;
    assert l + 180.0 == (angle + 90.0) + 360.0 * (-q) as real;
    Mod360Periodic(angle + 90.0, -q);
  }

  /** The cannonball a shot from `side` creates: 20 units out along the cannon's
      heading, flying that way with the default speed and range. */
  function Shot(t: Trig, v: ShipView, side: Side): (r: CannonballView)
    ensures r.angle == CannonAngle(v.angle, side) && 0.0 <= r.angle < 360.0
    ensures r.startX - v.x == t.Cos(r.angle) * MuzzleDistance
    ensures r.startY - v.y == t.Sin(r.angle) * MuzzleDistance
    ensures r.speed == DefaultSpeed && r.maxDistance == DefaultMaxDistance && r.isAlive
  {
    var a := CannonAngle(v.angle, side);
    Spawned(v.x + t.Cos(a) * MuzzleDistance, v.y + t.Sin(a) * MuzzleDistance, a, DefaultSpeed, DefaultMaxDistance)
  }

  /** With sound trigonometry, a shot starts exactly `MuzzleDistance` from the centre. */
  lemma ShotAtMuzzle(t: Trig, v: ShipView, side: Side)
    requires t.Sound()
    ensures var r := Shot(t, v, side); Sq(r.startX - v.x) + Sq(r.startY - v.y) == Sq(MuzzleDistance)
  {
    var r := Shot(t, v, side);
    assert Sq(t.Cos(r.angle)) + Sq(t.Sin(r.angle)) == 1.0;
    RotatedLength(MuzzleDistance, t.Cos(r.angle), t.Sin(r.angle));
    assert r.startX - v.x == MuzzleDistance * t.Cos(r.angle);
    assert r.startY - v.y == MuzzleDistance * t.Sin(r.angle);
  }

  /** The cannon on `side` may fire at time `now`: its cooldown has fully elapsed. */
  predicate Ready(v: ShipView, side: Side, now: real)
    requires side in v.lastFire
  {
    now - v.lastFire[side] >= Cooldown
  }

  /** A shot from `side` at `now` restarts that cannon's timer and no other field. */
  function Reloaded(v: ShipView, side: Side, now: real): (r: ShipView)
    ensures r.lastFire.Keys == v.lastFire.Keys + {side}
    ensures r.lastFire[side] == now
    ensures side.Other() in v.lastFire ==> r.lastFire[side.Other()] == v.lastFire[side.Other()]
    ensures r == v.(lastFire := r.lastFire)
    ensures v.Valid() ==> r.Valid()
  {
    v.(lastFire := v.lastFire[side := now])
  }

  /** After a shot at `now`, the same cannon stays silent for `Cooldown`, while the other
      cannon's readiness is unaffected. */
  lemma CooldownPerSide(v: ShipView, side: Side, now: real, later: real)
    requires v.Valid() && Ready(v, side, now)
    ensures var r := Reloaded(v, side, now);
      && (Ready(r, side, later) <==> later >= now + Cooldown)
      && (Ready(r, side.Other(), later) <==> Ready(v, side.Other(), later))
  {
    var r := Reloaded(v, side, now);
    assert r.lastFire[side.Other()] == v.lastFire[side.Other()];
  }

  /** `apply_damage(amount)`: health drops by `amount` but not below zero; at zero the
      ship stops living, and nothing here makes it live again.  The inherited
      `on_destroy` is overridden by a no-op, so the base `isAlive` flag stays as it was. */
  function Damaged(v: ShipView, amount: real): (r: ShipView)
    ensures 0.0 <= r.health
    ensures v.health - amount >= 0.0 ==> r.health == v.health - amount
    ensures v.health - amount <= 0.0 ==> r.health == 0.0 && !r.isLiving
    ensures r.isLiving ==> v.isLiving
    ensures r.health > 0.0 ==> r.isLiving == v.isLiving
    ensures r == v.(health := r.health, isLiving := r.isLiving)
  {
    var h := Max(v.health - amount, 0.0);
    v.(health := h, isLiving := if h == 0.0 then false else v.isLiving)
  }

  /** Non-negative damage keeps a ship valid, never raises its health, and leaves it
      living exactly when it was living and the damage is less than its health. */
  lemma DamagedValid(v: ShipView, amount: real)
    requires v.Valid() && 0.0 <= amount
    ensures Damaged(v, amount).Valid()
    ensures Damaged(v, amount).health <= v.health
    ensures Damaged(v, amount).isLiving <==> v.isLiving && amount < v.health
  {
    if v.health - amount <= 0.0 {
      assert Damaged(v, amount).health == 0.0;
    } else {
      assert Damaged(v, amount).health == v.health - amount;
    }
  }

  /** Two hits do what one hit of their sum does: the clamp at zero loses nothing. */
  lemma DamageAdds(v: ShipView, a: real, b: real)
    requires 0.0 <= a && 0.0 <= b
    ensures Damaged(Damaged(v, a), b) == Damaged(v, a + b)
  {
    var h1 := Damaged(v, a).health;
    if v.health - a - b > 0.0 {
      assert h1 == v.health - a;
    } else if v.health - a > 0.0 {
      assert h1 == v.health - a;
    } else {
      assert h1 == 0.0;
    }
  }

  /** With sound trigonometry, the hitbox has the ship's width and height as side lengths. */
  lemma HitboxSides(t: Trig, v: ShipView)
    requires t.Sound()
    ensures var r := v.Hitbox(t);
      && Sq(r[1].x - r[0].x) + Sq(r[1].y - r[0].y) == Sq(Width)
      && Sq(r[2].x - r[1].x) + Sq(r[2].y - r[1].y) == Sq(Height)
  {
    assert Sq(t.Cos(v.angle)) + Sq(t.Sin(v.angle)) == 1.0;
    RotatedRectSides(v.x, v.y, Width / 2.0, Height / 2.0, t.Cos(v.angle), t.Sin(v.angle));
  }

  class Ship {
    var x: real
    var y: real
    var angle: real
    var speed: real
    var health: real
    var isLiving: bool
    var lastFire: map<Side, real>
    var projectiles: seq<Cannonball>
    var name: string
    var dmgCoeff: real
    var isAlive: bool
    const team: Team

    function View(): ShipView
      reads this
    {
      ShipView(x, y, angle, speed, health, isLiving, lastFire, projectiles, team, name, dmgCoeff, isAlive)
    }

    ghost predicate Valid()
      reads this
    {
      View().Valid()
    }

    /** `get_hitbox`: reads the ship and changes nothing. */
    function Hitbox(t: Trig): (r: Polygon)
      reads this
      ensures r == View().Hitbox(t)
    {
      RotatedRect(x, y, Width / 2.0, Height / 2.0, t.Cos(angle), t.Sin(angle))
    }

    /** `Ship(x, y)`, with the heading and team the game's spawn table gives each ship. */
    constructor (x0: real, y0: real, angle0: real := 0.0, team0: Team := NoTeam)
      ensures View() == Launched(x0, y0, angle0, team0)
      ensures Valid()
    {
      x, y := x0, y0;
      angle := angle0;
      speed := 0.0;
      health := MaxHealth;
      isLiving := true;
      lastFire := map[Left := 0.0, Right := 0.0];
      projectiles := [];
      name := "Ship";
      dmgCoeff := 1.0;
      isAlive := true;
      team := team0;
    }

    /** `update`. */
    method Update(t: Trig)
      modifies this
      ensures View() == Moved(t, old(View()))
    {
      if speed > 0.0 {
        speed := speed - Friction;
      } else if speed < 0.0 {
        speed := speed + Friction;
      }
      x := x + speed * t.Cos(angle);
      y := y + speed * t.Sin(angle);
    }

    /** `accelerate`. */
    method Accelerate()
      modifies this
      ensures View() == Accelerated(old(View()))
    {
      speed := Min(speed + Acceleration, MaxSpeed);
    }

    /** `decelerate`. */
    method Decelerate()
      modifies this
      ensures View() == Decelerated(old(View()))
    {
      speed := Max(speed - Acceleration, 0.0);
    }

    /** `turn_left`. */
    method TurnLeft()
      modifies this
      ensures View() == Turned(old(View()), -RotationSpeed)
    {
      angle := angle - RotationSpeed;
    }

    /** `turn_right`. */
    method TurnRight()
      modifies this
      ensures View() == Turned(old(View()), RotationSpeed)
    {
      angle := angle + RotationSpeed;
    }

    /** `fire(side)` at clock reading `now`: nothing happens while the cannon cools down;
        otherwise its timer restarts and exactly one new cannonball is appended. */
    method Fire(t: Trig, side: Side := Left, now: real)
      requires side in lastFire
      modifies this
      ensures !Ready(old(View()), side, now) ==> View() == old(View())
      ensures Ready(old(View()), side, now) ==>
        && |projectiles| == |old(projectiles)| + 1
        && projectiles[..|old(projectiles)|] == old(projectiles)
        && fresh(projectiles[|old(projectiles)|])
        && projectiles[|old(projectiles)|].View() == Shot(t, old(View()), side)
        && View() == Reloaded(old(View()), side, now).(projectiles := projectiles)
    {
      if now - lastFire[side] < Cooldown {
        return;
      }
      lastFire := lastFire[side := now];
      var a := Mod360(angle + CannonOffset(side));
      var ball := new Cannonball(x + t.Cos(a) * MuzzleDistance, y + t.Sin(a) * MuzzleDistance, a);
      projectiles := projectiles + [ball];
    }

    /** `apply_damage(amount)`. */
    method ApplyDamage(amount: real)
      modifies this
      ensures View() == Damaged(old(View()), amount)
    {
      health := Max(health - amount, 0.0);
      if health == 0.0 {
        isLiving := false;
      }
    }
  }
}
