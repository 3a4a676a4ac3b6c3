/**
 * The computer-driven ship of pyrate/engine/entities/enemy.py.  Each update it
 * either pursues the player (when the player is within `agro_radius`), steering
 * toward a heading chosen by distance band, or patrols around its anchor point
 * with a small random jitter of the heading; then the ordinary ship physics runs.
 *
 * The engine's EnemyShip inherits from Ship; here it holds its ship part as the
 * object `hull`.  The random jitter in [-1, 1] is a parameter.
 */
module Enemies {
  import opened Numeric
  import opened Ships

  const DefaultAgroRadius: real := 150.0
  const DefaultPreferredDistance: real := 100.0
  const DefaultPatrolRadius: real := 400.0
  /** Half the width of the band around the preferred distance. */
  const BandMargin: real := 20.0
  /** The share of the remaining turn `_smooth_angle` takes per call. */
  const SmoothFactor: real := 0.2
  /** The patrol speed cap: half the ship's top speed. */
  const PatrolSpeed: real := MaxSpeed * 0.5

  /** `_smooth_angle(current, target)`: turn a fifth of the way toward the target along
      the shorter way round, so never more than 36 degrees. */
  function SmoothAngle(current: real, target: real): (r: real)
    ensures r - current == SmoothFactor * WrapDegrees(target - current)
    ensures -36.0 <= r - current < 36.0
  {
    current + SmoothFactor * WrapDegrees(target - current)
  }

  /** Smoothing toward a target that is already the heading, up to whole turns, does nothing. */
  lemma SmoothAngleFixedPoint(current: real, k: int)
    ensures SmoothAngle(current, current + 360.0 * k as real) == current
  {
    assert current + 360.0 * k as real - current + 180.0 == 180.0 + 360.0 * k as real;
    Mod360Periodic(180.0, k);
    Mod360Identity(180.0);
  }

  /** Each call removes a fifth of the remaining wrapped difference: what is left to turn
      afterwards is 0.8 times what was left before. */
  lemma SmoothAngleConverges(current: real, target: real)
    ensures WrapDegrees(target - SmoothAngle(current, target)) == 0.8 * WrapDegrees(target - current)
  {
    var d := WrapDegrees(target - current);
    var m := Mod360(target - current + 180.0);
    var k := ((target - current + 180.0 - m) / 360.0).Floor;
    assert target - current + 180.0 - m == 360.0 * k as real;
    assert target - current == d + 360.0 * k as real;
    var rest := target - SmoothAngle(current, target);
    assert rest + 180.0 == (0.8 * d + 180.0) + 360.0 * k as real;
    Mod360Periodic(0.8 * d + 180.0, k);
    Mod360Identity(0.8 * d + 180.0);
  }

  /** Where the enemy stands relative to its preferred distance from the player. */
  datatype Band = TooFar | TooClose | InBand

  /** The band of a distance: beyond preferred + 20, within preferred - 20, or between. */
  function BandOf(dist: real, preferred: real): (r: Band)
    ensures r == TooFar <==> dist > preferred + BandMargin
    ensures r == TooClose <==> dist < preferred - BandMargin
    ensures r == InBand <==> preferred - BandMargin <= dist <= preferred + BandMargin
  {
    if dist > preferred + BandMargin then TooFar
    else if dist < preferred - BandMargin then TooClose
    else InBand
  }

  /** The heading a pursuer aims for: 30 degrees off the bearing to close in, away from
      the player (bearing - 150) to open up, and broadside to the player's heading
      (player angle + 90) inside the band. */
  function PursuitHeading(bearing: real, playerAngle: real, dist: real, preferred: real): (r: real)
    ensures BandOf(dist, preferred) == TooFar ==> r - bearing == 30.0
    ensures BandOf(dist, preferred) == TooClose ==> r - bearing == -150.0
    ensures BandOf(dist, preferred) == InBand ==> r - playerAngle == 90.0
  {
    match BandOf(dist, preferred)
    case TooFar => bearing + 30.0
    case TooClose => bearing - 150.0
    case InBand => playerAngle + 90.0
  }

  /** Everything an enemy holds, as a value. */
  datatype EnemyView = EnemyView(
    hull: ShipView, anchorX: real, anchorY: real,
    agroRadius: real, preferredDistance: real, patrolRadius: real, time: int)
  {
    /** `dist_to_player`. */
    function DistToPlayer(t: Trig, px: real, py: real): real {
      t.Hypot(px - hull.x, py - hull.y)
    }

    /** `dist_to_anchor`. */
    function DistToAnchor(t: Trig): real {
      t.Hypot(hull.x - anchorX, hull.y - anchorY)
    }

    /** The pursuit branch is taken exactly when the player is strictly inside the agro radius. */
    predicate Pursues(t: Trig, px: real, py: real) {
      DistToPlayer(t, px, py) < agroRadius
    }
  }

  /** A new enemy at (x, y), anchored there, at time 0. */
  function Recruited(x: real, y: real, agro: real, preferred: real, patrol: real): (r: EnemyView)
    ensures r.hull == Launched(x, y, 0.0, NoTeam).(name := "Enemy ship")
    ensures r.hull.Valid()
    ensures r.anchorX == x && r.anchorY == y && r.time == 0
    ensures r.agroRadius == agro && r.preferredDistance == preferred && r.patrolRadius == patrol
  {
    EnemyView(Launched(x, y, 0.0, NoTeam).(name := "Enemy ship"), x, y, agro, preferred, patrol, 0)
  }

  /** The steering part of `update`, before the ship physics: in pursuit, turn toward the
      band's heading and accelerate; on patrol, jitter the heading by `jitter` times the
      rotation speed, turn back toward the anchor when beyond the patrol radius, and
      speed up to at most half the top speed. */
  function Steered(t: Trig, e: EnemyView, px: real, py: real, playerAngle: real, jitter: real): (r: ShipView)
    ensures r == e.hull.(angle := r.angle, speed := r.speed)
    ensures e.Pursues(t, px, py) ==>
      && r.speed == Min(e.hull.speed + Acceleration, MaxSpeed)
      && r.angle == SmoothAngle(e.hull.angle,
           PursuitHeading(t.Atan2(py - e.hull.y, px - e.hull.x), playerAngle,
                          e.DistToPlayer(t, px, py), e.preferredDistance))
    ensures !e.Pursues(t, px, py) ==> r.speed == Min(e.hull.speed + Acceleration, PatrolSpeed)
    ensures !e.Pursues(t, px, py) && e.DistToAnchor(t) <= e.patrolRadius ==>
      r.angle - e.hull.angle == jitter * RotationSpeed
    ensures !e.Pursues(t, px, py) && e.DistToAnchor(t) > e.patrolRadius ==>
      r.angle == SmoothAngle(e.hull.angle + jitter * RotationSpeed,
                             t.Atan2(e.anchorY - e.hull.y, e.anchorX - e.hull.x))
    ensures e.hull.Valid() ==> r.Valid()
  {
    var v := e.hull;
    if e.Pursues(t, px, py) then
      var target := PursuitHeading(t.Atan2(py - v.y, px - v.x), playerAngle,
                                   e.DistToPlayer(t, px, py), e.preferredDistance);
      Accelerated(v.(angle := SmoothAngle(v.angle, target)))
    else
      var jittered := v.angle + jitter * RotationSpeed;
      var heading := if e.DistToAnchor(t) > e.patrolRadius
        then SmoothAngle(jittered, t.Atan2(e.anchorY - v.y, e.anchorX - v.x))
        else jittered;
      v.(angle := heading, speed := Min(v.speed + Acceleration, PatrolSpeed))
  }

  /** `update`: steering, then the ship physics, then the clock advances by one. */
  function EnemyUpdated(t: Trig, e: EnemyView, px: real, py: real, playerAngle: real, jitter: real): (r: EnemyView)
    ensures r.hull == Moved(t, Steered(t, e, px, py, playerAngle, jitter))
    ensures r.time == e.time + 1
    ensures r.anchorX == e.anchorX && r.anchorY == e.anchorY
    ensures r == e.(hull := r.hull, time := r.time)
    ensures e.hull.Valid() ==> r.hull.Valid()
  {
    e.(hull := Moved(t, Steered(t, e, px, py, playerAngle, jitter)), time := e.time + 1)
  }

  /** On patrol, a jitter drawn from [-1, 1] turns the ship by at most the rotation
      speed unless it is brought back toward the anchor, and the speed before friction
      never exceeds half the top speed, even if it was higher. */
  lemma PatrolBounds(t: Trig, e: EnemyView, px: real, py: real, playerAngle: real, jitter: real)
    requires -1.0 <= jitter <= 1.0
    requires !e.Pursues(t, px, py)
    ensures Steered(t, e, px, py, playerAngle, jitter).speed <= PatrolSpeed
    ensures e.DistToAnchor(t) <= e.patrolRadius ==>
      Abs(Steered(t, e, px, py, playerAngle, jitter).angle - e.hull.angle) <= RotationSpeed
  {
    var r := Steered(t, e, px, py, playerAngle, jitter);
    if e.DistToAnchor(t) <= e.patrolRadius {
      assert r.angle - e.hull.angle == jitter * RotationSpeed;
      if jitter < 0.0 {
        assert -RotationSpeed <= jitter * RotationSpeed;
      } else {
        assert jitter * RotationSpeed <= RotationSpeed;
      }
    }
  }

  /** In pursuit the heading turns by less than 36 degrees and the speed before friction
      does not drop. */
  lemma PursuitBounds(t: Trig, e: EnemyView, px: real, py: real, playerAngle: real, jitter: real)
    requires e.hull.Valid() && e.Pursues(t, px, py)
    ensures var r := Steered(t, e, px, py, playerAngle, jitter);
      && Abs(r.angle - e.hull.angle) <= 36.0
      && e.hull.speed <= r.speed <= MaxSpeed
  {
  }

  /** The enemy after n updates against a player standing still, with one jitter draw per update. */
  function UpdatedTimes(t: Trig, e: EnemyView, n: nat, px: real, py: real, playerAngle: real,
                        jitters: seq<real>): (r: EnemyView)
    requires |jitters| == n
  {
    if n == 0 then e
    else EnemyUpdated(t, UpdatedTimes(t, e, n - 1, px, py, playerAngle, jitters[..n - 1]),
                      px, py, playerAngle, jitters[n - 1])
  }

  /** The enemy's clock counts its updates: after n updates it reads n more, and the
      anchor and the engagement radii never move. */
  lemma {:induction false} ClockCountsUpdates(t: Trig, e: EnemyView, n: nat, px: real, py: real,
                                              playerAngle: real, jitters: seq<real>)
    requires |jitters| == n
    ensures var r := UpdatedTimes(t, e, n, px, py, playerAngle, jitters);
      && r.time == e.time + n
      && r.anchorX == e.anchorX && r.anchorY == e.anchorY
      && r.agroRadius == e.agroRadius && r.preferredDistance == e.preferredDistance
      && r.patrolRadius == e.patrolRadius
      && (e.hull.Valid() ==> r.hull.Valid())
  {
    if n > 0 {
      ClockCountsUpdates(t, e, n - 1, px, py, playerAngle, jitters[..n - 1]);
    }
  }

  class EnemyShip {
    /** The ship part of the enemy. */
    const hull: Ship
    const anchorX: real
    const anchorY: real
    const agroRadius: real
    const preferredDistance: real
    const patrolRadius: real
    var time: int

    function View(): EnemyView
      reads this, hull
    {
      EnemyView(hull.View(), anchorX, anchorY, agroRadius, preferredDistance, patrolRadius, time)
    }

    /** `EnemyShip(x, y, agro_radius=150, preferred_distance=100, patrol_radius=400)`. */
    constructor (x: real, y: real, agro: real := DefaultAgroRadius,
                 preferred: real := DefaultPreferredDistance, patrol: real := DefaultPatrolRadius)
      ensures fresh(hull)
      ensures View() == Recruited(x, y, agro, preferred, patrol)
    {
      var ship := new Ship(x, y);
      ship.name := "Enemy ship";
      hull := ship;
      anchorX, anchorY := x, y;
      agroRadius, preferredDistance, patrolRadius := agro, preferred, patrol;
      time := 0;
    }

    /** The steering part of `update`: pursuit or patrol sets the heading and the speed
        of the hull, before the hull moves. */
    method Steer(t: Trig, px: real, py: real, playerAngle: real, jitter: real)
      modifies hull
      ensures hull.View() == Steered(t, old(View()), px, py, playerAngle, jitter)
    {
      var dx := px - hull.x;
      var dy := py - hull.y;
      var distToPlayer := t.Hypot(dx, dy);
      var distToAnchor := t.Hypot(hull.x - anchorX, hull.y - anchorY);
      if distToPlayer < agroRadius {
        Pursue(t, px, py, playerAngle, jitter, distToPlayer);
      } else {
        Patrol(t, px, py, playerAngle, jitter, distToAnchor);
      }
    }

    /** The pursuit branch of `update`: turn toward the heading of the distance band the
        player is in, then accelerate. */
    method Pursue(t: Trig, px: real, py: real, playerAngle: real, jitter: real, distToPlayer: real)
      requires distToPlayer == View().DistToPlayer(t, px, py) && distToPlayer < agroRadius
      modifies hull
      ensures hull.View() == Steered(t, old(View()), px, py, playerAngle, jitter)
    {
      var angleToPlayer := t.Atan2(py - hull.y, px - hull.x);
      var offset: real;
      if distToPlayer > preferredDistance + BandMargin {
        offset := angleToPlayer + 30.0;
      } else if distToPlayer < preferredDistance - BandMargin {
        offset := angleToPlayer - 150.0;
      } else {
        offset := playerAngle + 90.0;
      }
      hull.angle := SmoothAngle(hull.angle, offset);
      hull.Accelerate();
    }

    /** The patrol branch of `update`: jitter the heading, turn back toward the anchor
        when beyond the patrol radius, and speed up to at most half the top speed. */
    method Patrol(t: Trig, px: real, py: real, playerAngle: real, jitter: real, distToAnchor: real)
      requires !View().Pursues(t, px, py) && distToAnchor == View().DistToAnchor(t)
      modifies hull
      ensures hull.View() == Steered(t, old(View()), px, py, playerAngle, jitter)
    {
      hull.angle := hull.angle + jitter * RotationSpeed;
      if distToAnchor > patrolRadius {
        var angleToAnchor := t.Atan2(anchorY - hull.y, anchorX - hull.x);
        hull.angle := SmoothAngle(hull.angle, angleToAnchor);
      }
      hull.speed := Min(hull.speed + Acceleration, MaxSpeed * 0.5);
    }

    /** `update(player_x, player_y, player_angle)` with the patrol's random draw as `jitter`. */
    method Update(t: Trig, px: real, py: real, playerAngle: real, jitter: real)
      modifies this, hull
      ensures View() == EnemyUpdated(t, old(View()), px, py, playerAngle, jitter)
    {
      Steer(t, px, py, playerAngle, jitter);
      hull.Update(t);
      time := time + 1;
    }
  }
}
