/**
 * The older enemy of pyrate/engine/enemy.py: the same pursuit bands and angle
 * smoothing as the current enemy, with an agro radius of 300 and a preferred
 * distance of 200; its patrol swings the heading by sin(time / 60) times the
 * rotation speed (time in radians) and, unlike the current enemy, accelerates in
 * both branches.  Its ship part is an older ship, held as the object `hull`.
 */
module LegacyEnemies {
  import opened Numeric
  import Ships
  import Enemies
  import LegacyShips

  const LegacyAgroRadius: real := 300.0
  const LegacyPreferredDistance: real := 200.0

  /** Everything the older enemy holds, as a value. */
  datatype LegacyEnemyView = LegacyEnemyView(
    hull: LegacyShips.HullView, anchorX: real, anchorY: real,
    agroRadius: real, preferredDistance: real, time: int)
  {
    /** The pursuit branch is taken exactly when the player is strictly inside the agro radius. */
    predicate Pursues(t: Trig, px: real, py: real) {
      t.Hypot(px - hull.x, py - hull.y) < agroRadius
    }

    /** The patrol's change of heading at the current clock reading. */
    function PatrolSwing(t: Trig): real {
      t.SinRad(time as real / 60.0) * Ships.RotationSpeed
    }
  }

  /** The heading change of a patrol step is at most the rotation speed either way. */
  lemma PatrolSwingBounded(t: Trig, e: LegacyEnemyView)
    requires t.Sound()
    ensures Abs(e.PatrolSwing(t)) <= Ships.RotationSpeed
  {
    var s := t.SinRad(e.time as real / 60.0);
    assert -1.0 <= s <= 1.0;
    if s < 0.0 {
      assert -Ships.RotationSpeed <= s * Ships.RotationSpeed;
    } else {
      assert s * Ships.RotationSpeed <= Ships.RotationSpeed;
    }
  }

  /** The steering part of `update`: pursuit turns toward the band's heading, patrol
      swings the heading; both then accelerate. */
  function Steered(t: Trig, e: LegacyEnemyView, px: real, py: real, playerAngle: real): (r: LegacyShips.HullView)
    ensures r == LegacyShips.Accelerated(e.hull.(angle := r.angle))
    ensures e.Pursues(t, px, py) ==>
      r.angle == Enemies.SmoothAngle(e.hull.angle,
        Enemies.PursuitHeading(t.Atan2(py - e.hull.y, px - e.hull.x), playerAngle,
                               t.Hypot(px - e.hull.x, py - e.hull.y), e.preferredDistance))
    ensures !e.Pursues(t, px, py) ==> r.angle - e.hull.angle == e.PatrolSwing(t)
    ensures e.hull.Valid() ==> r.Valid()
  {
    var v := e.hull;
    var heading :=
      if e.Pursues(t, px, py) then
        Enemies.SmoothAngle(v.angle,
          Enemies.PursuitHeading(t.Atan2(py - v.y, px - v.x), playerAngle,
                                 t.Hypot(px - v.x, py - v.y), e.preferredDistance))
      else v.angle + e.PatrolSwing(t);
    LegacyShips.Accelerated(v.(angle := heading))
  }

  /** `update`: steering, the ship physics, and one tick of the clock. */
  function EnemyUpdated(t: Trig, e: LegacyEnemyView, px: real, py: real, playerAngle: real): (r: LegacyEnemyView)
    ensures r.hull == LegacyShips.Moved(t, Steered(t, e, px, py, playerAngle))
    ensures r.time == e.time + 1
    ensures r == e.(hull := r.hull, time := r.time)
    ensures e.hull.Valid() ==> r.hull.Valid()
  {
    e.(hull := LegacyShips.Moved(t, Steered(t, e, px, py, playerAngle)), time := e.time + 1)
  }

  class EnemyShip {
    const hull: LegacyShips.Ship
    const anchorX: real
    const anchorY: real
    const agroRadius: real
    const preferredDistance: real
    var time: int

    function View(): LegacyEnemyView
      reads this, hull
    {
      LegacyEnemyView(hull.View(), anchorX, anchorY, agroRadius, preferredDistance, time)
    }

    /** `EnemyShip(x, y, agro_radius=300, preferred_distance=200)`. */
    constructor (x: real, y: real, agro: real := LegacyAgroRadius, preferred: real := LegacyPreferredDistance)
      ensures fresh(hull)
      ensures View() == LegacyEnemyView(LegacyShips.Launched(x, y), x, y, agro, preferred, 0)
    {
      hull := new LegacyShips.Ship(x, y);
      anchorX, anchorY := x, y;
      agroRadius, preferredDistance := agro, preferred;
      time := 0;
    }

    /** `update(player_x, player_y, player_angle)`. */
    method Update(t: Trig, px: real, py: real, playerAngle: real)
      modifies this, hull
      ensures View() == EnemyUpdated(t, old(View()), px, py, playerAngle)
    {
      ghost var e := View();
      var dx := px - hull.x;
      var dy := py - hull.y;
      var distToPlayer := t.Hypot(dx, dy);
      if distToPlayer < agroRadius {
        var angleToPlayer := t.Atan2(dy, dx);
        var offset: real;
        if distToPlayer > preferredDistance + Enemies.BandMargin {
          offset := angleToPlayer + 30.0;
        } else if distToPlayer < preferredDistance - Enemies.BandMargin {
          offset := angleToPlayer - 150.0;
        } else {
          offset := playerAngle + 90.0;
        }
        hull.angle := Enemies.SmoothAngle(hull.angle, offset);
        hull.Accelerate();
      } else {
        hull.angle := hull.angle + t.SinRad(time as real / 60.0) * Ships.RotationSpeed;
        hull.Accelerate();
      }
      assert hull.View() == Steered(t, e, px, py, playerAngle);
      hull.Update(t);
      time := time + 1;
    }
  }
}
