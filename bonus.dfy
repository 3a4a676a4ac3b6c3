/**
 * The collectable bonuses of pyrate/engine/entities/bonus.py: a position, a type
 * name, a fixed radius of 20 and a `collected` flag.  The sprite is not modelled.
 */
module Bonuses {
  import opened Geometry

  const BonusRadius: real := 20.0

  datatype Bonus = Bonus(x: real, y: real, kind: string, radius: real, collected: bool)
  {
    /** `get_hitbox`: the axis-aligned square of half-side `radius` centred on the bonus. */
    function Hitbox(): (r: Polygon)
      ensures |r| == 4
      ensures r[0].x + r[2].x == 2.0 * x && r[0].y + r[2].y == 2.0 * y
      ensures r[1].x + r[3].x == 2.0 * x && r[1].y + r[3].y == 2.0 * y
      ensures r[1].x - r[0].x == 2.0 * radius && r[2].y - r[1].y == 2.0 * radius
      ensures r[0].y == r[1].y && r[1].x == r[2].x && r[2].y == r[3].y && r[3].x == r[0].x
    {
      Square(x, y, radius)
    }
  }

  /** `Bonus(x, y, bonus_type="health")`: the type is kept as given, whatever it is;
      the radius is 20 and the bonus is not yet collected. */
  function NewBonus(x: real, y: real, kind: string := "health"): (r: Bonus)
    ensures r.x == x && r.y == y && r.kind == kind
    ensures r.radius == BonusRadius && !r.collected
  {
    Bonus(x, y, kind, BonusRadius, false)
  }

  /** A new bonus's hitbox is the square of half-side 20 around it, bottom-left first. */
  lemma NewBonusHitbox(x: real, y: real, kind: string)
    ensures NewBonus(x, y, kind).Hitbox() ==
      [Point(x - 20.0, y - 20.0), Point(x + 20.0, y - 20.0), Point(x + 20.0, y + 20.0), Point(x - 20.0, y + 20.0)]
  {
    assert NewBonus(x, y, kind).radius == 20.0;
  }
}
