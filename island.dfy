/**
 * The islands of pyrate/engine/entities/island.py: a fixed position and radius,
 * with a square hitbox somewhat smaller than the radius.
 */
module Islands {
  import opened Geometry

  const DefaultRadius: real := 60.0
  /** The share of the radius the hitbox's half-side takes. */
  const HitboxShare: real := 0.70

  datatype Island = Island(x: real, y: real, radius: real)
  {
    /** `get_hitbox`: the axis-aligned square of half-side 0.7 * radius centred on the island. */
    function Hitbox(): (r: Polygon)
      ensures |r| == 4
      ensures r[0].x + r[2].x == 2.0 * x && r[0].y + r[2].y == 2.0 * y
      ensures r[1].x + r[3].x == 2.0 * x && r[1].y + r[3].y == 2.0 * y
      ensures r[1].x - r[0].x == 2.0 * (radius * HitboxShare) && r[2].y - r[1].y == 2.0 * (radius * HitboxShare)
      ensures r[0].y == r[1].y && r[1].x == r[2].x && r[2].y == r[3].y && r[3].x == r[0].x
    {
      Square(x, y, radius * HitboxShare)
    }
  }

  /** `Island(x, y, radius=60)`. */
  function NewIsland(x: real, y: real, radius: real := DefaultRadius): (r: Island)
    ensures r.x == x && r.y == y && r.radius == radius
  {
    Island(x, y, radius)
  }

  /** A default island's hitbox is the square of half-side 42 around it, bottom-left first. */
  lemma DefaultIslandHitbox(x: real, y: real)
    ensures NewIsland(x, y).Hitbox() ==
      [Point(x - 42.0, y - 42.0), Point(x + 42.0, y - 42.0), Point(x + 42.0, y + 42.0), Point(x - 42.0, y + 42.0)]
  {
    assert DefaultRadius * HitboxShare == 42.0;
  }
}
