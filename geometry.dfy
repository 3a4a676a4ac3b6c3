/**
 * Points, the polygons the entities expose as hitboxes, and the two vector
 * helpers of pyrate/engine/game.py (`distance` and `normalize`).
 */
module Geometry {
  import opened Numeric

  datatype Point = Point(x: real, y: real)

  /** The vector has length one. */
  predicate IsUnit(v: (real, real)) {
    Sq(v.0) + Sq(v.1) == 1.0
  }

  /** A hitbox: the vertices of a convex polygon, in order. */
  type Polygon = seq<Point>

  /** The axis-aligned square of half-side `m` centred on (cx, cy), vertices in the
      order the entities list them: bottom-left, bottom-right, top-right, top-left. */
  function Square(cx: real, cy: real, m: real): (r: Polygon)
    ensures |r| == 4
    ensures r[0].x + r[2].x == 2.0 * cx && r[0].y + r[2].y == 2.0 * cy
    ensures r[1].x + r[3].x == 2.0 * cx && r[1].y + r[3].y == 2.0 * cy
    ensures r[0].y == r[1].y && r[1].x == r[2].x && r[2].y == r[3].y && r[3].x == r[0].x
    ensures r[1].x - r[0].x == 2.0 * m && r[2].y - r[1].y == 2.0 * m
  {
    [Point(cx - m, cy - m), Point(cx + m, cy - m), Point(cx + m, cy + m), Point(cx - m, cy + m)]
  }

  /** The rectangle of half-width `hw` and half-height `hh` centred on (cx, cy) and
      rotated by the angle whose cosine and sine are `c` and `s`. */
  function RotatedRect(cx: real, cy: real, hw: real, hh: real, c: real, s: real): (r: Polygon)
    ensures |r| == 4
    ensures r[0].x + r[2].x == 2.0 * cx && r[0].y + r[2].y == 2.0 * cy
    ensures r[1].x + r[3].x == 2.0 * cx && r[1].y + r[3].y == 2.0 * cy
    ensures c == 1.0 && s == 0.0 ==> r == [Point(cx - hw, cy - hh), Point(cx + hw, cy - hh),
                                           Point(cx + hw, cy + hh), Point(cx - hw, cy + hh)]
  {
    var corners := [(-hw, -hh), (hw, -hh), (hw, hh), (-hw, hh)];
    seq(4, k requires 0 <= k < 4 =>
      Point(cx + (corners[k].0 * c - corners[k].1 * s), cy + (corners[k].0 * s + corners[k].1 * c)))
  }

  /** Each side of the rotated rectangle has the length of the unrotated one,
      because the rotation's cosine and sine satisfy c^2 + s^2 = 1. */
  lemma RotatedRectSides(cx: real, cy: real, hw: real, hh: real, c: real, s: real)
    requires Sq(c) + Sq(s) == 1.0
    ensures var r := RotatedRect(cx, cy, hw, hh, c, s);
      && Sq(r[1].x - r[0].x) + Sq(r[1].y - r[0].y) == Sq(2.0 * hw)
      && Sq(r[2].x - r[1].x) + Sq(r[2].y - r[1].y) == Sq(2.0 * hh)
  {
    var r := RotatedRect(cx, cy, hw, hh, c, s);
    assert r[1].x - r[0].x == (2.0 * hw) * c && r[1].y - r[0].y == (2.0 * hw) * s;
    assert r[2].x - r[1].x == -((2.0 * hh) * s) && r[2].y - r[1].y == (2.0 * hh) * c;
    RotatedLength(2.0 * hw, c, s);
    RotatedLength(2.0 * hh, s, c);
    assert Sq(-((2.0 * hh) * s)) == Sq((2.0 * hh) * s);
  }

  /** A length l turned by an angle whose cosine and sine are c and s keeps its length. */
  lemma RotatedLength(l: real, c: real, s: real)
    requires Sq(c) + Sq(s) == 1.0
    ensures Sq(l * c) + Sq(l * s) == Sq(l)
  {
    SquareOfProduct(l, c);
    SquareOfProduct(l, s);
    assert Sq(l) * Sq(c) + Sq(l) * Sq(s) == Sq(l) * (Sq(c) + Sq(s));
  }

  /** `distance(a, b)`: the Euclidean distance between two positions. */
  function Distance(t: Trig, x1: real, y1: real, x2: real, y2: real): (r: real)
    ensures t.Sound() ==> 0.0 <= r && Sq(r) == Sq(x1 - x2) + Sq(y1 - y2)
    ensures t.Sound() ==> (r == 0.0 <==> x1 == x2 && y1 == y2)
  {
    t.Hypot(x1 - x2, y1 - y2)
  }

  /** `normalize(dx, dy)`: the unit vector along (dx, dy), or (0, 0) for the zero vector. */
  function Normalize(t: Trig, dx: real, dy: real): (r: (real, real))
    ensures dx == 0.0 && dy == 0.0 ==> r == (0.0, 0.0)
  {
    var dist := t.Hypot(dx, dy);
    if dist != 0.0 then (dx / dist, dy / dist) else (0.0, 0.0)
  }

  /** `normalize` keeps the direction of (dx, dy) and, with sound trigonometry, returns a
      unit vector pointing the same way for any non-zero vector. */
  lemma NormalizeMeans(t: Trig, dx: real, dy: real)
    ensures var r := Normalize(t, dx, dy); r.0 * dy == r.1 * dx
    ensures var r := Normalize(t, dx, dy);
      t.Sound() && (dx != 0.0 || dy != 0.0) ==> Sq(r.0) + Sq(r.1) == 1.0 && 0.0 < r.0 * dx + r.1 * dy
  {
    if t.Hypot(dx, dy) != 0.0 {
      UnitDirection(t, dx, dy);
    }
  }

  /** Dividing a non-zero vector by its length gives a unit vector pointing the same way. */
  lemma UnitDirection(t: Trig, dx: real, dy: real)
    requires t.Hypot(dx, dy) != 0.0
    ensures var h := t.Hypot(dx, dy); (dx / h) * dy == (dy / h) * dx
    ensures t.Sound() ==> var h := t.Hypot(dx, dy);
      Sq(dx / h) + Sq(dy / h) == 1.0 && 0.0 < (dx / h) * dx + (dy / h) * dy
  {
    var h := t.Hypot(dx, dy);
    assert (dx / h) * dy == (dx * dy) / h;
    assert (dy / h) * dx == (dx * dy) / h;
    if t.Sound() {
      ScaledToUnit(dx, dy, h);
    }
  }
}
