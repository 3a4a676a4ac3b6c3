/**
 * The base entity of pyrate/engine/entities/entity.py: a position, a speed, a
 * damage coefficient, a name and an "alive" flag.  Dafny has no implementation
 * inheritance here, so the entity classes of the engine (Cannonball, Ship) carry
 * these fields themselves; this class models the base on its own.
 */
module Entities {

  /** Everything an entity holds, as a value. */
  datatype EntityView = EntityView(x: real, y: real, speed: real, dmgCoeff: real, name: string, isAlive: bool)

  /** What `on_destroy` does to an entity: only the alive flag changes, to false. */
  function Destroyed(v: EntityView): (r: EntityView)
    ensures !r.isAlive
    ensures r.x == v.x && r.y == v.y && r.speed == v.speed
    ensures r.dmgCoeff == v.dmgCoeff && r.name == v.name
  {
    v.(isAlive := false)
  }

  /** Destroying twice is destroying once. */
  lemma DestroyedIdempotent(v: EntityView)
    ensures Destroyed(Destroyed(v)) == Destroyed(v)
  {
  }

  class Entity {
    var x: real
    var y: real
    var speed: real
    var dmgCoeff: real
    var name: string
    var isAlive: bool

    function View(): EntityView
      reads this
    {
      EntityView(x, y, speed, dmgCoeff, name, isAlive)
    }

    /** `Entity(x, y, name="Entity")`: at rest, damage coefficient 1, alive. */
    constructor (x0: real, y0: real, name0: string := "Entity")
      ensures View() == EntityView(x0, y0, 0.0, 1.0, name0, true)
    {
      x, y := x0, y0;
      speed := 0.0;
      dmgCoeff := 1.0;
      name := name0;
      isAlive := true;
    }

    /** `on_destroy`: clears the alive flag and nothing else. */
    method OnDestroy()
      modifies this
      ensures View() == Destroyed(old(View()))
    {
      isAlive := false;
    }
  }
}
