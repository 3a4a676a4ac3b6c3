/**
 * The rules the game loop of pyrate/engine/game.py applies, as functions on values:
 * the end-of-match verdict, the damage of a ship collision, the push-apart of two
 * ships, the spawn table and the enemy placement, the choice of the closest player,
 * and what each phase of a tick does to projectiles and ships.  The `Games` module
 * runs these phases on the live objects.
 */
module GameRules {
  import opened Numeric
  import opened Geometry
  import opened Sat
  import opened Projectiles
  import opened Ships

  /** The four values of `Game.state`. */
  datatype State = Playing | AVictory | BVictory | GameOver

  datatype ImpactKind = Hit | Miss

  /** An entry of `Game.impacts`: the cannonball and whether it hit or missed. */
  datatype Impact = Impact(ball: Cannonball, kind: ImpactKind)

  // ---------------------------------------------------------------- end of match

  /** Some ship of `team` is still living. */
  predicate TeamAlive(players: seq<ShipView>, team: Team) {
    exists k :: 0 <= k < |players| && players[k].team == team && players[k].isLiving
  }

  /** Some enemy is still living. */
  predicate AnyLiving(enemies: seq<ShipView>) {
    exists k :: 0 <= k < |enemies| && enemies[k].isLiving
  }

  /** Every ship of the list is living. */
  predicate AllLiving(vs: seq<ShipView>) {
    forall k :: 0 <= k < |vs| ==> vs[k].isLiving
  }

  /** `_check_end_conditions`: team A wins when it alone is left and every enemy is
      sunk, team B symmetrically, and the match is lost when enemies remain and no
      player ship lives; anything else keeps the match going. */
  function EndState(players: seq<ShipView>, enemies: seq<ShipView>): (r: State)
    ensures r == AVictory <==>
      !AnyLiving(enemies) && TeamAlive(players, TeamA) && !TeamAlive(players, TeamB)
    ensures r == BVictory <==>
      !AnyLiving(enemies) && TeamAlive(players, TeamB) && !TeamAlive(players, TeamA)
    ensures r == GameOver <==>
      AnyLiving(enemies) && !TeamAlive(players, TeamA) && !TeamAlive(players, TeamB)
  {
    var aAlive := TeamAlive(players, TeamA);
    var bAlive := TeamAlive(players, TeamB);
    var enemiesAlive := AnyLiving(enemies);
    if !enemiesAlive && aAlive && !bAlive then AVictory
    else if !enemiesAlive && bAlive && !aAlive then BVictory
    else if enemiesAlive && !aAlive && !bAlive then GameOver
    else Playing
  }

  /** When nothing at all is left living, no side has won or lost: the match stays in play. */
  lemma EverythingSunkKeepsPlaying(players: seq<ShipView>, enemies: seq<ShipView>)
    requires forall k :: 0 <= k < |players| ==> !players[k].isLiving
    requires forall k :: 0 <= k < |enemies| ==> !enemies[k].isLiving
    ensures EndState(players, enemies) == Playing
  {
    assert !TeamAlive(players, TeamA) && !TeamAlive(players, TeamB);
    assert !AnyLiving(enemies);
  }

  /** Both teams living keeps the match in play, whatever the enemies do. */
  lemma BothTeamsKeepPlaying(players: seq<ShipView>, enemies: seq<ShipView>, a: nat, b: nat)
    requires a < |players| && b < |players|
    requires players[a].team == TeamA && players[a].isLiving
    requires players[b].team == TeamB && players[b].isLiving
    ensures EndState(players, enemies) == Playing
  {
    assert TeamAlive(players, TeamA) && TeamAlive(players, TeamB);
  }

  // ---------------------------------------------------------------- ship collisions

  /** How far apart the halves of two hulls may be: `s1.width/2 + s2.width/2`. */
  const ContactDistance: real := Width / 2.0 + Width / 2.0
  /** The push-apart is a quarter more than the overlap. */
  const PushFactor: real := 1.25

  /** The components `speed * cos(angle)` and `speed * sin(angle)` of a ship's velocity. */
  function VelocityX(t: Trig, v: ShipView): real {
    v.speed * t.Cos(v.angle)
  }

  function VelocityY(t: Trig, v: ShipView): real {
    v.speed * t.Sin(v.angle)
  }

  /** The length of the difference of the two ships' velocities. */
  function RelativeSpeed(t: Trig, a: ShipView, b: ShipView): real {
    t.Hypot(VelocityX(t, a) - VelocityX(t, b), VelocityY(t, a) - VelocityY(t, b))
  }

  /** |cos| of the heading difference wrapped into [-180, 180), taken in absolute value. */
  function ImpactFactor(t: Trig, a: ShipView, b: ShipView): real {
    Abs(t.Cos(Abs(WrapDegrees(a.angle - b.angle))))
  }

  /** `compute_damage(e1, e2)`: relative speed times the mean damage coefficient times the
      impact factor. */
  function ComputeDamage(t: Trig, a: ShipView, b: ShipView): real {
    RelativeSpeed(t, a, b) * ((a.dmgCoeff + b.dmgCoeff) / 2.0) * ImpactFactor(t, a, b)
  }

  /** Collision damage is never negative for ships with non-negative damage coefficients. */
  lemma ComputeDamageNonNegative(t: Trig, a: ShipView, b: ShipView)
    requires t.SqrtSound() && 0.0 <= a.dmgCoeff + b.dmgCoeff
    ensures 0.0 <= ComputeDamage(t, a, b)
  {
    var coeff := (a.dmgCoeff + b.dmgCoeff) / 2.0;
    MulNonNegative(RelativeSpeed(t, a, b), coeff);
    MulNonNegative(RelativeSpeed(t, a, b) * coeff, ImpactFactor(t, a, b));
  }

  lemma RelativeSpeedSymmetric(t: Trig, a: ShipView, b: ShipView)
    ensures RelativeSpeed(t, a, b) == RelativeSpeed(t, b, a)
  {
    var dx := VelocityX(t, a) - VelocityX(t, b);
    var dy := VelocityY(t, a) - VelocityY(t, b);
    assert Sq(-dx) == Sq(dx) && Sq(-dy) == Sq(dy);
  }

  lemma ImpactFactorSymmetric(t: Trig, a: ShipView, b: ShipView)
    ensures ImpactFactor(t, a, b) == ImpactFactor(t, b, a)
  {
    var d := a.angle - b.angle;
    assert b.angle - a.angle == -d;
    WrapDegreesNegate(d);
  }

  /** The collision damage does not depend on which ship comes first. */
  lemma ComputeDamageSymmetric(t: Trig, a: ShipView, b: ShipView)
    ensures ComputeDamage(t, a, b) == ComputeDamage(t, b, a)
  {
    RelativeSpeedSymmetric(t, a, b);
    ImpactFactorSymmetric(t, a, b);
    assert (b.dmgCoeff + a.dmgCoeff) / 2.0 == (a.dmgCoeff + b.dmgCoeff) / 2.0;
  }

  /** `(s1.width/2 + s2.width/2) - distance(s1, s2)`: how far the centres are inside the
      contact distance. */
  function Overlap(t: Trig, a: ShipView, b: ShipView): real {
    ContactDistance - Distance(t, a.x, a.y, b.x, b.y)
  }

  /** The length of the push each ship of a colliding pair receives. */
  function PushLength(t: Trig, a: ShipView, b: ShipView): real {
    Overlap(t, a, b) * PushFactor
  }

  /** The displacement the first ship of a colliding pair receives (the second receives
      its opposite): along the unit vector from the second centre to the first, a quarter
      more than the overlap.  Nothing moves when the centres are at least the contact
      distance apart or coincide. */
  function Separation(t: Trig, a: ShipView, b: ShipView): (r: (real, real))
    ensures Overlap(t, a, b) <= 0.0 ==> r == (0.0, 0.0)
    ensures a.x == b.x && a.y == b.y ==> r == (0.0, 0.0)
  {
    var n := Normalize(t, a.x - b.x, a.y - b.y);
    if Overlap(t, a, b) > 0.0 then Scaled(PushLength(t, a, b), n) else (0.0, 0.0)
  }

  /** The vector v multiplied by f. */
  function Scaled(f: real, v: (real, real)): (real, real) {
    (f * v.0, f * v.1)
  }

  /** A push of length f > 0 along a unit vector with a positive component along (dx, dy)
      has length f and a positive component along (dx, dy). */
  lemma ScaledUnitPushes(f: real, n: (real, real), dx: real, dy: real)
    requires 0.0 < f && Sq(n.0) + Sq(n.1) == 1.0 && 0.0 < n.0 * dx + n.1 * dy
    ensures Sq(Scaled(f, n).0) + Sq(Scaled(f, n).1) == Sq(f)
    ensures 0.0 < Scaled(f, n).0 * dx + Scaled(f, n).1 * dy
  {
    RotatedLength(f, n.0, n.1);
    MulPositive(f, n.0 * dx + n.1 * dy);
    assert (f * n.0) * dx + (f * n.1) * dy == f * (n.0 * dx + n.1 * dy);
  }

  /** With sound trigonometry, a push between distinct centres has length 1.25 times the
      overlap and points from the second ship to the first, so it moves them apart. */
  lemma SeparationPushesApart(t: Trig, a: ShipView, b: ShipView)
    requires t.Sound()
    requires a.x != b.x || a.y != b.y
    requires Overlap(t, a, b) > 0.0
    ensures Sq(Separation(t, a, b).0) + Sq(Separation(t, a, b).1) == Sq(PushLength(t, a, b))
    ensures 0.0 < Separation(t, a, b).0 * (a.x - b.x) + Separation(t, a, b).1 * (a.y - b.y)
  {
    var n := Normalize(t, a.x - b.x, a.y - b.y);
    NormalizeMeans(t, a.x - b.x, a.y - b.y);
    assert Separation(t, a, b) == Scaled(PushLength(t, a, b), n);
    ScaledUnitPushes(PushLength(t, a, b), n, a.x - b.x, a.y - b.y);
  }

  /** `collide(s1, s2)` on two ships: their hitboxes overlap. */
  predicate HullsMeet(t: Trig, a: ShipView, b: ShipView) {
    Collide(a.Hitbox(t), b.Hitbox(t))
  }

  /** The collision damage reads only speeds, headings and damage coefficients, so it is
      the same before and after the push-apart moves the two ships. */
  lemma DamageIgnoresPosition(t: Trig, a: ShipView, b: ShipView, a1: ShipView, b1: ShipView)
    requires a1 == a.(x := a1.x, y := a1.y) && b1 == b.(x := b1.x, y := b1.y)
    ensures ComputeDamage(t, a1, b1) == ComputeDamage(t, a, b)
  {
    assert VelocityX(t, a1) == VelocityX(t, a) && VelocityY(t, a1) == VelocityY(t, a);
    assert VelocityX(t, b1) == VelocityX(t, b) && VelocityY(t, b1) == VelocityY(t, b);
    assert RelativeSpeed(t, a1, b1) == RelativeSpeed(t, a, b);
    assert ImpactFactor(t, a1, b1) == ImpactFactor(t, a, b);
  }

  /** A ship moved by the vector d. */
  function Shifted(v: ShipView, d: (real, real)): (r: ShipView)
    ensures r.x == v.x + d.0 && r.y == v.y + d.1
  {
    v.(x := v.x + d.0, y := v.y + d.1)
  }

  /** Two ships each taking a third of their collision damage. */
  function Rammed(t: Trig, a: ShipView, b: ShipView): (ShipView, ShipView) {
    var dmg := ComputeDamage(t, a, b) / 3.0;
    (Damaged(a, dmg), Damaged(b, dmg))
  }

  /** One pair of `_handle_ship_collisions`, given whether the hulls `meet`: if they do,
      push the ships apart by opposite displacements and, unless both are enemies, apply
      a third of the collision damage (computed after the push) to each. */
  function Bumped(t: Trig, a: ShipView, b: ShipView, meet: bool, bothEnemies: bool): (ShipView, ShipView) {
    if !meet then (a, b)
    else
      var d := Separation(t, a, b);
      var a1, b1 := Shifted(a, d), Shifted(b, (-d.0, -d.1));
      if bothEnemies then (a1, b1) else Rammed(t, a1, b1)
  }

  /** A meeting pair is first pushed apart by opposite displacements, then rammed unless
      both ships are enemies. */
  lemma BumpedMeeting(t: Trig, a: ShipView, b: ShipView, bothEnemies: bool)
    ensures var d := Separation(t, a, b);
      var a1, b1 := Shifted(a, d), Shifted(b, (-d.0, -d.1));
      && (bothEnemies ==> Bumped(t, a, b, true, bothEnemies) == (a1, b1))
      && (!bothEnemies ==> Bumped(t, a, b, true, bothEnemies) == Rammed(t, a1, b1))
  {
  }

  /** A bump moves the two ships by opposite displacements, the first one by the
      separation push, and changes nothing but positions, health and the living flag;
      ships whose hulls do not meet are left as they were. */
  lemma BumpedMoves(t: Trig, a: ShipView, b: ShipView, meet: bool, bothEnemies: bool)
    ensures var r := Bumped(t, a, b, meet, bothEnemies);
      && (!meet ==> r == (a, b))
      && r.0.x + r.1.x == a.x + b.x && r.0.y + r.1.y == a.y + b.y
      && (meet ==> r.0.x - a.x == Separation(t, a, b).0 && r.0.y - a.y == Separation(t, a, b).1)
      && r.0 == a.(x := r.0.x, y := r.0.y, health := r.0.health, isLiving := r.0.isLiving)
      && r.1 == b.(x := r.1.x, y := r.1.y, health := r.1.health, isLiving := r.1.isLiving)
  {
  }

  /** Two enemies bumping keep their health; any other colliding pair takes a third of the
      collision damage each, exactly as `apply_damage` would before the push. */
  lemma BumpedDamages(t: Trig, a: ShipView, b: ShipView, meet: bool, bothEnemies: bool)
    ensures var r := Bumped(t, a, b, meet, bothEnemies);
      && (bothEnemies || !meet ==> r.0.health == a.health && r.1.health == b.health)
      && (bothEnemies || !meet ==> r.0.isLiving == a.isLiving && r.1.isLiving == b.isLiving)
      && (!bothEnemies && meet ==>
        var dmg := ComputeDamage(t, a, b) / 3.0;
        && r.0.health == Damaged(a, dmg).health && r.0.isLiving == Damaged(a, dmg).isLiving
        && r.1.health == Damaged(b, dmg).health && r.1.isLiving == Damaged(b, dmg).isLiving)
  {
    if meet && !bothEnemies {
      var d := Separation(t, a, b);
      var a1, b1 := Shifted(a, d), Shifted(b, (-d.0, -d.1));
      DamageIgnoresPosition(t, a, b, a1, b1);
    }
  }

  /** What one pair of the collision loop does to two ships, told whether both are enemies. */
  type PairRule = (ShipView, ShipView, bool) -> (ShipView, ShipView)

  /** The engine's pair rule: test the hulls with `collide`, then bump.  The rules over
      whole fleets below take the pair rule as a parameter, so that their proofs need only
      the properties of one pair proved above. */
  function BumpRule(t: Trig): PairRule {
    (a, b, bothEnemies) => Bumped(t, a, b, HullsMeet(t, a, b), bothEnemies)
  }

  /** The pairs of `_handle_ship_collisions` from (i, j) on, in the order of the two loops
      (i ascending, then j from i + 1), each pair seeing the effect of those before it.
      The first `nPlayers` ships are player ships, the rest enemies. */
  function CollidePairs(bump: PairRule, vs: seq<ShipView>, nPlayers: nat, i: nat, j: nat): (r: seq<ShipView>)
    requires i < j
    ensures |r| == |vs|
    decreases |vs| - i, |vs| - j
  {
    if i >= |vs| then vs
    else if j >= |vs| then CollidePairs(bump, vs, nPlayers, i + 1, i + 2)
    else
      var p := bump(vs[i], vs[j], i >= nPlayers && j >= nPlayers);
      CollidePairs(bump, vs[i := p.0][j := p.1], nPlayers, i, j + 1)
  }

  /** With the engine's pair rule, pair (i, j) bumps the two ships by `Bumped` and hands
      the list on to pair (i, j + 1). */
  lemma CollideStep(t: Trig, vs: seq<ShipView>, nPlayers: nat, i: nat, j: nat)
    requires i < j < |vs|
    ensures var p := Bumped(t, vs[i], vs[j], HullsMeet(t, vs[i], vs[j]), i >= nPlayers && j >= nPlayers);
      CollidePairs(BumpRule(t), vs, nPlayers, i, j) == CollidePairs(BumpRule(t), vs[i := p.0][j := p.1], nPlayers, i, j + 1)
  {
  }

  /** The sum of the ships' x coordinates, and of their y coordinates. */
  function SumX(vs: seq<ShipView>): real {
    if vs == [] then 0.0 else SumX(vs[..|vs| - 1]) + vs[|vs| - 1].x
  }

  function SumY(vs: seq<ShipView>): real {
    if vs == [] then 0.0 else SumY(vs[..|vs| - 1]) + vs[|vs| - 1].y
  }

  lemma {:induction false} SumUpdate(vs: seq<ShipView>, i: nat, v: ShipView)
    requires i < |vs|
    ensures SumX(vs[i := v]) == SumX(vs) - vs[i].x + v.x
    ensures SumY(vs[i := v]) == SumY(vs) - vs[i].y + v.y
  {
    var n := |vs| - 1;
    if i < n {
      assert vs[i := v][..n] == vs[..n][i := v];
      SumUpdate(vs[..n], i, v);
    } else {
      assert vs[i := v][..n] == vs[..n];
    }
  }

  /** The pair r moves a and b by opposite displacements. */
  predicate Balanced(a: ShipView, b: ShipView, r: (ShipView, ShipView)) {
    r.0.x + r.1.x == a.x + b.x && r.0.y + r.1.y == a.y + b.y
  }

  lemma BumpRuleBalanced(t: Trig)
    ensures forall a, b, e :: Balanced(a, b, BumpRule(t)(a, b, e))
  {
    forall a, b, e ensures Balanced(a, b, BumpRule(t)(a, b, e)) {
      BumpedMoves(t, a, b, HullsMeet(t, a, b), e);
    }
  }

  /** A collision phase whose pairs only ever move two ships by opposite displacements
      keeps the sum of all centres (the fleet's centre of mass); the engine's is one. */
  lemma {:induction false} CollisionsKeepCentre(bump: PairRule, vs: seq<ShipView>, nPlayers: nat, i: nat, j: nat)
    requires i < j
    requires forall a, b, e :: Balanced(a, b, bump(a, b, e))
    ensures SumX(CollidePairs(bump, vs, nPlayers, i, j)) == SumX(vs)
    ensures SumY(CollidePairs(bump, vs, nPlayers, i, j)) == SumY(vs)
    decreases |vs| - i, |vs| - j
  {
    if i >= |vs| {
      assert CollidePairs(bump, vs, nPlayers, i, j) == vs;
    } else if j >= |vs| {
      assert CollidePairs(bump, vs, nPlayers, i, j) == CollidePairs(bump, vs, nPlayers, i + 1, i + 2);
      CollisionsKeepCentre(bump, vs, nPlayers, i + 1, i + 2);
    } else {
      var p := bump(vs[i], vs[j], i >= nPlayers && j >= nPlayers);
      var ws := vs[i := p.0][j := p.1];
      assert CollidePairs(bump, vs, nPlayers, i, j) == CollidePairs(bump, ws, nPlayers, i, j + 1);
      assert Balanced(vs[i], vs[j], p);
      SumUpdate(vs, i, p.0);
      SumUpdate(vs[i := p.0], j, p.1);
      assert vs[i := p.0][j] == vs[j];
      assert SumX(ws) == SumX(vs) && SumY(ws) == SumY(vs);
      CollisionsKeepCentre(bump, ws, nPlayers, i, j + 1);
    }
  }

  /** One pair: with a sound square root and non-negative damage coefficients, a bump
      keeps both ships valid, never raises their health and never refloats a sunk ship;
      between two enemies it leaves health alone. */
  lemma BumpedNeverHeals(t: Trig, a: ShipView, b: ShipView, meet: bool, bothEnemies: bool)
    requires t.SqrtSound()
    requires a.Valid() && b.Valid() && 0.0 <= a.dmgCoeff && 0.0 <= b.dmgCoeff
    ensures var r := Bumped(t, a, b, meet, bothEnemies);
      && r.0.Valid() && r.1.Valid()
      && r.0.health <= a.health && r.1.health <= b.health
      && (r.0.isLiving ==> a.isLiving) && (r.1.isLiving ==> b.isLiving)
      && r.0.dmgCoeff == a.dmgCoeff && r.1.dmgCoeff == b.dmgCoeff
      && (bothEnemies ==> r.0.health == a.health && r.1.health == b.health)
  {
    BumpedMoves(t, a, b, meet, bothEnemies);
    BumpedDamages(t, a, b, meet, bothEnemies);
    if !bothEnemies && meet {
      ComputeDamageNonNegative(t, a, b);
      var d := ComputeDamage(t, a, b) / 3.0;
      DamagedValid(a, d);
      DamagedValid(b, d);
    }
  }

  /** A ship is valid and has a non-negative damage coefficient. */
  predicate SoundShip(v: ShipView) {
    v.Valid() && 0.0 <= v.dmgCoeff
  }

  /** `after` is a sound ship no healthier than `before`, with the same damage
      coefficient, and living only if `before` was living. */
  predicate NotHealed(after: ShipView, before: ShipView) {
    && SoundShip(after) && after.health <= before.health
    && after.dmgCoeff == before.dmgCoeff && (after.isLiving ==> before.isLiving)
  }

  /** The pair r heals neither of two sound ships a and b. */
  predicate Wears(a: ShipView, b: ShipView, r: (ShipView, ShipView)) {
    SoundShip(a) && SoundShip(b) ==> NotHealed(r.0, a) && NotHealed(r.1, b)
  }

  lemma BumpRuleWears(t: Trig)
    requires t.SqrtSound()
    ensures forall a, b, e :: Wears(a, b, BumpRule(t)(a, b, e))
  {
    forall a, b, e ensures Wears(a, b, BumpRule(t)(a, b, e)) {
      if SoundShip(a) && SoundShip(b) {
        BumpedNeverHeals(t, a, b, HullsMeet(t, a, b), e);
      }
    }
  }

  /** Ship by ship, no ship of `after` is healed with respect to `before`. */
  predicate NoneHealed(after: seq<ShipView>, before: seq<ShipView>) {
    |after| == |before| && forall k :: 0 <= k < |before| ==> NotHealed(after[k], before[k])
  }

  /** Every ship is sound. */
  predicate SoundFleet(vs: seq<ShipView>) {
    forall k :: 0 <= k < |vs| ==> SoundShip(vs[k])
  }

  lemma NoneHealedTransitive(a: seq<ShipView>, b: seq<ShipView>, c: seq<ShipView>)
    requires NoneHealed(a, b) && NoneHealed(b, c)
    ensures NoneHealed(a, c)
  {
  }

  /** Replacing ships i and j of a sound fleet by a pair that heals neither heals no one. */
  lemma NoneHealedUpdate(vs: seq<ShipView>, i: nat, j: nat, p: (ShipView, ShipView))
    requires i < j < |vs| && SoundFleet(vs) && Wears(vs[i], vs[j], p)
    ensures NoneHealed(vs[i := p.0][j := p.1], vs) && SoundFleet(vs[i := p.0][j := p.1])
  {
    assert SoundShip(vs[i]) && SoundShip(vs[j]);
  }

  /** A collision phase whose pairs heal no sound ship keeps every ship sound, raises no
      one's health and refloats no sunk ship; the engine's is one (given a sound square
      root). */
  lemma {:induction false} CollisionsNeverHeal(bump: PairRule, vs: seq<ShipView>, nPlayers: nat, i: nat, j: nat)
    requires i < j && SoundFleet(vs)
    requires forall a, b, e :: Wears(a, b, bump(a, b, e))
    ensures NoneHealed(CollidePairs(bump, vs, nPlayers, i, j), vs)
    decreases |vs| - i, |vs| - j
  {
    if i >= |vs| {
      assert NoneHealed(vs, vs) by {
        forall k | 0 <= k < |vs| ensures NotHealed(vs[k], vs[k]) {
          assert SoundShip(vs[k]);
        }
      }
    } else if j >= |vs| {
      assert CollidePairs(bump, vs, nPlayers, i, j) == CollidePairs(bump, vs, nPlayers, i + 1, i + 2);
      CollisionsNeverHeal(bump, vs, nPlayers, i + 1, i + 2);
    } else {
      var p := bump(vs[i], vs[j], i >= nPlayers && j >= nPlayers);
      var ws := vs[i := p.0][j := p.1];
      var after := CollidePairs(bump, ws, nPlayers, i, j + 1);
      assert CollidePairs(bump, vs, nPlayers, i, j) == after;
      NoneHealedUpdate(vs, i, j, p);
      CollisionsNeverHeal(bump, ws, nPlayers, i, j + 1);
      NoneHealedTransitive(after, ws, vs);
    }
  }

  // ---------------------------------------------------------------- targeting

  /** The distance `update` ranks players by, seen from (ex, ey). */
  function Reach(t: Trig, p: ShipView, ex: real, ey: real): real {
    t.Hypot(p.x - ex, p.y - ey)
  }

  /** `min(player_positions, key=...)`: the index of the first player at the smallest
      distance from (ex, ey). */
  function ClosestIndex(t: Trig, ps: seq<ShipView>, ex: real, ey: real): (r: nat)
    requires |ps| > 0
    ensures r < |ps|
    ensures forall k {:trigger Reach(t, ps[k], ex, ey)} :: 0 <= k < |ps| ==> Reach(t, ps[r], ex, ey) <= Reach(t, ps[k], ex, ey)
    ensures forall k {:trigger Reach(t, ps[k], ex, ey)} :: 0 <= k < r ==> Reach(t, ps[r], ex, ey) < Reach(t, ps[k], ex, ey)
  {
    if |ps| == 1 then 0
    else
      var rest := ClosestIndex(t, ps[..|ps| - 1], ex, ey);
      if Reach(t, ps[|ps| - 1], ex, ey) < Reach(t, ps[rest], ex, ey) then |ps| - 1 else rest
  }

  // ---------------------------------------------------------------- spawning

  /** One row of the spawn table: position, heading and team. */
  datatype SpawnPoint = SpawnPoint(x: real, y: real, angle: real, team: Team)

  /** `spawn_info`: the six spawn points on a `width` x `height` screen, alternating team A
      (left, heading 0) and team B (right, heading 180), top row first. */
  function SpawnInfo(width: nat, height: nat): (r: seq<SpawnPoint>)
    ensures |r| == 6
  {
    [SpawnPoint((width / 4) as real, (height / 4) as real, 0.0, TeamA),
     SpawnPoint((width * 3 / 4) as real, (height / 4) as real, 180.0, TeamB),
     SpawnPoint((width / 4) as real, (height * 3 / 4) as real, 0.0, TeamA),
     SpawnPoint((width * 3 / 4) as real, (height * 3 / 4) as real, 180.0, TeamB),
     SpawnPoint((width / 4) as real, (height / 2) as real, 0.0, TeamA),
     SpawnPoint((width * 3 / 4) as real, (height / 2) as real, 180.0, TeamB)]
  }

  /** The teams alternate through the table: even rows are team A facing 0 degrees on the
      left quarter line, odd rows team B facing 180 on the right one. */
  lemma SpawnTeamsAlternate(width: nat, height: nat, i: nat)
    requires i < 6
    ensures var p := SpawnInfo(width, height)[i];
      && (i % 2 == 0 ==> p.team == TeamA && p.angle == 0.0 && p.x == (width / 4) as real)
      && (i % 2 == 1 ==> p.team == TeamB && p.angle == 180.0 && p.x == (width * 3 / 4) as real)
  {
  }

  datatype Outcome<T> = Success(value: T) | Failure(error: string)

  /** What `_spawn_players(n)` builds: an error above six players, otherwise the first n
      rows of the table (none for n <= 0). */
  function SpawnPlan(n: int, width: nat, height: nat): (r: Outcome<seq<SpawnPoint>>)
    ensures r.Failure? <==> n > 6
    ensures r.Success? ==> |r.value| == if n <= 0 then 0 else n
    ensures r.Success? ==> forall i :: 0 <= i < |r.value| ==> r.value[i] == SpawnInfo(width, height)[i]
  {
    if n > 6 then Failure("Number of players must be less than 6.")
    else if n <= 0 then Success([])
    else Success(SpawnInfo(width, height)[..n])
  }

  /** The positions `(x, y)` of a list of spawn points. */
  function Spots(ps: seq<SpawnPoint>): (r: seq<(real, real)>)
    ensures |r| == |ps|
    ensures forall k :: 0 <= k < |ps| ==> r[k] == (ps[k].x, ps[k].y)
  {
    seq(|ps|, k requires 0 <= k < |ps| => (ps[k].x, ps[k].y))
  }

  /** `hypot(x - px, y - py) < min_distance` for some point: a candidate spot is too close. */
  predicate TooClose(t: Trig, x: real, y: real, pts: seq<(real, real)>, minDistance: real) {
    exists k :: 0 <= k < |pts| && t.Hypot(x - pts[k].0, y - pts[k].1) < minDistance
  }

  /** The positions `_spawn_enemies` accepts, drawing candidate spots from `draws` in turn:
      a spot too close to a player or to an enemy already placed is drawn again; placing
      stops once `n` enemies are placed or the draws run out. */
  function Placements(t: Trig, draws: seq<(int, int)>, players: seq<(real, real)>,
                      placed: seq<(real, real)>, n: nat, minDistance: real): (r: seq<(real, real)>)
    ensures |placed| <= n ==> |r| <= n
    ensures |placed| <= |r| && r[..|placed|] == placed
    decreases |draws|
  {
    if |placed| >= n || draws == [] then placed
    else
      var x, y := draws[0].0 as real, draws[0].1 as real;
      if TooClose(t, x, y, players, minDistance) || TooClose(t, x, y, placed, minDistance)
      then Placements(t, draws[1..], players, placed, n, minDistance)
      else Placements(t, draws[1..], players, placed + [(x, y)], n, minDistance)
  }

  /** Every placement is at least `min_distance` from every player and from every enemy
      placed before it. */
  predicate WellSpaced(t: Trig, placed: seq<(real, real)>, players: seq<(real, real)>, minDistance: real) {
    forall i :: 0 <= i < |placed| ==>
      !TooClose(t, placed[i].0, placed[i].1, players, minDistance) &&
      !TooClose(t, placed[i].0, placed[i].1, placed[..i], minDistance)
  }

  lemma {:induction false} PlacementsWellSpaced(t: Trig, draws: seq<(int, int)>, players: seq<(real, real)>,
                                                placed: seq<(real, real)>, n: nat, minDistance: real)
    requires WellSpaced(t, placed, players, minDistance)
    ensures WellSpaced(t, Placements(t, draws, players, placed, n, minDistance), players, minDistance)
    decreases |draws|
  {
    if |placed| >= n || draws == [] {
    } else {
      var x, y := draws[0].0 as real, draws[0].1 as real;
      if TooClose(t, x, y, players, minDistance) || TooClose(t, x, y, placed, minDistance) {
        PlacementsWellSpaced(t, draws[1..], players, placed, n, minDistance);
      } else {
        var more := placed + [(x, y)];
        assert more[..|placed|] == placed;
        assert forall i :: 0 <= i < |placed| ==> more[..i] == placed[..i];
        PlacementsWellSpaced(t, draws[1..], players, more, n, minDistance);
      }
    }
  }

  // ---------------------------------------------------------------- projectile phase

  /** The balls still in range after their step, in their original order. */
  function Kept(t: Trig, bs: seq<Cannonball>, vs: seq<CannonballView>): (r: seq<Cannonball>)
    requires |bs| == |vs|
    ensures |r| <= |bs|
    ensures forall k :: 0 <= k < |r| ==> r[k] in bs
  {
    if bs == [] then []
    else
      var n := |bs| - 1;
      Kept(t, bs[..n], vs[..n]) + (if Stepped(t, vs[n]).ExceededRange(t) then [] else [bs[n]])
  }

  /** One `'miss'` impact for each ball out of range after its step, in order. */
  function Misses(t: Trig, bs: seq<Cannonball>, vs: seq<CannonballView>): (r: seq<Impact>)
    requires |bs| == |vs|
    ensures forall k :: 0 <= k < |r| ==> r[k].kind == Miss && r[k].ball in bs
  {
    if bs == [] then []
    else
      var n := |bs| - 1;
      Misses(t, bs[..n], vs[..n]) + (if Stepped(t, vs[n]).ExceededRange(t) then [Impact(bs[n], Miss)] else [])
  }

  /** A `'miss'` is recorded for a ball exactly when some occurrence of it is out of range
      after its step. */
  lemma {:induction false} MissesMeans(t: Trig, bs: seq<Cannonball>, vs: seq<CannonballView>, b: Cannonball)
    requires |bs| == |vs|
    ensures Impact(b, Miss) in Misses(t, bs, vs) <==>
      exists k :: 0 <= k < |bs| && bs[k] == b && Stepped(t, vs[k]).ExceededRange(t)
  {
    if bs != [] {
      var n := |bs| - 1;
      var last := if Stepped(t, vs[n]).ExceededRange(t) then [Impact(bs[n], Miss)] else [];
      assert Misses(t, bs, vs) == Misses(t, bs[..n], vs[..n]) + last;
      assert Impact(b, Miss) in last <==> bs[n] == b && Stepped(t, vs[n]).ExceededRange(t);
      MissesMeans(t, bs[..n], vs[..n], b);
      if exists k :: 0 <= k < |bs| && bs[k] == b && Stepped(t, vs[k]).ExceededRange(t) {
        var k :| 0 <= k < |bs| && bs[k] == b && Stepped(t, vs[k]).ExceededRange(t);
        if k < n {
          assert bs[..n][k] == b && vs[..n][k] == vs[k];
        }
      }
    }
  }

  /** Each ball is either kept or recorded as a miss: together the two lists have one
      entry per ball. */
  lemma {:induction false} KeptOrMissed(t: Trig, bs: seq<Cannonball>, vs: seq<CannonballView>)
    requires |bs| == |vs|
    ensures |Kept(t, bs, vs)| + |Misses(t, bs, vs)| == |bs|
  {
    if bs != [] {
      KeptOrMissed(t, bs[..|bs| - 1], vs[..|vs| - 1]);
    }
  }

  /** A ball is kept exactly when some occurrence of it is in range after its step. */
  lemma {:induction false} KeptMeans(t: Trig, bs: seq<Cannonball>, vs: seq<CannonballView>, b: Cannonball)
    requires |bs| == |vs|
    ensures b in Kept(t, bs, vs) <==>
      exists k :: 0 <= k < |bs| && bs[k] == b && !Stepped(t, vs[k]).ExceededRange(t)
  {
    if bs != [] {
      var n := |bs| - 1;
      KeptMeans(t, bs[..n], vs[..n], b);
      if b in Kept(t, bs, vs) && b !in Kept(t, bs[..n], vs[..n]) {
        assert bs[n] == b && !Stepped(t, vs[n]).ExceededRange(t);
      }
      if exists k :: 0 <= k < |bs| && bs[k] == b && !Stepped(t, vs[k]).ExceededRange(t) {
        var k :| 0 <= k < |bs| && bs[k] == b && !Stepped(t, vs[k]).ExceededRange(t);
        if k < n {
          assert bs[..n][k] == b && vs[..n][k] == vs[k];
        }
      }
    }
  }

  // ---------------------------------------------------------------- projectile hits

  /** `collide(proj, target)`: the ball's hitbox meets the ship's. */
  predicate Hits(t: Trig, b: CannonballView, v: ShipView) {
    Collide(b.Hitbox(), v.Hitbox(t))
  }

  /** A hit test between a cannonball and a ship. */
  type BallTest = (CannonballView, ShipView) -> bool

  /** `collide(proj, target)` as a value; the rules below take the test as a parameter. */
  function HitTest(t: Trig): BallTest {
    (b, v) => Hits(t, b, v)
  }

  lemma HitTestMeans(t: Trig, b: CannonballView, v: ShipView)
    ensures HitTest(t)(b, v) == Hits(t, b, v)
  {
  }

  /** Whether the test says a ball meets `v` does not depend on the damage `v` has taken. */
  ghost predicate BlindToDamage(hit: BallTest, v: ShipView) {
    forall b, d :: hit(b, Damaged(v, d)) == hit(b, v)
  }

  /** Damage leaves a ship's hitbox where it was, so the engine's test is blind to it. */
  lemma HitTestBlindToDamage(t: Trig, v: ShipView)
    ensures BlindToDamage(HitTest(t), v)
  {
    forall b, d ensures HitTest(t)(b, Damaged(v, d)) == HitTest(t)(b, v) {
      assert Damaged(v, d).Hitbox(t) == v.Hitbox(t);
    }
  }

  /** The ball meets at least one of the targets. */
  predicate HitsAny(hit: BallTest, b: CannonballView, tvs: seq<ShipView>) {
    exists j :: 0 <= j < |tvs| && hit(b, tvs[j])
  }

  /** What one ball does to one target: `apply_damage(proj.damage)` when the test says
      they meet. */
  function Struck(hit: BallTest, v: ShipView, b: CannonballView): ShipView {
    if hit(b, v) then Damaged(v, b.damage) else v
  }

  /** A target after every ball in turn has been tested against it. */
  function StruckBy(hit: BallTest, v: ShipView, bvs: seq<CannonballView>): ShipView {
    if bvs == [] then v else Struck(hit, StruckBy(hit, v, bvs[..|bvs| - 1]), bvs[|bvs| - 1])
  }

  /** Every target after every ball in turn has been tested against it. */
  function StruckAll(hit: BallTest, tvs: seq<ShipView>, bvs: seq<CannonballView>): (r: seq<ShipView>)
    ensures |r| == |tvs|
    ensures forall k {:trigger r[k]} :: 0 <= k < |tvs| ==> r[k] == StruckBy(hit, tvs[k], bvs)
  {
    seq(|tvs|, k requires 0 <= k < |tvs| => StruckBy(hit, tvs[k], bvs))
  }

  /** The total damage of the balls that meet the target. */
  function DamageTaken(hit: BallTest, v: ShipView, bvs: seq<CannonballView>): real {
    if bvs == [] then 0.0
    else
      var b := bvs[|bvs| - 1];
      DamageTaken(hit, v, bvs[..|bvs| - 1]) + (if hit(b, v) then b.damage else 0.0)
  }

  /** Being hit by several balls is being hit once by their total damage (for balls that
      do non-negative damage): no hit is lost to the clamp at zero health. */
  lemma {:induction false} StruckBySum(hit: BallTest, v: ShipView, bvs: seq<CannonballView>)
    requires v.Valid() && BlindToDamage(hit, v)
    requires forall k :: 0 <= k < |bvs| ==> 0.0 <= bvs[k].damage
    ensures 0.0 <= DamageTaken(hit, v, bvs)
    ensures StruckBy(hit, v, bvs) == Damaged(v, DamageTaken(hit, v, bvs))
  {
    if bvs == [] {
      assert Damaged(v, 0.0).health == v.health;
    } else {
      var n := |bvs| - 1;
      StruckBySum(hit, v, bvs[..n]);
      var w := StruckBy(hit, v, bvs[..n]);
      var b := bvs[n];
      assert hit(b, w) == hit(b, v);
      if hit(b, v) {
        DamageAdds(v, DamageTaken(hit, v, bvs[..n]), b.damage);
      }
    }
  }

  /** A ship with its health and living flag replaced. */
  function Worn(v: ShipView, health: real, living: bool): ShipView {
    v.(health := health, isLiving := living)
  }

  /** Cannonball hits change only a target's health and living flag. */
  lemma {:induction false} StruckByWears(hit: BallTest, v: ShipView, bvs: seq<CannonballView>)
    ensures var w := StruckBy(hit, v, bvs); w == Worn(v, w.health, w.isLiving)
  {
    if bvs != [] {
      StruckByWears(hit, v, bvs[..|bvs| - 1]);
    }
  }

  /** The test does not look at the health or the living flag of any of the targets. */
  ghost predicate BlindTo(hit: BallTest, tvs: seq<ShipView>) {
    forall k, b, h, l :: 0 <= k < |tvs| ==> hit(b, Worn(tvs[k], h, l)) == hit(b, tvs[k])
  }

  /** The engine's test looks only at hitboxes, which health does not move. */
  lemma HitTestBlind(t: Trig, tvs: seq<ShipView>)
    ensures BlindTo(HitTest(t), tvs)
  {
    forall k, b, h, l | 0 <= k < |tvs| ensures HitTest(t)(b, Worn(tvs[k], h, l)) == HitTest(t)(b, tvs[k]) {
      assert Worn(tvs[k], h, l).Hitbox(t) == tvs[k].Hitbox(t);
    }
  }

  /** The balls that register a hit, once per target they meet: for each ball in order, for
      each target in order. */
  function HitsOf(hit: BallTest, b: Cannonball, bv: CannonballView, tvs: seq<ShipView>): (r: seq<Cannonball>)
    ensures forall k :: 0 <= k < |r| ==> r[k] == b
    ensures r != [] <==> HitsAny(hit, bv, tvs)
  {
    if tvs == [] then []
    else
      var n := |tvs| - 1;
      var before := HitsOf(hit, b, bv, tvs[..n]);
      assert HitsAny(hit, bv, tvs) <==> HitsAny(hit, bv, tvs[..n]) || hit(bv, tvs[n]) by {
        if HitsAny(hit, bv, tvs[..n]) {
          var j :| 0 <= j < n && hit(bv, tvs[..n][j]);
          assert tvs[..n][j] == tvs[j];
        }
        if HitsAny(hit, bv, tvs) && !hit(bv, tvs[n]) {
          var j :| 0 <= j < |tvs| && hit(bv, tvs[j]);
          assert tvs[..n][j] == tvs[j];
        }
      }
      before + (if hit(bv, tvs[n]) then [b] else [])
  }

  /** The hits of a ball depend only on what the test says about each target. */
  lemma {:induction false} HitsOfAlike(hit: BallTest, b: Cannonball, bv: CannonballView, u: seq<ShipView>, w: seq<ShipView>)
    requires |u| == |w|
    requires forall k :: 0 <= k < |u| ==> hit(bv, u[k]) == hit(bv, w[k])
    ensures HitsOf(hit, b, bv, u) == HitsOf(hit, b, bv, w)
  {
    if u != [] {
      var n := |u| - 1;
      HitsOfAlike(hit, b, bv, u[..n], w[..n]);
    }
  }

  /** The `collisions` list of `_handle_projectile_hits`: for each ball in order, the ball
      once for each target it meets. */
  function HitList(hit: BallTest, bs: seq<Cannonball>, bvs: seq<CannonballView>, tvs: seq<ShipView>): (r: seq<Cannonball>)
    requires |bs| == |bvs|
  {
    if bs == [] then []
    else
      var n := |bs| - 1;
      HitList(hit, bs[..n], bvs[..n], tvs) + HitsOf(hit, bs[n], bvs[n], tvs)
  }

  /** The hit list of the first i + 1 balls extends that of the first i by the hits of
      ball i. */
  lemma HitListStep(hit: BallTest, bs: seq<Cannonball>, bvs: seq<CannonballView>, tvs: seq<ShipView>, i: nat)
    requires |bs| == |bvs| && i < |bs|
    ensures HitList(hit, bs[..i + 1], bvs[..i + 1], tvs) == HitList(hit, bs[..i], bvs[..i], tvs) + HitsOf(hit, bs[i], bvs[i], tvs)
  {
    assert bs[..i + 1][..i] == bs[..i] && bvs[..i + 1][..i] == bvs[..i];
  }

  /** A ball is on the hit list exactly when some occurrence of it meets some target. */
  lemma {:induction false} HitListMeans(hit: BallTest, bs: seq<Cannonball>, bvs: seq<CannonballView>,
                                        tvs: seq<ShipView>, b: Cannonball)
    requires |bs| == |bvs|
    ensures b in HitList(hit, bs, bvs, tvs) <==>
      exists i :: 0 <= i < |bs| && bs[i] == b && HitsAny(hit, bvs[i], tvs)
  {
    if bs != [] {
      var n := |bs| - 1;
      HitListMeans(hit, bs[..n], bvs[..n], tvs, b);
      var h := HitsOf(hit, bs[n], bvs[n], tvs);
      assert HitList(hit, bs, bvs, tvs) == HitList(hit, bs[..n], bvs[..n], tvs) + h;
      assert b in h <==> b == bs[n] && HitsAny(hit, bvs[n], tvs) by {
        if b == bs[n] && HitsAny(hit, bvs[n], tvs) {
          assert h[0] == b;
        }
      }
      ShotSplit(hit, bs, bvs, tvs, b);
    }
  }

  /** A ball is among the first n + 1 that meet some target exactly when it is among the
      first n that do, or it is ball n and ball n meets some target. */
  lemma ShotSplit(hit: BallTest, bs: seq<Cannonball>, bvs: seq<CannonballView>, tvs: seq<ShipView>, b: Cannonball)
    requires |bs| == |bvs| && bs != []
    ensures var n := |bs| - 1;
      (exists i :: 0 <= i < |bs| && bs[i] == b && HitsAny(hit, bvs[i], tvs)) <==>
      (exists i :: 0 <= i < n && bs[..n][i] == b && HitsAny(hit, bvs[..n][i], tvs))
        || (bs[n] == b && HitsAny(hit, bvs[n], tvs))
  {
    var n := |bs| - 1;
    if exists i :: 0 <= i < |bs| && bs[i] == b && HitsAny(hit, bvs[i], tvs) {
      var i :| 0 <= i < |bs| && bs[i] == b && HitsAny(hit, bvs[i], tvs);
      if i < n {
        assert bs[..n][i] == b && bvs[..n][i] == bvs[i];
      }
    }
    if exists i :: 0 <= i < n && bs[..n][i] == b && HitsAny(hit, bvs[..n][i], tvs) {
      var i :| 0 <= i < n && bs[..n][i] == b && HitsAny(hit, bvs[..n][i], tvs);
      assert bs[i] == b && bvs[i] == bvs[..n][i];
    }
  }

  /** `[p for p in projectiles if p not in collisions]`. */
  function Without(bs: seq<Cannonball>, gone: seq<Cannonball>): (r: seq<Cannonball>)
    ensures |r| <= |bs|
    ensures forall k :: 0 <= k < |r| ==> r[k] in bs && r[k] !in gone
  {
    if bs == [] then []
    else
      var n := |bs| - 1;
      Without(bs[..n], gone) + (if bs[n] in gone then [] else [bs[n]])
  }

  /** The filter keeps exactly the balls not listed in `gone`. */
  lemma {:induction false} WithoutMeans(bs: seq<Cannonball>, gone: seq<Cannonball>, b: Cannonball)
    ensures b in Without(bs, gone) <==> b in bs && b !in gone
  {
    if bs != [] {
      var n := |bs| - 1;
      WithoutMeans(bs[..n], gone, b);
      assert bs == bs[..n] + [bs[n]];
    }
  }

  /** The impacts recording each listed ball with the given kind, in order. */
  function Tagged(l: seq<Cannonball>, kind: ImpactKind): (r: seq<Impact>)
    ensures |r| == |l|
    ensures forall k :: 0 <= k < |l| ==> r[k] == Impact(l[k], kind)
  {
    if l == [] then [] else Tagged(l[..|l| - 1], kind) + [Impact(l[|l| - 1], kind)]
  }
}
