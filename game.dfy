/**
 * The `Game` object of pyrate/engine/game.py: the lists of player ships, enemy ships,
 * free cannonballs and impacts, and the tick `update` that runs the phases in order —
 * ship physics, enemy steering toward the nearest player, gathering and stepping the
 * cannonballs, cannonball hits, ship-to-ship collisions and the end-of-match check.
 *
 * Each phase is a method proved against the value-level rules of module GameRules,
 * applied to the views the objects had when the phase began.
 */
module Games {
  import opened Numeric
  import opened Geometry
  import opened Sat
  import opened Projectiles
  import opened Ships
  import opened Enemies
  import opened GameRules

  // ---------------------------------------------------------------- lists of objects

  /** No object occurs twice in the list. */
  predicate Distinct<T(==)>(s: seq<T>) {
    forall i, j :: 0 <= i < j < |s| ==> s[i] != s[j]
  }

  /** The views of a list of ships. */
  function ViewsOf(ships: seq<Ship>): (r: seq<ShipView>)
    reads ships
    ensures |r| == |ships|
    ensures forall k :: 0 <= k < |ships| ==> r[k] == ships[k].View()
  {
    seq(|ships|, k requires 0 <= k < |ships| reads ships => ships[k].View())
  }

  /** The views of a list of cannonballs. */
  function BallViewsOf(balls: seq<Cannonball>): (r: seq<CannonballView>)
    reads balls
    ensures |r| == |balls|
    ensures forall k :: 0 <= k < |balls| ==> r[k] == balls[k].View()
  {
    seq(|balls|, k requires 0 <= k < |balls| reads balls => balls[k].View())
  }

  /** The ship parts of a list of enemies. */
  function HullsOf(es: seq<EnemyShip>): (r: seq<Ship>)
    ensures |r| == |es|
    ensures forall k :: 0 <= k < |es| ==> r[k] == es[k].hull
  {
    seq(|es|, k requires 0 <= k < |es| => es[k].hull)
  }

  /** `player_ships + enemy_ships`: every ship, the player ships first. */
  function FleetOf(players: seq<Ship>, enemies: seq<EnemyShip>): (r: seq<Ship>)
    ensures |r| == |players| + |enemies|
    ensures forall k :: 0 <= k < |players| ==> r[k] == players[k]
    ensures forall k :: 0 <= k < |enemies| ==> r[|players| + k] == enemies[k].hull
  {
    players + HullsOf(enemies)
  }

  /** No enemy occurs twice in the list and no two enemies share their ship part. */
  predicate Crew(es: seq<EnemyShip>) {
    forall i, j :: 0 <= i < j < |es| ==> es[i] != es[j] && es[i].hull != es[j].hull
  }

  /** The cannonballs a list of ships still holds, ship by ship in list order. */
  function HeldBy(ships: seq<Ship>): seq<Cannonball>
    reads ships
  {
    if ships == [] then [] else HeldBy(ships[..|ships| - 1]) + ships[|ships| - 1].projectiles
  }

  /** Ships whose lists are empty hold nothing. */
  lemma {:induction false} HeldByNone(ships: seq<Ship>)
    requires forall k :: 0 <= k < |ships| ==> ships[k].projectiles == []
    ensures HeldBy(ships) == []
  {
    if ships != [] {
      HeldByNone(ships[..|ships| - 1]);
    }
  }

  /** Ships whose lists of cannonballs did not change hold what they held. */
  twostate lemma {:induction false} HeldByKept(ships: seq<Ship>)
    requires forall k :: 0 <= k < |ships| ==> ships[k].projectiles == old(ships[k].projectiles)
    ensures HeldBy(ships) == old(HeldBy(ships))
  {
    if ships != [] {
      HeldByKept(ships[..|ships| - 1]);
    }
  }

  /** Ships none of which changed show the views they showed. */
  twostate lemma ViewsKept(ships: seq<Ship>)
    requires forall k :: 0 <= k < |ships| ==> unchanged(ships[k])
    ensures ViewsOf(ships) == old(ViewsOf(ships))
  {
  }

  /** The cannonballs still held by the ships of a game: the player ships' first, then
      the enemies'. */
  function Aboard(players: seq<Ship>, enemies: seq<EnemyShip>): seq<Cannonball>
    reads players, HullsOf(enemies)
  {
    HeldBy(players) + HeldBy(HullsOf(enemies))
  }

  /** The first i + 1 entries of a list are its first i entries and entry i. */
  lemma PrefixGrows<T>(s: seq<T>, i: nat)
    requires i < |s|
    ensures s[..i] + [s[i]] == s[..i + 1]
  {
  }

  /** Joining lists does not depend on grouping. */
  lemma JoinAssociative<T>(a: seq<T>, b: seq<T>, c: seq<T>)
    ensures a + (b + c) == a + b + c
  {
  }

  /** The enemies still living, in order: `[e for e in enemy_ships if e.is_living]`. */
  function Living(es: seq<EnemyShip>): (r: seq<EnemyShip>)
    reads HullsOf(es)
    ensures forall k :: 0 <= k < |r| ==> r[k] in es && r[k].hull.isLiving
  {
    if es == [] then []
    else
      var n := |es| - 1;
      assert HullsOf(es[..n]) == HullsOf(es)[..n];
      Living(es[..n]) + (if es[n].hull.isLiving then [es[n]] else [])
  }

  /** An enemy survives the purge exactly when it was listed and is still living. */
  lemma {:induction false} LivingMeans(es: seq<EnemyShip>, e: EnemyShip)
    ensures e in Living(es) <==> e in es && e.hull.isLiving
  {
    if es != [] {
      var n := |es| - 1;
      LivingMeans(es[..n], e);
      assert es == es[..n] + [es[n]];
    }
  }

  /** The purge keeps enemies and their ship parts apart. */
  lemma {:induction false} LivingCrew(es: seq<EnemyShip>)
    requires Crew(es)
    ensures Crew(Living(es))
  {
    if es != [] {
      var n := |es| - 1;
      var rest := Living(es[..n]);
      assert Crew(es[..n]);
      LivingCrew(es[..n]);
      forall a | 0 <= a < |rest| ensures rest[a] != es[n] && rest[a].hull != es[n].hull {
        var m :| 0 <= m < n && es[..n][m] == rest[a];
        assert es[m] == rest[a];
      }
    }
  }

  /** Ships holding nothing between them hold nothing one by one. */
  lemma {:induction false} HeldByEmpty(ships: seq<Ship>)
    requires HeldBy(ships) == []
    ensures forall k :: 0 <= k < |ships| ==> ships[k].projectiles == []
  {
    if ships != [] {
      var n := |ships| - 1;
      assert |HeldBy(ships[..n])| + |ships[n].projectiles| == 0;
      HeldByEmpty(ships[..n]);
      forall k | 0 <= k < n ensures ships[k].projectiles == [] {
        assert ships[..n][k] == ships[k];
      }
    }
  }

  // ---------------------------------------------------------------- per-ship phase rules

  /** Where an enemy heads: the first player ship nearest to it, as `min` with a key picks. */
  function Quarry(t: Trig, players: seq<ShipView>, e: EnemyView): (r: ShipView)
    requires |players| > 0
    ensures r in players
    ensures forall k {:trigger Reach(t, players[k], e.hull.x, e.hull.y)} :: 0 <= k < |players| ==>
      Reach(t, r, e.hull.x, e.hull.y) <= Reach(t, players[k], e.hull.x, e.hull.y)
  {
    players[ClosestIndex(t, players, e.hull.x, e.hull.y)]
  }

  /** An enemy's turn: `enemy.update(px, py, pa)` toward its quarry, with its patrol draw. */
  function EnemyTurn(t: Trig, players: seq<ShipView>, e: EnemyView, jitter: real): EnemyView
    requires |players| > 0
  {
    var p := Quarry(t, players, e);
    EnemyUpdated(t, e, p.x, p.y, p.angle, jitter)
  }

  /** The shape every game keeps: no ship and no cannonball is listed twice, and no
      player ship is the hull of an enemy, so that updating one object never changes
      another entry.  `held` are the cannonballs the ships still hold. */
  predicate Arranged(players: seq<Ship>, enemies: seq<EnemyShip>, balls: seq<Cannonball>, held: seq<Cannonball>) {
    && Distinct(players)
    && Crew(enemies)
    && (forall i, k :: 0 <= i < |players| && 0 <= k < |enemies| ==> players[i] != enemies[k].hull)
    && Distinct(balls + held)
  }

  /** In an arranged game no ship occurs twice in `player_ships + enemy_ships`. */
  lemma FleetDistinct(players: seq<Ship>, enemies: seq<EnemyShip>, balls: seq<Cannonball>, held: seq<Cannonball>)
    requires Arranged(players, enemies, balls, held)
    ensures Distinct(FleetOf(players, enemies))
  {
    var f := FleetOf(players, enemies);
    forall i, j | 0 <= i < j < |f| ensures f[i] != f[j] {
      if i >= |players| {
        assert f[i] == HullsOf(enemies)[i - |players|];
      }
    }
  }

  /** In an arranged game no enemy hull is a player ship. */
  lemma HullsApart(players: seq<Ship>, enemies: seq<EnemyShip>, balls: seq<Cannonball>, held: seq<Cannonball>)
    requires Arranged(players, enemies, balls, held)
    ensures forall h :: h in HullsOf(enemies) ==> h !in players
  {
  }

  /** `ship.update()` for each ship of a list in turn. */
  method MoveAll(t: Trig, ships: seq<Ship>)
    requires Distinct(ships)
    modifies ships
    ensures forall k :: 0 <= k < |ships| ==> ships[k].View() == Moved(t, old(ships[k].View()))
  {
    for i := 0 to |ships|
      invariant forall k :: 0 <= k < i ==> ships[k].View() == Moved(t, old(ships[k].View()))
      invariant forall k :: i <= k < |ships| ==> ships[k].View() == old(ships[k].View())
    {
      ships[i].Update(t);
    }
  }

  /** The views of a list of enemies. */
  function EnemyViewsOf(es: seq<EnemyShip>): (r: seq<EnemyView>)
    reads es, HullsOf(es)
    ensures |r| == |es|
    ensures forall k {:trigger r[k]} :: 0 <= k < |es| ==> r[k] == es[k].View()
  {
    seq(|es|, k requires 0 <= k < |es| reads es, HullsOf(es) => es[k].View())
  }

  /** The turns of a list of enemies toward their quarries among the given player
      positions, each with its own draw. */
  function Turns(t: Trig, players: seq<ShipView>, evs: seq<EnemyView>, jitters: seq<real>): (r: seq<EnemyView>)
    requires |players| > 0 && |jitters| == |evs|
    ensures |r| == |evs|
    ensures forall k {:trigger r[k]} :: 0 <= k < |evs| ==> r[k] == EnemyTurn(t, players, evs[k], jitters[k])
  {
    seq(|evs|, k requires 0 <= k < |evs| => EnemyTurn(t, players, evs[k], jitters[k]))
  }

  /** Always true: it names entry k of a list so that a quantifier over k is used by
      the solver only where a proof mentions `Entry(k)`, not at every entry in sight. */
  predicate Entry(k: int) {
    true
  }

  /** One pass of the enemy loop: `min` over the player positions by distance, then
      `enemy.update(px, py, pa)`. */
  method SteerOne(t: Trig, enemy: EnemyShip, positions: seq<ShipView>, jitter: real, ghost before: EnemyView)
    requires |positions| > 0 && enemy.View() == before
    modifies enemy, enemy.hull
    ensures enemy.View() == EnemyTurn(t, positions, before, jitter)
    ensures enemy.hull.projectiles == old(enemy.hull.projectiles)
  {
    var closest := positions[ClosestIndex(t, positions, enemy.hull.x, enemy.hull.y)];
    enemy.Update(t, closest.x, closest.y, closest.angle, jitter);
  }

  /** Always true, like `Entry`, but for the planned turns: `turns[k]` is unfolded into
      enemy k's turn only where a proof mentions `Due(k)`. */
  predicate Due(k: int) {
    true
  }

  /** The loop of the enemy phase, against a list of planned turns. */
  method SteerEach(t: Trig, es: seq<EnemyShip>, positions: seq<ShipView>, jitters: seq<real>,
                   ghost evs: seq<EnemyView>, ghost turns: seq<EnemyView>)
    requires Crew(es) && |positions| > 0
    requires |jitters| == |es| && |evs| == |es| && |turns| == |es|
    requires forall k {:trigger Entry(k)} :: 0 <= k < |es| && Entry(k) ==> es[k].View() == evs[k]
    requires forall k {:trigger Due(k)} :: 0 <= k < |es| && Due(k) ==>
      turns[k] == EnemyTurn(t, positions, evs[k], jitters[k])
    modifies es, HullsOf(es)
    ensures forall k {:trigger Entry(k)} :: 0 <= k < |es| && Entry(k) ==>
      es[k].View() == turns[k] && es[k].hull.projectiles == evs[k].hull.projectiles
  {
    for i := 0 to |es|
      invariant forall k {:trigger Entry(k)} :: 0 <= k < i && Entry(k) ==>
        es[k].View() == turns[k] && es[k].hull.projectiles == evs[k].hull.projectiles
      invariant forall k {:trigger Entry(k)} :: i <= k < |es| && Entry(k) ==> es[k].View() == evs[k]
    {
      var enemy := es[i];
      assert enemy.hull == HullsOf(es)[i];
      assert Entry(i) && Due(i);
      SteerOne(t, enemy, positions, jitters[i], evs[i]);
    }
  }

  /** The enemy loop of `update`: every enemy in turn steers toward the player ship
      nearest to it, among the player positions taken before the loop. */
  method SteerAll(t: Trig, es: seq<EnemyShip>, players: seq<Ship>, jitters: seq<real>)
    requires Crew(es)
    requires |jitters| == |es| && (|es| > 0 ==> |players| > 0)
    modifies es, HullsOf(es)
    ensures |es| > 0 ==>
      EnemyViewsOf(es) == Turns(t, old(ViewsOf(players)), old(EnemyViewsOf(es)), jitters)
    ensures HeldBy(HullsOf(es)) == old(HeldBy(HullsOf(es)))
  {
    if es == [] {
      return;
    }
    var positions := ViewsOf(players);
    ghost var evs := EnemyViewsOf(es);
    ghost var turns := Turns(t, positions, evs, jitters);
    SteerEach(t, es, positions, jitters, evs, turns);
    forall k | 0 <= k < |es| ensures es[k].View() == turns[k] && es[k].hull.projectiles == evs[k].hull.projectiles {
      assert Entry(k);
    }
    assert EnemyViewsOf(es) == turns;
    forall k | 0 <= k < |es| ensures HullsOf(es)[k].projectiles == old(HullsOf(es)[k].projectiles) {
      assert old(es[k].View()) == evs[k];
    }
    HeldByKept(HullsOf(es));
  }

  /** `for ship in ships: projectiles.extend(ship.projectiles); ship.projectiles.clear()`:
      the list `acc` grows by every ship's cannonballs in turn and each ship's list is
      emptied. */
  method DrainInto(ships: seq<Ship>, acc: seq<Cannonball>) returns (r: seq<Cannonball>)
    requires Distinct(ships)
    modifies ships
    ensures r == acc + old(HeldBy(ships))
    ensures forall k :: 0 <= k < |ships| ==> ships[k].View() == old(ships[k].View()).(projectiles := [])
  {
    r := acc;
    for i := 0 to |ships|
      invariant r == acc + old(HeldBy(ships[..i]))
      invariant forall k {:trigger Entry(k)} :: 0 <= k < i && Entry(k) ==>
        ships[k].View() == old(ships[k].View()).(projectiles := [])
      invariant forall k {:trigger Entry(k)} :: i <= k < |ships| && Entry(k) ==>
        ships[k].View() == old(ships[k].View())
    {
      assert Entry(i);
      assert ships[..i + 1][..i] == ships[..i];
      r := r + ships[i].projectiles;
      ships[i].projectiles := [];
    }
    assert ships[..|ships|] == ships;
    forall k | 0 <= k < |ships| ensures ships[k].View() == old(ships[k].View()).(projectiles := []) {
      assert Entry(k);
    }
  }

  /** The two draining loops of `update`, player ships first, then enemies: the game's
      list `balls` grows by every cannonball the ships hold, and the ships hold none. */
  method DrainFleet(players: seq<Ship>, enemies: seq<EnemyShip>, balls: seq<Cannonball>) returns (r: seq<Cannonball>)
    requires Arranged(players, enemies, balls, Aboard(players, enemies))
    modifies players, HullsOf(enemies)
    ensures r == old(balls + Aboard(players, enemies))
    ensures Aboard(players, enemies) == [] && Arranged(players, enemies, r, Aboard(players, enemies))
    ensures forall k :: 0 <= k < |players| ==> players[k].View() == old(players[k].View()).(projectiles := [])
    ensures forall k :: 0 <= k < |enemies| ==>
      enemies[k].hull.View() == old(enemies[k].hull.View()).(projectiles := [])
  {
    var hulls := HullsOf(enemies);
    HullsApart(players, enemies, balls, Aboard(players, enemies));
    r := DrainInto(players, balls);
    forall k | 0 <= k < |hulls| ensures hulls[k].projectiles == old(hulls[k].projectiles) {
      assert hulls[k] !in players;
    }
    HeldByKept(hulls);
    ghost var drained := ViewsOf(players);
    r := DrainInto(hulls, r);
    forall k | 0 <= k < |players| ensures players[k].View() == drained[k] {
      assert players[k] !in hulls;
    }
    HeldByNone(players);
    HeldByNone(hulls);
    JoinAssociative(balls, old(HeldBy(players)), old(HeldBy(hulls)));
    assert r + [] == r;
  }

  /** A sublist of a list without repetitions has none. */
  lemma {:induction false} KeptDistinct(t: Trig, bs: seq<Cannonball>, vs: seq<CannonballView>)
    requires |bs| == |vs| && Distinct(bs)
    ensures Distinct(Kept(t, bs, vs))
  {
    if bs != [] {
      var n := |bs| - 1;
      assert Distinct(bs[..n]);
      KeptDistinct(t, bs[..n], vs[..n]);
      assert bs[n] !in bs[..n];
    }
  }

  /** The stepping loop of `update`: every cannonball moves one step; those beyond their
      range become `'miss'` impacts and the rest are kept, in their order. */
  method StepBalls(t: Trig, balls: seq<Cannonball>) returns (kept: seq<Cannonball>, misses: seq<Impact>)
    requires Distinct(balls)
    modifies balls
    ensures forall k :: 0 <= k < |balls| ==> balls[k].View() == Stepped(t, old(balls[k].View()))
    ensures kept == Kept(t, balls, old(BallViewsOf(balls)))
    ensures misses == Misses(t, balls, old(BallViewsOf(balls)))
  {
    ghost var vs := BallViewsOf(balls);
    kept, misses := [], [];
    for i := 0 to |balls|
      invariant kept == Kept(t, balls[..i], vs[..i]) && misses == Misses(t, balls[..i], vs[..i])
      invariant forall k {:trigger Entry(k)} :: 0 <= k < i && Entry(k) ==> balls[k].View() == Stepped(t, vs[k])
      invariant forall k {:trigger Entry(k)} :: i <= k < |balls| && Entry(k) ==> balls[k].View() == vs[k]
    {
      assert Entry(i);
      var ball := balls[i];
      ball.Update(t);
      var gone := ball.HasExceededRange(t);
      assert balls[..i + 1][..i] == balls[..i] && vs[..i + 1][..i] == vs[..i];
      if gone {
        misses := misses + [Impact(ball, Miss)];
      } else {
        kept := kept + [ball];
      }
    }
    assert balls[..|balls|] == balls && vs[..|balls|] == vs;
    forall k | 0 <= k < |balls| ensures balls[k].View() == Stepped(t, vs[k]) {
      assert Entry(k);
    }
  }

  /** The stepping loop of `update` in a game whose ships hold no cannonballs: the game
      stays arranged with the kept balls as its list. */
  method StepFlight(t: Trig, players: seq<Ship>, enemies: seq<EnemyShip>, balls: seq<Cannonball>)
    returns (kept: seq<Cannonball>, misses: seq<Impact>)
    requires Arranged(players, enemies, balls, Aboard(players, enemies)) && Aboard(players, enemies) == []
    modifies balls
    ensures forall k :: 0 <= k < |balls| ==> balls[k].View() == Stepped(t, old(balls[k].View()))
    ensures kept == Kept(t, balls, old(BallViewsOf(balls)))
    ensures misses == Misses(t, balls, old(BallViewsOf(balls)))
    ensures Aboard(players, enemies) == [] && Arranged(players, enemies, kept, Aboard(players, enemies))
  {
    assert balls + [] == balls;
    ghost var bvs := BallViewsOf(balls);
    kept, misses := StepBalls(t, balls);
    KeptDistinct(t, balls, bvs);
    assert kept + [] == kept;
  }

  /** Dropping balls from a list without repetitions leaves none. */
  /** On a list without repetitions, each ball out of range is recorded as a miss once. */
  lemma {:induction false} MissesDistinct(t: Trig, bs: seq<Cannonball>, vs: seq<CannonballView>)
    requires |bs| == |vs| && Distinct(bs)
    ensures Distinct(Misses(t, bs, vs))
  {
    if bs != [] {
      var n := |bs| - 1;
      assert Distinct(bs[..n]);
      MissesDistinct(t, bs[..n], vs[..n]);
      assert bs[n] !in bs[..n];
      if Stepped(t, vs[n]).ExceededRange(t) {
        forall k | 0 <= k < |Misses(t, bs[..n], vs[..n])|
          ensures Misses(t, bs[..n], vs[..n])[k] != Impact(bs[n], Miss)
        {
          var m := Misses(t, bs[..n], vs[..n])[k];
          assert m.ball in bs[..n];
        }
      }
    }
  }

  lemma {:induction false} WithoutDistinct(bs: seq<Cannonball>, gone: seq<Cannonball>)
    requires Distinct(bs)
    ensures Distinct(Without(bs, gone))
  {
    if bs != [] {
      var n := |bs| - 1;
      assert Distinct(bs[..n]);
      WithoutDistinct(bs[..n], gone);
      assert bs[n] !in bs[..n];
    }
  }

  /** After `_handle_projectile_hits`, a cannonball of a list without repetitions is still
      in flight exactly when it met no target. */
  lemma ShotDown(hit: BallTest, bs: seq<Cannonball>, bvs: seq<CannonballView>, tvs: seq<ShipView>, k: nat)
    requires |bs| == |bvs| && Distinct(bs) && k < |bs|
    ensures bs[k] in Without(bs, HitList(hit, bs, bvs, tvs)) <==> !HitsAny(hit, bvs[k], tvs)
  {
    WithoutMeans(bs, HitList(hit, bs, bvs, tvs), bs[k]);
    HitListMeans(hit, bs, bvs, tvs, bs[k]);
  }

  /** The inner loop of `_handle_projectile_hits` for one cannonball: each target the test
      says it meets takes its damage, and the ball is listed once per target met. */
  method Strike(hit: BallTest, ball: Cannonball, targets: seq<Ship>, ghost before: seq<ShipView>)
    returns (hits: seq<Cannonball>)
    requires Distinct(targets) && |before| == |targets|
    requires forall k {:trigger Entry(k)} :: 0 <= k < |targets| && Entry(k) ==> targets[k].View() == before[k]
    modifies targets
    ensures hits == HitsOf(hit, ball, ball.View(), before)
    ensures forall k {:trigger Entry(k)} :: 0 <= k < |targets| && Entry(k) ==>
      targets[k].View() == Struck(hit, before[k], ball.View())
  {
    hits := [];
    for i := 0 to |targets|
      invariant hits == HitsOf(hit, ball, ball.View(), before[..i])
      invariant forall k {:trigger Entry(k)} :: 0 <= k < i && Entry(k) ==>
        targets[k].View() == Struck(hit, before[k], ball.View())
      invariant forall k {:trigger Entry(k)} :: i <= k < |targets| && Entry(k) ==> targets[k].View() == before[k]
    {
      assert Entry(i);
      var target := targets[i];
      assert before[..i + 1][..i] == before[..i];
      if hit(ball.View(), target.View()) {
        target.ApplyDamage(ball.damage);
        hits := hits + [ball];
      }
    }
    assert before[..|targets|] == before;
  }

  /** One pass of the outer loop of `_handle_projectile_hits`, on targets already struck by
      the balls `done`: for a test blind to damage, the ball's hits are those against the
      targets as they were at the start. */
  method StrikeNext(hit: BallTest, ball: Cannonball, targets: seq<Ship>,
                    ghost done: seq<CannonballView>, ghost bv: CannonballView, ghost tvs: seq<ShipView>)
    returns (hits: seq<Cannonball>)
    requires Distinct(targets) && |tvs| == |targets| && ball.View() == bv && BlindTo(hit, tvs)
    requires forall k {:trigger Entry(k)} :: 0 <= k < |targets| && Entry(k) ==>
      targets[k].View() == StruckBy(hit, tvs[k], done)
    modifies targets
    ensures hits == HitsOf(hit, ball, bv, tvs)
    ensures forall k {:trigger Entry(k)} :: 0 <= k < |targets| && Entry(k) ==>
      targets[k].View() == StruckBy(hit, tvs[k], done + [bv])
  {
    ghost var now := seq(|targets|, k requires 0 <= k < |targets| => StruckBy(hit, tvs[k], done));
    forall k | 0 <= k < |targets| ensures hit(bv, now[k]) == hit(bv, tvs[k]) {
      StruckByWears(hit, tvs[k], done);
    }
    HitsOfAlike(hit, ball, bv, now, tvs);
    hits := Strike(hit, ball, targets, now);
    assert (done + [bv])[..|done|] == done;
  }

  /** The loops of `_handle_projectile_hits`, for a test blind to damage: the `collisions`
      list, and every target struck by every ball in turn. */
  method StrikeEach(hit: BallTest, balls: seq<Cannonball>, targets: seq<Ship>,
                    ghost bvs: seq<CannonballView>, ghost tvs: seq<ShipView>)
    returns (collisions: seq<Cannonball>)
    requires Distinct(targets) && |bvs| == |balls| && |tvs| == |targets| && BlindTo(hit, tvs)
    requires forall k {:trigger Entry(k)} :: 0 <= k < |balls| && Entry(k) ==> balls[k].View() == bvs[k]
    requires forall k {:trigger Entry(k)} :: 0 <= k < |targets| && Entry(k) ==> targets[k].View() == tvs[k]
    modifies targets
    ensures collisions == HitList(hit, balls, bvs, tvs)
    ensures forall k {:trigger Entry(k)} :: 0 <= k < |targets| && Entry(k) ==>
      targets[k].View() == StruckBy(hit, tvs[k], bvs)
  {
    collisions := [];
    assert bvs[..0] == [];
    for i := 0 to |balls|
      invariant collisions == HitList(hit, balls[..i], bvs[..i], tvs)
      invariant forall k {:trigger Entry(k)} :: 0 <= k < |targets| && Entry(k) ==>
        targets[k].View() == StruckBy(hit, tvs[k], bvs[..i])
    {
      assert Entry(i);
      var hits := StrikeNext(hit, balls[i], targets, bvs[..i], bvs[i], tvs);
      HitListStep(hit, balls, bvs, tvs, i);
      PrefixGrows(bvs, i);
      collisions := collisions + hits;
    }
    assert balls[..|balls|] == balls;
    assert bvs[..|balls|] == bvs;
  }

  /** The loops of `_handle_projectile_hits`, for a test blind to damage: the `collisions`
      list, and every target struck by every ball in turn, holding the cannonballs it held. */
  method StrikeTargets(hit: BallTest, targets: seq<Ship>, balls: seq<Cannonball>) returns (collisions: seq<Cannonball>)
    requires Distinct(targets) && BlindTo(hit, ViewsOf(targets))
    modifies targets
    ensures collisions == HitList(hit, balls, old(BallViewsOf(balls)), old(ViewsOf(targets)))
    ensures forall k :: 0 <= k < |targets| ==>
      targets[k].View() == StruckBy(hit, old(targets[k].View()), old(BallViewsOf(balls)))
    ensures forall k :: 0 <= k < |targets| ==> targets[k].projectiles == old(targets[k].projectiles)
  {
    ghost var bvs := BallViewsOf(balls);
    ghost var tvs := ViewsOf(targets);
    collisions := StrikeEach(hit, balls, targets, bvs, tvs);
    forall k | 0 <= k < |targets|
      ensures targets[k].View() == StruckBy(hit, old(targets[k].View()), bvs)
      ensures targets[k].projectiles == old(targets[k].projectiles)
    {
      assert Entry(k) && old(targets[k].View()) == tvs[k];
      StruckByWears(hit, tvs[k], bvs);
    }
  }

  /** `_handle_projectile_hits`, for a test blind to damage, on the ships of a game whose
      ships hold no cannonballs:
      the `collisions` list, every ship struck by every ball in turn, and the ships still
      holding none. */
  method StrikeFleet(hit: BallTest, players: seq<Ship>, enemies: seq<EnemyShip>, balls: seq<Cannonball>)
    returns (collisions: seq<Cannonball>)
    requires Arranged(players, enemies, balls, Aboard(players, enemies)) && Aboard(players, enemies) == []
    requires BlindTo(hit, ViewsOf(FleetOf(players, enemies)))
    modifies players, HullsOf(enemies)
    ensures collisions == HitList(hit, balls, old(BallViewsOf(balls)), old(ViewsOf(FleetOf(players, enemies))))
    ensures ViewsOf(FleetOf(players, enemies)) ==
      StruckAll(hit, old(ViewsOf(FleetOf(players, enemies))), old(BallViewsOf(balls)))
    ensures Aboard(players, enemies) == []
    ensures Arranged(players, enemies, Without(balls, collisions), Aboard(players, enemies))
  {
    var targets := FleetOf(players, enemies);
    FleetDistinct(players, enemies, balls, []);
    assert balls + [] == balls;
    assert Distinct(balls);
    collisions := StrikeTargets(hit, targets, balls);
    WithoutDistinct(balls, collisions);
    forall k | 0 <= k < |players| ensures players[k].projectiles == old(players[k].projectiles) {
      assert targets[k] == players[k];
    }
    HeldByKept(players);
    var hulls := HullsOf(enemies);
    forall k | 0 <= k < |hulls| ensures hulls[k].projectiles == old(hulls[k].projectiles) {
      assert targets[|players| + k] == hulls[k];
    }
    HeldByKept(hulls);
    assert Without(balls, collisions) + [] == Without(balls, collisions);
    assert ViewsOf(targets) == StruckAll(hit, old(ViewsOf(targets)), old(BallViewsOf(balls)));
  }

  /** The separation step of one colliding pair: when the centres are closer than the
      contact distance, each ship moves along the line of the centres, away from the
      other, by a quarter more than the overlap. */
  method PushApart(t: Trig, s1: Ship, s2: Ship)
    requires s1 != s2
    modifies s1, s2
    ensures var a, b := old(s1.View()), old(s2.View());
      var d := Separation(t, a, b);
      s1.View() == Shifted(a, d) && s2.View() == Shifted(b, (-d.0, -d.1))
  {
    var n := Normalize(t, s1.x - s2.x, s1.y - s2.y);
    var overlap := ContactDistance - Distance(t, s1.x, s1.y, s2.x, s2.y);
    if overlap > 0.0 {
      var push := Scaled(overlap * PushFactor, n);
      s1.x, s1.y := s1.x + push.0, s1.y + push.1;
      s2.x, s2.y := s2.x - push.0, s2.y - push.1;
    }
  }

  /** The damage step of one colliding pair that is not two enemies: each ship takes a
      third of the collision damage. */
  method Ram(t: Trig, s1: Ship, s2: Ship)
    requires s1 != s2
    modifies s1, s2
    ensures (s1.View(), s2.View()) == Rammed(t, old(s1.View()), old(s2.View()))
  {
    var dmg := ComputeDamage(t, s1.View(), s2.View()) / 3.0;
    s1.ApplyDamage(dmg);
    s2.ApplyDamage(dmg);
  }

  /** A pair whose hulls meet: pushed apart and, unless both are enemies, rammed. */
  method BumpMeeting(t: Trig, s1: Ship, s2: Ship, bothEnemies: bool)
    requires s1 != s2
    modifies s1, s2
    ensures (s1.View(), s2.View()) == Bumped(t, old(s1.View()), old(s2.View()), true, bothEnemies)
  {
    BumpedMeeting(t, s1.View(), s2.View(), bothEnemies);
    PushApart(t, s1, s2);
    if !bothEnemies {
      Ram(t, s1, s2);
    }
  }

  /** One pair of `_handle_ship_collisions`: ships whose hulls meet are pushed apart and,
      unless both are enemies, each takes a third of the collision damage, computed after
      the push. */
  method BumpPair(t: Trig, s1: Ship, s2: Ship, bothEnemies: bool)
    requires s1 != s2
    modifies s1, s2
    ensures (s1.View(), s2.View()) ==
      Bumped(t, old(s1.View()), old(s2.View()), HullsMeet(t, old(s1.View()), old(s2.View())), bothEnemies)
  {
    if Collide(s1.Hitbox(t), s2.Hitbox(t)) {
      BumpMeeting(t, s1, s2, bothEnemies);
    }
  }

  /** Pair (i, j) of `_handle_ship_collisions`, on ships whose views are `ws`: the views
      `next` it leaves hand the list on to pair (i, j + 1). */
  method BumpStep(t: Trig, ships: seq<Ship>, nPlayers: nat, i: nat, j: nat, ghost ws: seq<ShipView>)
    returns (ghost next: seq<ShipView>)
    requires Distinct(ships) && i < j < |ships| && |ws| == |ships|
    requires forall k {:trigger Entry(k)} :: 0 <= k < |ships| && Entry(k) ==> ships[k].View() == ws[k]
    modifies ships
    ensures |next| == |ships|
    ensures CollidePairs(BumpRule(t), next, nPlayers, i, j + 1) == CollidePairs(BumpRule(t), ws, nPlayers, i, j)
    ensures forall k {:trigger Entry(k)} :: 0 <= k < |ships| && Entry(k) ==> ships[k].View() == next[k]
    ensures forall k {:trigger Entry(k)} :: 0 <= k < |ships| && Entry(k) ==>
      ships[k].projectiles == old(ships[k].projectiles)
  {
    assert Entry(i) && Entry(j);
    var both := i >= nPlayers && j >= nPlayers;
    ghost var meet := HullsMeet(t, ws[i], ws[j]);
    ghost var p := Bumped(t, ws[i], ws[j], meet, both);
    CollideStep(t, ws, nPlayers, i, j);
    BumpedMoves(t, ws[i], ws[j], meet, both);
    BumpPair(t, ships[i], ships[j], both);
    next := ws[i := p.0][j := p.1];
  }

  /** The inner loop of `_handle_ship_collisions` for ship i, on ships whose views are
      `vs`: the pairs (i, j) for every later j, leaving the views `ws` from which the
      pairs of ship i + 1 go on as the pairs of ship i would have. */
  method BumpRow(t: Trig, ships: seq<Ship>, nPlayers: nat, i: nat, ghost vs: seq<ShipView>)
    returns (ghost ws: seq<ShipView>)
    requires Distinct(ships) && i < |ships| && |vs| == |ships|
    requires forall k {:trigger Entry(k)} :: 0 <= k < |ships| && Entry(k) ==> ships[k].View() == vs[k]
    modifies ships
    ensures |ws| == |ships|
    ensures CollidePairs(BumpRule(t), ws, nPlayers, i + 1, i + 2) == CollidePairs(BumpRule(t), vs, nPlayers, i, i + 1)
    ensures forall k {:trigger Entry(k)} :: 0 <= k < |ships| && Entry(k) ==> ships[k].View() == ws[k]
    ensures forall k {:trigger Entry(k)} :: 0 <= k < |ships| && Entry(k) ==>
      ships[k].projectiles == old(ships[k].projectiles)
  {
    ws := vs;
    ghost var goal := CollidePairs(BumpRule(t), vs, nPlayers, i, i + 1);
    for j := i + 1 to |ships|
      invariant |ws| == |ships|
      invariant CollidePairs(BumpRule(t), ws, nPlayers, i, j) == goal
      invariant forall k {:trigger Entry(k)} :: 0 <= k < |ships| && Entry(k) ==> ships[k].View() == ws[k]
      invariant forall k {:trigger Entry(k)} :: 0 <= k < |ships| && Entry(k) ==>
        ships[k].projectiles == old(ships[k].projectiles)
    {
      ws := BumpStep(t, ships, nPlayers, i, j, ws);
    }
  }

  /** The loops of `_handle_ship_collisions` on ships whose views are `vs`, the first
      `nPlayers` of them player ships: every ship ends as `CollidePairs` says, holding the
      cannonballs it held. */
  method BumpAll(t: Trig, ships: seq<Ship>, nPlayers: nat, ghost vs: seq<ShipView>)
    requires Distinct(ships) && |vs| == |ships|
    requires forall k {:trigger Entry(k)} :: 0 <= k < |ships| && Entry(k) ==> ships[k].View() == vs[k]
    modifies ships
    ensures forall k {:trigger Entry(k)} :: 0 <= k < |ships| && Entry(k) ==>
      ships[k].View() == CollidePairs(BumpRule(t), vs, nPlayers, 0, 1)[k]
    ensures forall k {:trigger Entry(k)} :: 0 <= k < |ships| && Entry(k) ==>
      ships[k].projectiles == old(ships[k].projectiles)
  {
    ghost var ws := vs;
    for i := 0 to |ships|
      invariant |ws| == |ships|
      invariant CollidePairs(BumpRule(t), ws, nPlayers, i, i + 1) == CollidePairs(BumpRule(t), vs, nPlayers, 0, 1)
      invariant forall k {:trigger Entry(k)} :: 0 <= k < |ships| && Entry(k) ==> ships[k].View() == ws[k]
      invariant forall k {:trigger Entry(k)} :: 0 <= k < |ships| && Entry(k) ==>
        ships[k].projectiles == old(ships[k].projectiles)
    {
      ws := BumpRow(t, ships, nPlayers, i, ws);
    }
  }

  /** The loops of `_handle_ship_collisions` on a list of ships, the first `nPlayers` of
      them player ships: every ship ends as `CollidePairs` says, holding the cannonballs
      it held. */
  method BumpShips(t: Trig, ships: seq<Ship>, nPlayers: nat)
    requires Distinct(ships)
    modifies ships
    ensures ViewsOf(ships) == CollidePairs(BumpRule(t), old(ViewsOf(ships)), nPlayers, 0, 1)
    ensures forall k :: 0 <= k < |ships| ==> ships[k].projectiles == old(ships[k].projectiles)
  {
    BumpAll(t, ships, nPlayers, ViewsOf(ships));
    forall k | 0 <= k < |ships|
      ensures ships[k].View() == CollidePairs(BumpRule(t), old(ViewsOf(ships)), nPlayers, 0, 1)[k]
      ensures ships[k].projectiles == old(ships[k].projectiles)
    {
      assert Entry(k);
    }
  }

  /** The loops of `_handle_ship_collisions` on the ships of a game whose ships hold no
      cannonballs: every ship ends as the pairs of `CollidePairs` leave it, still holding
      none. */
  method BumpFleet(t: Trig, players: seq<Ship>, enemies: seq<EnemyShip>, balls: seq<Cannonball>)
    requires Arranged(players, enemies, balls, Aboard(players, enemies)) && Aboard(players, enemies) == []
    modifies players, HullsOf(enemies)
    ensures ViewsOf(FleetOf(players, enemies)) ==
      CollidePairs(BumpRule(t), old(ViewsOf(FleetOf(players, enemies))), |players|, 0, 1)
    ensures Aboard(players, enemies) == [] && Arranged(players, enemies, balls, Aboard(players, enemies))
  {
    var ships := FleetOf(players, enemies);
    var hulls := HullsOf(enemies);
    FleetDistinct(players, enemies, balls, []);
    BumpShips(t, ships, |players|);
    forall k | 0 <= k < |players| ensures players[k].projectiles == old(players[k].projectiles) {
      assert ships[k] == players[k];
    }
    HeldByKept(players);
    forall k | 0 <= k < |hulls| ensures hulls[k].projectiles == old(hulls[k].projectiles) {
      assert ships[|players| + k] == hulls[k];
    }
    HeldByKept(hulls);
  }

  /** Dropping the enemies no longer living keeps a game whose ships hold no cannonballs
      arranged, its ships still holding none. */
  lemma PurgeArranged(players: seq<Ship>, enemies: seq<EnemyShip>, balls: seq<Cannonball>)
    requires Arranged(players, enemies, balls, Aboard(players, enemies)) && Aboard(players, enemies) == []
    ensures Aboard(players, Living(enemies)) == []
    ensures Arranged(players, Living(enemies), balls, Aboard(players, Living(enemies)))
  {
    var hulls := HullsOf(enemies);
    var survivors := Living(enemies);
    var kept := HullsOf(survivors);
    HeldByEmpty(hulls);
    LivingCrew(enemies);
    forall k | 0 <= k < |survivors| ensures kept[k].projectiles == [] {
      var m :| 0 <= m < |enemies| && enemies[m] == survivors[k];
      assert hulls[m] == kept[k];
    }
    HeldByNone(kept);
  }

  // ---------------------------------------------------------------- spawning

  /** `_spawn_players(n)` on a `width` x `height` screen: more than six players is an
      error; otherwise one new ship per row of the spawn table, in table order. */
  method SpawnPlayers(n: int, width: nat, height: nat) returns (r: Outcome<seq<Ship>>)
    ensures r.Failure? <==> SpawnPlan(n, width, height).Failure?
    ensures r.Success? ==> |r.value| == |SpawnPlan(n, width, height).value| && Distinct(r.value)
    ensures r.Success? ==> forall k :: 0 <= k < |r.value| ==>
      var p := SpawnPlan(n, width, height).value[k];
      fresh(r.value[k]) && r.value[k].View() == Launched(p.x, p.y, p.angle, p.team)
  {
    if n > 6 {
      return Failure("Number of players must be less than 6.");
    }
    var info := SpawnInfo(width, height);
    var count := if n <= 0 then 0 else n;
    var ships: seq<Ship> := [];
    for i := 0 to count
      invariant |ships| == i && Distinct(ships)
      invariant forall k :: 0 <= k < i ==>
        fresh(ships[k]) && ships[k].View() == Launched(info[k].x, info[k].y, info[k].angle, info[k].team)
    {
      var p := info[i];
      var ship := new Ship(p.x, p.y, p.angle, p.team);
      ships := ships + [ship];
    }
    return Success(ships);
  }

  /** `enemies.append(EnemyShip(x, y))`: a new enemy, with a new ship part, joins the list. */
  method Recruit(x: real, y: real, enemies: seq<EnemyShip>) returns (more: seq<EnemyShip>)
    requires Crew(enemies)
    ensures |more| == |enemies| + 1 && more[..|enemies|] == enemies
    ensures fresh(more[|enemies|]) && fresh(more[|enemies|].hull)
    ensures more[|enemies|].View() ==
      Recruited(x, y, DefaultAgroRadius, DefaultPreferredDistance, DefaultPatrolRadius)
    ensures Crew(more)
  {
    var enemy := new EnemyShip(x, y);
    more := enemies + [enemy];
    assert more[..|enemies|] == enemies;
  }

  /** `_spawn_enemies(n, min_distance)` with the random spots drawn from `draws` in turn:
      a spot closer than `min_distance` to a player position or to an enemy already
      placed is drawn again, and each accepted spot gets a new enemy.  The enemies stand
      where `Placements` says. */
  method SpawnEnemies(t: Trig, n: nat, minDistance: real, players: seq<(real, real)>, draws: seq<(int, int)>)
    returns (enemies: seq<EnemyShip>)
    ensures var spots := Placements(t, draws, players, [], n, minDistance);
      && |enemies| == |spots|
      && forall k :: 0 <= k < |enemies| ==>
        enemies[k].View() == Recruited(spots[k].0, spots[k].1, DefaultAgroRadius, DefaultPreferredDistance, DefaultPatrolRadius)
    ensures forall k :: 0 <= k < |enemies| ==> fresh(enemies[k]) && fresh(enemies[k].hull)
    ensures Crew(enemies)
  {
    enemies := [];
    var spots: seq<(real, real)> := [];
    var d := 0;
    while |enemies| < n && d < |draws|
      invariant d <= |draws| && |spots| == |enemies| <= n
      invariant Placements(t, draws[d..], players, spots, n, minDistance) == Placements(t, draws, players, [], n, minDistance)
      invariant forall k :: 0 <= k < |enemies| ==>
        enemies[k].View() == Recruited(spots[k].0, spots[k].1, DefaultAgroRadius, DefaultPreferredDistance, DefaultPatrolRadius)
      invariant forall k :: 0 <= k < |enemies| ==> fresh(enemies[k]) && fresh(enemies[k].hull)
      invariant Crew(enemies)
      decreases |draws| - d
    {
      var x, y := draws[d].0 as real, draws[d].1 as real;
      assert draws[d..][1..] == draws[d + 1..];
      d := d + 1;
      if GameRules.TooClose(t, x, y, players, minDistance) || GameRules.TooClose(t, x, y, spots, minDistance) {
        continue;
      }
      enemies := Recruit(x, y, enemies);
      spots := spots + [(x, y)];
    }
  }

  /** `[(p.x, p.y) for p in ships]`. */
  function PositionsOf(ships: seq<Ship>): (r: seq<(real, real)>)
    reads ships
    ensures |r| == |ships|
    ensures forall k :: 0 <= k < |ships| ==> r[k] == (ships[k].x, ships[k].y)
  {
    seq(|ships|, k requires 0 <= k < |ships| reads ships => (ships[k].x, ships[k].y))
  }

  /** The ships of a new game: `_spawn_players`, then `_spawn_enemies` away from the
      player positions; every ship is new and holds no cannonball. */
  method Muster(t: Trig, width: nat, height: nat, draws: seq<(int, int)>,
                nPlayers: nat, nEnemies: nat, minDistance: real)
    returns (players: seq<Ship>, enemies: seq<EnemyShip>)
    requires nPlayers <= 6
    ensures var plan := SpawnInfo(width, height);
      && |players| == nPlayers
      && forall k :: 0 <= k < nPlayers ==>
        players[k].View() == Launched(plan[k].x, plan[k].y, plan[k].angle, plan[k].team)
    ensures var spots := Placements(t, draws, Spots(SpawnInfo(width, height)[..nPlayers]), [], nEnemies, minDistance);
      && |enemies| == |spots|
      && forall k :: 0 <= k < |enemies| ==>
        enemies[k].View() == Recruited(spots[k].0, spots[k].1, DefaultAgroRadius, DefaultPreferredDistance, DefaultPatrolRadius)
    ensures forall k :: 0 <= k < |players| ==> fresh(players[k])
    ensures forall k :: 0 <= k < |enemies| ==> fresh(enemies[k]) && fresh(enemies[k].hull)
    ensures Aboard(players, enemies) == [] && Arranged(players, enemies, [], Aboard(players, enemies))
  {
    var spawned := SpawnPlayers(nPlayers, width, height);
    players := spawned.value;
    assert PositionsOf(players) == Spots(SpawnInfo(width, height)[..nPlayers]);
    enemies := SpawnEnemies(t, nEnemies, minDistance, PositionsOf(players), draws);
    HeldByNone(players);
    HeldByNone(HullsOf(enemies));
  }

  // ---------------------------------------------------------------- the game

  class Game {
    var state: State
    const playerShips: seq<Ship>
    var enemyShips: seq<EnemyShip>
    var projectiles: seq<Cannonball>
    var impacts: seq<Impact>

    /** `Game(n_players, n_enemies, min_distance)` on a `width` x `height` screen, with the
        enemies' random spots drawn from `draws`: the player ships of the spawn table, the
        enemies where `Placements` puts them away from the players, nothing in flight and
        the match in play. */
    constructor (t: Trig, width: nat, height: nat, draws: seq<(int, int)>,
                 nPlayers: nat := 4, nEnemies: nat := 3, minDistance: real := 300.0)
      requires nPlayers <= 6
      ensures state == Playing && projectiles == [] && impacts == []
      ensures var plan := SpawnInfo(width, height);
        && |playerShips| == nPlayers
        && forall k :: 0 <= k < nPlayers ==>
          playerShips[k].View() == Launched(plan[k].x, plan[k].y, plan[k].angle, plan[k].team)
      ensures var spots := Placements(t, draws, Spots(SpawnInfo(width, height)[..nPlayers]), [], nEnemies, minDistance);
        && |enemyShips| == |spots|
        && forall k :: 0 <= k < |enemyShips| ==>
          enemyShips[k].View() == Recruited(spots[k].0, spots[k].1, DefaultAgroRadius, DefaultPreferredDistance, DefaultPatrolRadius)
      ensures Aboard(playerShips, enemyShips) == [] && Valid()
    {
      var players, enemies := Muster(t, width, height, draws, nPlayers, nEnemies, minDistance);
      state := Playing;
      playerShips := players;
      enemyShips := enemies;
      projectiles := [];
      impacts := [];
    }

    /** No ship and no cannonball is listed twice and no player ship is part of an enemy,
        so updating one object never changes another entry. */
    ghost predicate Valid()
      reads this, playerShips, HullsOf(enemyShips)
    {
      Arranged(playerShips, enemyShips, projectiles, Aboard(playerShips, enemyShips))
    }

    /** Stores the lists of cannonballs in flight and of impacts a phase has built. */
    method Record(balls: seq<Cannonball>, imps: seq<Impact>)
      modifies this
      ensures projectiles == balls && impacts == imps
      ensures enemyShips == old(enemyShips) && state == old(state)
    {
      projectiles, impacts := balls, imps;
    }

    /** Step 1: `ship.update()` for every player ship. */
    method MovePlayers(t: Trig)
      requires Valid()
      modifies playerShips
      ensures forall k :: 0 <= k < |playerShips| ==>
        playerShips[k].View() == Moved(t, old(playerShips[k].View()))
      ensures Aboard(playerShips, enemyShips) == old(Aboard(playerShips, enemyShips)) && Valid()
    {
      HullsApart(playerShips, enemyShips, projectiles, Aboard(playerShips, enemyShips));
      MoveAll(t, playerShips);
      HeldByKept(playerShips);
      forall k | 0 <= k < |enemyShips| ensures HullsOf(enemyShips)[k].projectiles == old(HullsOf(enemyShips)[k].projectiles) {
        assert HullsOf(enemyShips)[k] !in playerShips;
      }
      HeldByKept(HullsOf(enemyShips));
    }

    /** Step 2: every enemy steers toward the nearest player ship, found among the player
        positions after step 1; an enemy with no player ship to chase is an error. */
    method MoveEnemies(t: Trig, jitters: seq<real>)
      requires Valid()
      requires |jitters| == |enemyShips| && (|enemyShips| > 0 ==> |playerShips| > 0)
      modifies enemyShips, HullsOf(enemyShips)
      ensures |enemyShips| > 0 ==>
        EnemyViewsOf(enemyShips) == Turns(t, ViewsOf(playerShips), old(EnemyViewsOf(enemyShips)), jitters)
      ensures Aboard(playerShips, enemyShips) == old(Aboard(playerShips, enemyShips)) && Valid()
    {
      ghost var players := ViewsOf(playerShips);
      HullsApart(playerShips, enemyShips, projectiles, Aboard(playerShips, enemyShips));
      SteerAll(t, enemyShips, playerShips, jitters);
      forall k | 0 <= k < |playerShips| ensures playerShips[k].View() == players[k] {
        assert playerShips[k] !in HullsOf(enemyShips);
      }
      assert ViewsOf(playerShips) == players;
    }

    /** Step 3, first part: the cannonballs every ship holds join the game's list, those
        of the player ships first, and every ship's own list is emptied. */
    method Drain()
      requires Valid()
      modifies this, playerShips, HullsOf(enemyShips)
      ensures enemyShips == old(enemyShips)
      ensures impacts == old(impacts) && state == old(state)
      ensures projectiles == old(projectiles + Aboard(playerShips, enemyShips))
      ensures forall k :: 0 <= k < |playerShips| ==>
        playerShips[k].View() == old(playerShips[k].View()).(projectiles := [])
      ensures forall k :: 0 <= k < |enemyShips| ==>
        enemyShips[k].hull.View() == old(enemyShips[k].hull.View()).(projectiles := [])
      ensures Aboard(playerShips, enemyShips) == [] && Valid()
    {
      var balls := DrainFleet(playerShips, enemyShips, projectiles);
      Record(balls, impacts);
    }

    /** Step 3, second part: every cannonball moves one step; those beyond their range
        leave the list and are recorded as `'miss'` impacts, the rest stay in order. */
    method StepProjectiles(t: Trig)
      requires Valid() && Aboard(playerShips, enemyShips) == []
      modifies this, projectiles
      ensures enemyShips == old(enemyShips) && state == old(state)
      ensures forall k :: 0 <= k < |old(projectiles)| ==>
        old(projectiles)[k].View() == Stepped(t, old(projectiles[k].View()))
      ensures projectiles == Kept(t, old(projectiles), old(BallViewsOf(projectiles)))
      ensures impacts == old(impacts) + Misses(t, old(projectiles), old(BallViewsOf(projectiles)))
      ensures Aboard(playerShips, enemyShips) == [] && Valid()
    {
      var kept, misses := StepFlight(t, playerShips, enemyShips, projectiles);
      Record(kept, impacts + misses);
    }

    /** `_handle_projectile_hits` with the hit test `collide`, which must be blind to damage
        (the engine's is, by `HitTestBlind`): every ship is struck by every cannonball that
        meets it, each meeting is a `'hit'` impact, and the balls that met some ship leave
        the list. */
    method HandleProjectileHits(collide: BallTest)
      requires Valid() && Aboard(playerShips, enemyShips) == []
      requires BlindTo(collide, ViewsOf(FleetOf(playerShips, enemyShips)))
      modifies this, playerShips, HullsOf(enemyShips)
      ensures enemyShips == old(enemyShips) && state == old(state)
      ensures var hits := HitList(collide, old(projectiles), old(BallViewsOf(projectiles)),
                                  old(ViewsOf(FleetOf(playerShips, enemyShips))));
        projectiles == Without(old(projectiles), hits) && impacts == old(impacts) + Tagged(hits, Hit)
      ensures ViewsOf(FleetOf(playerShips, enemyShips)) ==
        StruckAll(collide, old(ViewsOf(FleetOf(playerShips, enemyShips))), old(BallViewsOf(projectiles)))
      ensures Aboard(playerShips, enemyShips) == [] && Valid()
    {
      var collisions := StrikeFleet(collide, playerShips, enemyShips, projectiles);
      Record(Without(projectiles, collisions), impacts + Tagged(collisions, Hit));
    }

    /** `_handle_ship_collisions`, the loops: every pair of ships, player ships first, is
        tested and bumped in the order of the two loops. */
    method HandleShipCollisions(t: Trig)
      requires Valid() && Aboard(playerShips, enemyShips) == []
      modifies playerShips, HullsOf(enemyShips)
      ensures ViewsOf(FleetOf(playerShips, enemyShips)) ==
        CollidePairs(BumpRule(t), old(ViewsOf(FleetOf(playerShips, enemyShips))), |playerShips|, 0, 1)
      ensures Aboard(playerShips, enemyShips) == [] && Valid()
    {
      BumpFleet(t, playerShips, enemyShips, projectiles);
    }

    /** `_handle_ship_collisions`, the clean-up: the enemies no longer living leave the
        list, the others keep their order. */
    method PurgeEnemies()
      requires Valid() && Aboard(playerShips, enemyShips) == []
      modifies this
      ensures enemyShips == Living(old(enemyShips)) && AllLiving(ViewsOf(HullsOf(enemyShips)))
      ensures projectiles == old(projectiles) && impacts == old(impacts) && state == old(state)
      ensures Aboard(playerShips, enemyShips) == [] && Valid()
    {
      PurgeArranged(playerShips, enemyShips, projectiles);
      enemyShips := Living(enemyShips);
    }

    /** `_check_end_conditions`: the match state the ships' fates call for. */
    method CheckEndConditions()
      requires Valid()
      modifies this
      ensures state == EndState(ViewsOf(playerShips), ViewsOf(HullsOf(enemyShips)))
      ensures ViewsOf(HullsOf(enemyShips)) == old(ViewsOf(HullsOf(enemyShips)))
      ensures enemyShips == old(enemyShips) && projectiles == old(projectiles) && impacts == old(impacts)
      ensures Aboard(playerShips, enemyShips) == old(Aboard(playerShips, enemyShips)) && Valid()
    {
      state := EndState(ViewsOf(playerShips), ViewsOf(HullsOf(enemyShips)));
      ViewsKept(playerShips);
      ViewsKept(HullsOf(enemyShips));
    }

    /** Steps 1 and 2 of `update`: the player ships move, then the enemies steer. */
    method Advance(t: Trig, jitters: seq<real>)
      requires Valid()
      requires |jitters| == |enemyShips| && (|enemyShips| > 0 ==> |playerShips| > 0)
      modifies playerShips, enemyShips, HullsOf(enemyShips)
      ensures Aboard(playerShips, enemyShips) == old(Aboard(playerShips, enemyShips)) && Valid()
    {
      MovePlayers(t);
      MoveEnemies(t, jitters);
    }

    /** Step 3 of `update`: the cannonballs the ships hold join the flight and every
        ball steps. */
    method Fly(t: Trig)
      requires Valid()
      modifies this, playerShips, HullsOf(enemyShips), projectiles, Aboard(playerShips, enemyShips)
      ensures enemyShips == old(enemyShips) && state == old(state)
      ensures old(impacts) <= impacts
      ensures Aboard(playerShips, enemyShips) == [] && Valid()
    {
      Drain();
      StepProjectiles(t);
    }

    /** The ship collisions, the purge of sunk enemies and the end check that close a
        tick of `update`. */
    method Settle(t: Trig)
      requires Valid() && Aboard(playerShips, enemyShips) == []
      modifies this, playerShips, HullsOf(enemyShips)
      ensures state == EndState(ViewsOf(playerShips), ViewsOf(HullsOf(enemyShips)))
      ensures AllLiving(ViewsOf(HullsOf(enemyShips)))
      ensures projectiles == old(projectiles) && impacts == old(impacts)
      ensures Aboard(playerShips, enemyShips) == [] && Valid()
    {
      HandleShipCollisions(t);
      PurgeEnemies();
      CheckEndConditions();
    }

    /** Steps 4 and 5 of `update`: the cannonball hits with the engine's test `collide`,
        then the ship collisions, the purge and the end check. */
    method Conclude(t: Trig)
      requires Valid() && Aboard(playerShips, enemyShips) == []
      modifies this, playerShips, HullsOf(enemyShips)
      ensures state == EndState(ViewsOf(playerShips), ViewsOf(HullsOf(enemyShips)))
      ensures AllLiving(ViewsOf(HullsOf(enemyShips)))
      ensures var hits := HitList(HitTest(t), old(projectiles), old(BallViewsOf(projectiles)),
                                  old(ViewsOf(FleetOf(playerShips, enemyShips))));
        projectiles == Without(old(projectiles), hits) && impacts == old(impacts) + Tagged(hits, Hit)
      ensures Aboard(playerShips, enemyShips) == [] && Valid()
    {
      HitTestBlind(t, ViewsOf(FleetOf(playerShips, enemyShips)));
      HandleProjectileHits(HitTest(t));
      Settle(t);
    }

    /** One tick of `update`, with the enemies' patrol draws `jitters` and the trigonometry
        `t`: nothing happens once the match is decided; otherwise the phases run in order
        and the match state is recomputed from the ships that remain. */
    method Update(t: Trig, jitters: seq<real>)
      requires Valid()
      requires |jitters| == |enemyShips| && (|enemyShips| > 0 ==> |playerShips| > 0)
      modifies this, playerShips, enemyShips, HullsOf(enemyShips), projectiles, Aboard(playerShips, enemyShips)
      ensures old(state) != Playing ==> unchanged(this) && unchanged(playerShips) && unchanged(HullsOf(enemyShips))
      ensures old(state) != Playing ==> unchanged(enemyShips) && unchanged(projectiles)
      ensures old(state) != Playing ==>
        && Aboard(playerShips, enemyShips) == old(Aboard(playerShips, enemyShips))
        && BallViewsOf(Aboard(playerShips, enemyShips)) == old(BallViewsOf(Aboard(playerShips, enemyShips)))
      ensures old(state) == Playing ==> state == EndState(ViewsOf(playerShips), ViewsOf(HullsOf(enemyShips)))
      ensures old(state) == Playing ==> Aboard(playerShips, enemyShips) == []
      ensures old(state) == Playing ==> AllLiving(ViewsOf(HullsOf(enemyShips)))
      ensures old(impacts) <= impacts
      ensures Valid()
    {
      if state != Playing {
        return;
      }
      Advance(t, jitters);
      Fly(t);
      Conclude(t);
    }
  }
}
