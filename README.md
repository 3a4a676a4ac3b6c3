# PyRate engine in Dafny

PyRate is a tick-driven naval combat game. Player ships (two teams, A and B) and computer-driven
enemy ships sail on a rectangular screen, fire cannonballs from left and right cannons, ram
each other, and sink when their health runs out. This project models the simulation engine of
the repository and proves what its operations promise:

- the `Game` object and its tick `update`: ship physics, enemy steering toward the nearest
  player, gathering and stepping the cannonballs, cannonball hits, ship-to-ship collisions,
  the purge of sunk enemies and the four-valued match state;
- the spawning of players from a fixed table and of enemies by rejection sampling;
- the Separating Axis Theorem tests `collide` and `sat_mtv`, and the helpers `distance`,
  `normalize` and `compute_damage`;
- the entity classes: `Ship`, `EnemyShip`, `Cannonball`, `Entity`, `Island`, `Bonus`;
- the older `Ship`, `EnemyShip` and `Cannonball` of `pyrate/engine/`.

Layout, one module per file:

| file | module | models |
|---|---|---|
| numeric.dfy | `Numeric` | `min`, `max`, `abs`, Python's float `% 360`, the math functions as a `Trig` parameter |
| geometry.dfy | `Geometry` | points, hitbox polygons, `distance`, `normalize` |
| sat.dfy | `Sat` | `collide` and `sat_mtv` |
| entity.dfy | `Entities` | `entities/entity.py` |
| island.dfy, bonus.dfy | `Islands`, `Bonuses` | `entities/island.py`, `entities/bonus.py` |
| projectile.dfy | `Projectiles` | `entities/projectile.py` |
| ship.dfy | `Ships` | `entities/ship.py` |
| enemy.dfy | `Enemies` | `entities/enemy.py` |
| game_rules.dfy | `GameRules` | the rules of `game.py` as functions on values |
| game.dfy | `Games` | the `Game` class of `game.py`, phase by phase |
| legacy_ship.dfy, legacy_enemy.dfy, legacy_projectile.dfy | `LegacyShips`, `LegacyEnemies`, `LegacyProjectiles` | `ship.py`, `enemy.py`, `projectile.py` of `pyrate/engine/` |

Every class whose fields the engine updates in place is a Dafny `class`. Each such class
has a `View()` function giving all of its fields as a datatype value. Each method is
proved against a function on those views: `Ship.Update` against `Moved`, `Ship.Fire` against
`Shot` and `Reloaded`, `Game.HandleShipCollisions` against `CollidePairs`, and so on. The
properties the engine promises are then proved about those functions as lemmas.

The `Game` holds its player ships, enemy ships, cannonballs in flight and impacts. Its
invariant `Valid()` says that no ship and no cannonball is listed twice, and that no player
ship is the ship part of an enemy. This is what lets each phase update one object without
changing another entry.

Python floats are `real`. The functions of Python's `math` module (`cos`, `sin`, `atan2`,
`hypot`) are fields of a `Trig` value passed to every operation that needs them. The few
facts the proofs need are gathered in `Trig.Sound()`: cos² + sin² = 1, |sin| ≤ 1, and that
`Sqrt` is the non-negative square root. Python's float `x % 360` is `x - 360 * floor(x / 360)`.

Where the code does not run as written, the model follows its evident intent:

- `game.py:147` builds `Ship(x, y, angle, team)`, but `Ship.__init__` takes only `(x, y)`.
  Here the constructor takes the heading and team as optional arguments, and the ship
  carries the `team` that `_check_end_conditions` reads.
- `game.py:97` passes a fourth argument, the enemy list, to `EnemyShip.update`, which takes
  three. The model drops it.

## Model

| member | source | states |
|---|---|---|
| Numeric.Mod360 | pyrate/engine/entities/ship.py:96 | Python's float `% 360` lies in [0, 360) and differs from its argument by a whole number of turns |
| Numeric.WrapDegrees | pyrate/engine/entities/enemy.py:59 | `(d + 180) % 360 - 180` lies in [-180, 180) |
| Numeric.Mod360Periodic | pyrate/engine/entities/ship.py:96 | adding whole turns does not change `% 360` |
| Numeric.WrapDegreesNegate | pyrate/engine/game.py:292 | the wrapped heading difference has the same magnitude in either order |
| Geometry.Distance | pyrate/engine/game.py:53-54 | `distance` is non-negative, its square is the sum of the squared coordinate differences, and it is zero exactly for the same point |
| Geometry.Normalize | pyrate/engine/game.py:57-59 | `normalize` of the zero vector is (0, 0) |
| Geometry.NormalizeMeans | pyrate/engine/game.py:57-59 | `normalize` keeps the direction, and for a non-zero vector returns a unit vector pointing the same way |
| Geometry.Square | pyrate/engine/entities/island.py:10-15 | an axis-aligned square has 4 vertices in the entities' order, centred on (cx, cy), with sides of twice the half-side |
| Geometry.RotatedRect | pyrate/engine/entities/ship.py:51-69 | a rotated rectangle has 4 vertices, opposite corners symmetric about the centre, and without rotation it gives the listed corners |
| Geometry.RotatedRectSides | pyrate/engine/entities/ship.py:51-69 | rotation keeps the side lengths of the rectangle |
| Sat.SeqMinIsMinimum | pyrate/engine/game.py:37-38 | `min` of a non-empty list is an element and no element is smaller |
| Sat.SeqMaxIsMaximum | pyrate/engine/game.py:37-38 | `max` of a non-empty list is an element and no element is larger |
| Sat.ProjectAt | pyrate/engine/game.py:35-36 | the projection list holds the dot product of the axis with each vertex |
| Sat.NextIndex | pyrate/engine/game.py:23 | `(i + 1) % len(points)` is a vertex index, and 0 exactly after the last vertex |
| Sat.NoSeparatingEdgeFromMeans | pyrate/engine/game.py:272-281 | the loop of `collide` from edge k on finds no separating edge normal exactly when none exists |
| Sat.CollideMeans | pyrate/engine/game.py:269-282 | `collide` holds exactly when no edge normal of either polygon separates their projections |
| Sat.CollideSymmetric | pyrate/engine/game.py:269-282 | `collide(a, b) == collide(b, a)` |
| Sat.CollideSelf | pyrate/engine/game.py:280 | touching intervals do not separate, so a hitbox always collides with itself |
| Sat.UnitEdgeAxisMeans | pyrate/engine/game.py:29-32 | an edge gives an axis exactly when it has non-zero length, and that axis is a unit vector |
| Sat.UnitAxesFromAreUnit | pyrate/engine/game.py:20-32 | every axis `sat_mtv` tries is a unit vector |
| Sat.OverlapsMean | pyrate/engine/game.py:34-41 | the overlaps are `min(max1, max2) - max(min1, min2)` axis by axis |
| Sat.MtvScanSeparated | pyrate/engine/game.py:40-43 | the scan returns `None` exactly when some remaining axis has no positive overlap |
| Sat.MtvScanNoAxis | pyrate/engine/game.py:17-18 | the scan ends with no axis exactly when nothing was scanned and no candidate was found |
| Sat.MtvScanPush | pyrate/engine/game.py:44-50 | a push is the first smallest positive overlap, counting the candidate carried in |
| Sat.MtvSeparated | pyrate/engine/game.py:20-50 | `sat_mtv` returns `None` exactly when some tried axis has overlap ≤ 0 |
| Sat.MtvNoAxis | pyrate/engine/game.py:17-50 | `sat_mtv` returns its (NaN) infinite-overlap vector exactly when every edge of both polygons has length zero |
| Sat.MtvPush | pyrate/engine/game.py:44-50 | a push is along the first tried axis of smallest overlap, by that overlap, which is positive |
| Sat.ScanEdges | pyrate/engine/game.py:21-47 | the inner loop over one polygon's edges either returns `None` or hands the best candidate on, as the scan over its axes says |
| Sat.SatMtv | pyrate/engine/game.py:12-50 | `sat_mtv(poly1, poly2)` returns what the scan over all axes of poly1 then poly2 returns |
| Entities.Destroyed | pyrate/engine/entities/entity.py:14-15 | `on_destroy` clears the alive flag and changes no other field |
| Entities.DestroyedIdempotent | pyrate/engine/entities/entity.py:14-15 | destroying twice is destroying once |
| Entities.Entity.constructor | pyrate/engine/entities/entity.py:6-12 | a new entity stores x, y and the name (default `"Entity"`), with speed 0, damage coefficient 1 and alive |
| Entities.Entity.OnDestroy | pyrate/engine/entities/entity.py:14-15 | the entity's new state is the destroyed view of its old state |
| Islands.Island.Hitbox | pyrate/engine/entities/island.py:8-15 | the hitbox is the square of half-side 0.7 × radius centred on the island, vertices in order |
| Islands.NewIsland | pyrate/engine/entities/island.py:3-6 | a new island stores its position and radius (default 60) |
| Islands.DefaultIslandHitbox | pyrate/engine/entities/island.py:3-15 | a default island's hitbox is the square of half-side 42 listed bottom-left first |
| Bonuses.Bonus.Hitbox | pyrate/engine/entities/bonus.py:19-25 | the hitbox is the square of half-side `radius` centred on the bonus, vertices in order |
| Bonuses.NewBonus | pyrate/engine/entities/bonus.py:4-9 | a new bonus keeps its type as given (default `"health"`), has radius 20 and is not collected |
| Bonuses.NewBonusHitbox | pyrate/engine/entities/bonus.py:19-25 | a new bonus's hitbox is the square of half-side 20 listed bottom-left first |
| Projectiles.CannonballView.Travelled | pyrate/engine/entities/projectile.py:23-25 | the distance from the start point is non-negative and its square is the squared displacement |
| Projectiles.CannonballView.Hitbox | pyrate/engine/entities/projectile.py:28-34 | the hitbox is the axis-aligned square of half-side `radius` centred on the ball |
| Projectiles.Spawned | pyrate/engine/entities/projectile.py:7-15 | a new ball starts at its spawn point, which is recorded as its start, with radius 5 and damage 30 |
| Projectiles.Stepped | pyrate/engine/entities/projectile.py:17-20 | an update moves the ball by `speed` along its heading and changes nothing else (start, angle, speed, damage) |
| Projectiles.SteppedTimesPosition | pyrate/engine/entities/projectile.py:17-20 | n updates add n velocity steps to the position and change nothing else |
| Projectiles.SquaredTravelAfter | pyrate/engine/entities/projectile.py:17-25 | on a unit heading, after n updates the squared distance from the start is the square of n steps |
| Projectiles.DistanceAfter | pyrate/engine/entities/projectile.py:17-25 | after n updates a ball is exactly n × speed from its start |
| Projectiles.DefaultRangeExceeded | pyrate/engine/entities/projectile.py:7-25 | with speed 8 and range 600 the ball is out of range exactly after more than 75 updates |
| Projectiles.ExceededRangeSquared | pyrate/engine/entities/projectile.py:22-25 | the strict range test is the comparison of squared distances |
| Projectiles.NotExceededAtSpawn | pyrate/engine/entities/projectile.py:22-25 | a ball is never out of range where it was fired |
| Projectiles.Cannonball.constructor | pyrate/engine/entities/projectile.py:7-15 | a new ball has the spawned view |
| Projectiles.Cannonball.Update | pyrate/engine/entities/projectile.py:17-20 | `update` leaves the ball in the stepped view of its old state |
| Projectiles.Cannonball.HasExceededRange | pyrate/engine/entities/projectile.py:22-25 | the answer is the strict range test on the ball's current view |
| Projectiles.Cannonball.ApplyDamage | pyrate/engine/entities/projectile.py:37-38 | a cannonball's `apply_damage` changes nothing |
| Ships.ShipView.Hitbox | pyrate/engine/entities/ship.py:46-69 | the hitbox has 4 vertices, opposite corners symmetric about the ship's centre |
| Ships.Launched | pyrate/engine/entities/ship.py:10-30 | a new ship is at rest, with full health, living, alive, both cannon timers at 0 and no cannonballs, and is valid |
| Ships.AfterFriction | pyrate/engine/entities/ship.py:34-38 | friction moves a non-zero speed toward zero by exactly 0.05, leaves zero alone, and keeps the speed range |
| Ships.Moved | pyrate/engine/entities/ship.py:33-43 | `update` applies friction, then moves by the new speed along the heading; heading and health are untouched |
| Ships.MovedByItsSpeed | pyrate/engine/entities/ship.py:40-43 | the displacement of `update` has the length of the new speed |
| Ships.Accelerated | pyrate/engine/entities/ship.py:72-73 | `accelerate` adds 0.2 up to top speed 2, changes only the speed, and keeps a valid speed in [0, 2] |
| Ships.Decelerated | pyrate/engine/entities/ship.py:76-77 | `decelerate` removes 0.2 down to 0, changes only the speed, and never makes it negative |
| Ships.DecelerateUndoesAccelerate | pyrate/engine/entities/ship.py:72-77 | below the top step, decelerating undoes an acceleration |
| Ships.AccelerateUndoesDecelerate | pyrate/engine/entities/ship.py:72-77 | above the bottom step, accelerating undoes a deceleration |
| Ships.AccelerationSaturates | pyrate/engine/entities/ship.py:72-73 | n accelerations add n steps of 0.2 until the speed saturates at 2 |
| Ships.TopSpeedFromRest | pyrate/engine/entities/ship.py:16-17 | from rest, ten accelerations or more reach top speed |
| Ships.Turned | pyrate/engine/entities/ship.py:80-85 | a turn changes only the heading, by exactly the turn step, whatever the speed |
| Ships.TurnsCancel | pyrate/engine/entities/ship.py:80-85 | a left turn and a right turn cancel out |
| Ships.CannonOffset | pyrate/engine/entities/ship.py:95 | the cannon offset is +90 on the right and -90 on the left |
| Ships.CannonAngle | pyrate/engine/entities/ship.py:95-96 | a shot's heading lies in [0, 360) and is the heading plus the offset up to whole turns |
| Ships.CannonsOpposite | pyrate/engine/entities/ship.py:95-96 | the two cannons point in opposite directions |
| Ships.Shot | pyrate/engine/entities/ship.py:95-102 | a shot is a new ball 20 units out along the cannon heading, flying that way with speed 8 and range 600 |
| Ships.ShotAtMuzzle | pyrate/engine/entities/ship.py:99-100 | a shot starts exactly 20 units from the ship's centre |
| Ships.Reloaded | pyrate/engine/entities/ship.py:93 | firing restarts that cannon's timer and leaves the other cannon's timer and every other field alone |
| Ships.CooldownPerSide | pyrate/engine/entities/ship.py:88-93 | after a shot the same cannon is ready again exactly 4 seconds later, and the other cannon's readiness is unaffected |
| Ships.Damaged | pyrate/engine/entities/ship.py:104-108 | health drops by the amount but not below 0; at 0 the ship stops living; nothing revives it |
| Ships.DamagedValid | pyrate/engine/entities/ship.py:104-108 | non-negative damage keeps health in [0, 100], never raises it, and leaves the ship living exactly when the damage is below its health |
| Ships.DamageAdds | pyrate/engine/entities/ship.py:104-108 | two hits do what one hit of their sum does |
| Ships.HitboxSides | pyrate/engine/entities/ship.py:46-69 | the hitbox sides have the ship's width 50 and height 20 |
| Ships.Ship.Hitbox | pyrate/engine/entities/ship.py:46-69 | `get_hitbox` reads the ship, changes nothing, and is the hitbox of its view |
| Ships.Ship.constructor | pyrate/engine/entities/ship.py:10-30 | a new ship has the launched view at its position, heading and team |
| Ships.Ship.Update | pyrate/engine/entities/ship.py:33-43 | `update` leaves the ship in the moved view of its old state |
| Ships.Ship.Accelerate | pyrate/engine/entities/ship.py:72-73 | `accelerate` leaves the ship in the accelerated view of its old state |
| Ships.Ship.Decelerate | pyrate/engine/entities/ship.py:76-77 | `decelerate` leaves the ship in the decelerated view of its old state |
| Ships.Ship.TurnLeft | pyrate/engine/entities/ship.py:80-81 | `turn_left` turns the heading by exactly -3 |
| Ships.Ship.TurnRight | pyrate/engine/entities/ship.py:84-85 | `turn_right` turns the heading by exactly +3 |
| Ships.Ship.Fire | pyrate/engine/entities/ship.py:88-102 | the side defaults to left; during the cooldown nothing changes; otherwise that cannon's timer restarts and exactly one new ball, the shot, is appended |
| Ships.Ship.ApplyDamage | pyrate/engine/entities/ship.py:104-108 | `apply_damage` leaves the ship in the damaged view of its old state |
| Enemies.SmoothAngle | pyrate/engine/entities/enemy.py:58-60 | `_smooth_angle` turns a fifth of the wrapped difference, so less than 36 degrees either way |
| Enemies.SmoothAngleFixedPoint | pyrate/engine/entities/enemy.py:58-60 | a target equal to the heading up to whole turns leaves the heading unchanged |
| Enemies.SmoothAngleConverges | pyrate/engine/entities/enemy.py:58-60 | each call leaves 0.8 of the wrapped difference still to turn |
| Enemies.BandOf | pyrate/engine/entities/enemy.py:28-33 | the three distance bands, beyond preferred + 20, within preferred - 20 and between, each exactly as its test says |
| Enemies.PursuitHeading | pyrate/engine/entities/enemy.py:28-33 | the target heading is bearing + 30 when too far, bearing - 150 when too close, player angle + 90 in the band |
| Enemies.Recruited | pyrate/engine/entities/enemy.py:6-15 | a new enemy is a launched ship named `"Enemy ship"`, anchored where it spawned, at time 0, with the given radii |
| Enemies.Steered | pyrate/engine/entities/enemy.py:17-52 | pursuit iff the player is strictly inside the agro radius: smooth toward the band heading and accelerate; otherwise jitter, steer home only beyond the patrol radius, and cap the speed at 1 |
| Enemies.EnemyUpdated | pyrate/engine/entities/enemy.py:17-56 | an update is steering then the ship physics, with the clock one higher and the anchor unchanged |
| Enemies.PatrolBounds | pyrate/engine/entities/enemy.py:39-52 | on patrol a jitter in [-1, 1] turns at most 3 degrees inside the patrol radius, and the speed before friction is at most 1 |
| Enemies.PursuitBounds | pyrate/engine/entities/enemy.py:24-36 | in pursuit the heading turns less than 36 degrees and the speed before friction does not drop |
| Enemies.ClockCountsUpdates | pyrate/engine/entities/enemy.py:10-56 | after n updates the clock reads n more and the anchor and radii never move |
| Enemies.EnemyShip.constructor | pyrate/engine/entities/enemy.py:6-15 | a new enemy, with a new ship part, has the recruited view |
| Enemies.EnemyShip.Steer | pyrate/engine/entities/enemy.py:19-52 | the steering part of `update` leaves the ship part in the steered view |
| Enemies.EnemyShip.Pursue | pyrate/engine/entities/enemy.py:24-36 | the pursuit branch leaves the ship part in the steered view |
| Enemies.EnemyShip.Patrol | pyrate/engine/entities/enemy.py:38-52 | the patrol branch leaves the ship part in the steered view |
| Enemies.EnemyShip.Update | pyrate/engine/entities/enemy.py:17-56 | `update` leaves the enemy in the updated view of its old state |
| LegacyShips.Launched | pyrate/engine/ship.py:5-13 | the older ship starts at rest with heading 0 |
| LegacyShips.Moved | pyrate/engine/ship.py:15-25 | friction moves a non-zero speed toward zero by 0.05, then the ship moves along its heading; the speed range is kept |
| LegacyShips.Accelerated | pyrate/engine/ship.py:27-28 | `accelerate` adds 0.2 up to top speed 5 and changes only the speed |
| LegacyShips.Decelerated | pyrate/engine/ship.py:30-31 | `decelerate` removes 0.2 down to 0 and changes only the speed |
| LegacyShips.Turned | pyrate/engine/ship.py:33-37 | a turn changes only the heading, by exactly the turn step |
| LegacyShips.LegacyAccelerationSaturates | pyrate/engine/ship.py:27-28 | n accelerations add n steps of 0.2 until the speed saturates at 5 |
| LegacyShips.Ship.constructor | pyrate/engine/ship.py:5-13 | a new older ship has the launched view |
| LegacyShips.Ship.Update | pyrate/engine/ship.py:15-25 | `update` leaves the ship in the moved view of its old state |
| LegacyShips.Ship.Accelerate | pyrate/engine/ship.py:27-28 | `accelerate` leaves the ship in the accelerated view |
| LegacyShips.Ship.Decelerate | pyrate/engine/ship.py:30-31 | `decelerate` leaves the ship in the decelerated view |
| LegacyShips.Ship.TurnLeft | pyrate/engine/ship.py:33-34 | `turn_left` turns the heading by exactly -3 |
| LegacyShips.Ship.TurnRight | pyrate/engine/ship.py:36-37 | `turn_right` turns the heading by exactly +3 |
| LegacyEnemies.PatrolSwingBounded | pyrate/engine/enemy.py:38 | the patrol's heading change `sin(time / 60) × 3` is at most 3 either way |
| LegacyEnemies.Steered | pyrate/engine/enemy.py:14-39 | pursuit iff strictly inside the agro radius, smoothing toward the band heading; patrol swings the heading; both accelerate |
| LegacyEnemies.EnemyUpdated | pyrate/engine/enemy.py:14-42 | an update is steering then the ship physics, the clock one higher and the anchor unchanged |
| LegacyEnemies.EnemyShip.constructor | pyrate/engine/enemy.py:6-12 | a new older enemy is anchored where it spawned, with agro radius 300 and preferred distance 200 by default, at time 0 |
| LegacyEnemies.EnemyShip.Update | pyrate/engine/enemy.py:14-42 | `update` leaves the enemy in the updated view of its old state |
| LegacyProjectiles.BallView.AsCurrent | pyrate/engine/projectile.py:4-13 | the current cannonball with the same flight state as an older one |
| LegacyProjectiles.Spawned | pyrate/engine/projectile.py:5-13 | the start point is recorded at construction, with speed 8, range 600 and radius 5 by default |
| LegacyProjectiles.Stepped | pyrate/engine/projectile.py:15-18 | an update moves the ball along its heading and leaves start, angle and speed unchanged |
| LegacyProjectiles.StepAgrees | pyrate/engine/projectile.py:15-18 | one update of the older ball is one update of the current one |
| LegacyProjectiles.RangeAgrees | pyrate/engine/projectile.py:20-23 | the older and current range tests agree |
| LegacyProjectiles.FliesAsCurrent | pyrate/engine/projectile.py:15-18 | n updates of the older ball give the flight of n updates of the current one |
| LegacyProjectiles.LegacyDefaultRange | pyrate/engine/projectile.py:5-23 | with the defaults, the older ball is out of range exactly after more than 75 updates, and not at spawn |
| LegacyProjectiles.Cannonball.constructor | pyrate/engine/projectile.py:5-13 | a new older ball has the spawned view |
| LegacyProjectiles.Cannonball.Update | pyrate/engine/projectile.py:15-18 | `update` leaves the ball in the stepped view |
| LegacyProjectiles.Cannonball.HasExceededRange | pyrate/engine/projectile.py:20-23 | the answer is the strict range test on the current view |
| GameRules.EndState | pyrate/engine/game.py:197-218 | A wins iff no enemy lives, some A ship lives and no B ship does; B symmetrically; game over iff an enemy lives and no player ship does; otherwise playing |
| GameRules.EverythingSunkKeepsPlaying | pyrate/engine/game.py:216-218 | with every ship sunk the match stays in play |
| GameRules.BothTeamsKeepPlaying | pyrate/engine/game.py:201-218 | with both teams alive the match stays in play |
| GameRules.ComputeDamageNonNegative | pyrate/engine/game.py:285-295 | collision damage is non-negative |
| GameRules.RelativeSpeedSymmetric | pyrate/engine/game.py:286-291 | the relative speed does not depend on the order of the ships |
| GameRules.ImpactFactorSymmetric | pyrate/engine/game.py:292-293 | the impact factor does not depend on the order of the ships |
| GameRules.ComputeDamageSymmetric | pyrate/engine/game.py:285-295 | `compute_damage(a, b) == compute_damage(b, a)` |
| GameRules.Separation | pyrate/engine/game.py:243-251 | nothing moves when the overlap is ≤ 0 or the centres coincide |
| GameRules.SeparationPushesApart | pyrate/engine/game.py:243-251 | otherwise the push has length 1.25 × overlap and points from the second ship to the first |
| GameRules.DamageIgnoresPosition | pyrate/engine/game.py:253-256 | the damage computed after the push equals the damage before it |
| GameRules.Shifted | pyrate/engine/game.py:248-251 | a push moves the ship's centre by the push vector |
| GameRules.BumpedMeeting | pyrate/engine/game.py:243-257 | a meeting pair is pushed apart by opposite vectors, then rammed unless both are enemies |
| GameRules.BumpedMoves | pyrate/engine/game.py:239-257 | a pair moves by opposite vectors, the first by the separation push; only position, health and the living flag change; a pair that does not meet is untouched |
| GameRules.BumpedDamages | pyrate/engine/game.py:253-257 | two enemies never damage each other; any other meeting pair each takes a third of the collision damage |
| GameRules.CollidePairs | pyrate/engine/game.py:236-240 | the pair loops keep the number of ships |
| GameRules.CollideStep | pyrate/engine/game.py:237-240 | pair (i, j) bumps the two ships and hands the list on to pair (i, j + 1) |
| GameRules.BumpRuleBalanced | pyrate/engine/game.py:243-251 | the engine's pair rule moves the two ships by opposite vectors |
| GameRules.CollisionsKeepCentre | pyrate/engine/game.py:235-257 | the collision phase keeps the sum of all ship centres |
| GameRules.BumpedNeverHeals | pyrate/engine/game.py:253-257 | a bump keeps both ships valid, never raises their health and never refloats a sunk ship |
| GameRules.BumpRuleWears | pyrate/engine/game.py:240-257 | the engine's pair rule heals no sound ship |
| GameRules.CollisionsNeverHeal | pyrate/engine/game.py:235-257 | the collision phase keeps every ship valid, raises no one's health and refloats no sunk ship |
| GameRules.ClosestIndex | pyrate/engine/game.py:92-95 | `min` with a distance key picks the first player at the smallest distance |
| GameRules.SpawnInfo | pyrate/engine/game.py:135-142 | the spawn table has six rows |
| GameRules.SpawnTeamsAlternate | pyrate/engine/game.py:133-142 | even rows are team A at heading 0 on the left quarter line, odd rows team B at heading 180 on the right one |
| GameRules.SpawnPlan | pyrate/engine/game.py:128-150 | more than six players is an error; otherwise the first n rows of the table |
| GameRules.Spots | pyrate/engine/game.py:158 | the `(x, y)` of each spawn point, in order |
| GameRules.Placements | pyrate/engine/game.py:160-185 | placing extends the enemies already placed and never places more than n |
| GameRules.PlacementsWellSpaced | pyrate/engine/game.py:160-185 | every accepted spot is at least `min_distance` from every player and every earlier enemy |
| GameRules.Kept | pyrate/engine/game.py:113-119 | the kept balls are balls of the list, no more of them than there were |
| GameRules.Misses | pyrate/engine/game.py:113-119 | every impact the stepping records is a `'miss'` of a ball of the list |
| GameRules.MissesMeans | pyrate/engine/game.py:113-119 | a `'miss'` is recorded for a ball exactly when it is out of range after its step |
| GameRules.KeptOrMissed | pyrate/engine/game.py:113-119 | the kept list and the misses together have exactly one entry per ball |
| GameRules.KeptMeans | pyrate/engine/game.py:113-119 | a ball is kept exactly when it is within range after its step |
| GameRules.HitTestMeans | pyrate/engine/game.py:226 | the hit test is `collide` of the ball's and the ship's hitboxes |
| GameRules.HitTestBlindToDamage | pyrate/engine/game.py:226-227 | damage does not change what the hit test says |
| GameRules.StruckAll | pyrate/engine/game.py:223-227 | every target is struck by every ball in turn |
| GameRules.StruckBySum | pyrate/engine/game.py:224-227 | being struck by several balls is being struck once by their total damage |
| GameRules.StruckByWears | pyrate/engine/game.py:227 | hits change only a target's health and living flag |
| GameRules.HitTestBlind | pyrate/engine/game.py:226 | the hit test does not look at health or the living flag of any target |
| GameRules.HitsOf | pyrate/engine/game.py:225-229 | a ball is listed once per target it meets, and listed at all exactly when it meets some target |
| GameRules.HitListStep | pyrate/engine/game.py:224-229 | the `collisions` list grows ball by ball |
| GameRules.HitListMeans | pyrate/engine/game.py:222-229 | a ball is on the `collisions` list exactly when it meets some target, dead ships included |
| GameRules.Without | pyrate/engine/game.py:232 | the filter keeps only balls of the list that are not in `collisions` |
| GameRules.WithoutMeans | pyrate/engine/game.py:232 | the filter keeps exactly the balls not in `collisions` |
| GameRules.Tagged | pyrate/engine/game.py:230 | one `'hit'` impact per entry of `collisions`, in order |
| Games.FleetOf | pyrate/engine/game.py:236 | `player_ships + enemy_ships`: player ships first, then each enemy's ship part |
| Games.Living | pyrate/engine/game.py:263 | the purge keeps only listed enemies that are living |
| Games.LivingMeans | pyrate/engine/game.py:263 | an enemy survives the purge exactly when it was listed and is living |
| Games.LivingCrew | pyrate/engine/game.py:263 | the purge keeps the enemies distinct |
| Games.Quarry | pyrate/engine/game.py:92-96 | an enemy heads for a player ship no farther than any other |
| Games.MoveAll | pyrate/engine/game.py:81-84 | every player ship is in the moved view of its old state |
| Games.Turns | pyrate/engine/game.py:90-97 | each enemy's turn is toward its quarry with its own draw |
| Games.SteerOne | pyrate/engine/game.py:92-97 | one enemy turns toward its quarry and keeps its cannonballs |
| Games.SteerEach | pyrate/engine/game.py:90-97 | the enemy loop leaves each enemy in its planned turn |
| Games.SteerAll | pyrate/engine/game.py:90-97 | every enemy turns toward the player nearest to it among the positions taken before the loop |
| Games.DrainInto | pyrate/engine/game.py:103-105 | the list grows by every ship's cannonballs in turn and every ship's list is emptied |
| Games.DrainFleet | pyrate/engine/game.py:103-110 | the game's list grows by the player ships' cannonballs, then the enemies', and no ship holds any |
| Games.KeptDistinct | pyrate/engine/game.py:113-119 | the kept balls are listed once each |
| Games.MissesDistinct | pyrate/engine/game.py:113-119 | on a list without repetitions each out-of-range ball is recorded as a `'miss'` once |
| Games.StepBalls | pyrate/engine/game.py:113-119 | every ball steps once; the in-range balls are kept in order and the misses are those of `GameRules.Misses`, which holds exactly the out-of-range balls (`GameRules.MissesMeans`), once each (`Games.MissesDistinct`) |
| Games.StepFlight | pyrate/engine/game.py:113-119 | the stepping keeps the game arranged with the kept balls |
| Games.WithoutDistinct | pyrate/engine/game.py:232 | the filtered list has no repetitions |
| Games.ShotDown | pyrate/engine/game.py:221-232 | a ball survives the hit phase exactly when it meets no target |
| Games.Strike | pyrate/engine/game.py:225-230 | one ball damages every target it meets and is listed once per target |
| Games.StrikeNext | pyrate/engine/game.py:224-230 | the hits of a ball are those against the targets as they were at the start of the phase |
| Games.StrikeEach | pyrate/engine/game.py:224-230 | the loops give the `collisions` list and every target struck by every ball |
| Games.StrikeTargets | pyrate/engine/game.py:222-230 | the loops give the `collisions` list and every target struck by every ball, keeping its cannonballs |
| Games.StrikeFleet | pyrate/engine/game.py:222-230 | the hit loops on a game's fleet keep it arranged, its ships holding no cannonballs |
| Games.PushApart | pyrate/engine/game.py:243-251 | the two ships move by the separation push and its opposite |
| Games.Ram | pyrate/engine/game.py:253-257 | each ship takes a third of the collision damage |
| Games.BumpMeeting | pyrate/engine/game.py:243-257 | a meeting pair is pushed apart and, unless both are enemies, rammed |
| Games.BumpPair | pyrate/engine/game.py:239-257 | one pair is tested with `collide` and bumped as the pair rule says |
| Games.BumpStep | pyrate/engine/game.py:238-257 | pair (i, j) hands the ships on to pair (i, j + 1) as the pair loops say |
| Games.BumpRow | pyrate/engine/game.py:238-257 | the inner loop for ship i hands the ships on to ship i + 1 as the pair loops say |
| Games.BumpAll | pyrate/engine/game.py:237-257 | the two loops leave every ship as the pair loops say, keeping its cannonballs |
| Games.BumpShips | pyrate/engine/game.py:236-257 | the ships' views after the loops are the pair loops applied to the views before |
| Games.BumpFleet | pyrate/engine/game.py:236-257 | the collision loops on a game's fleet keep it arranged, its ships holding no cannonballs |
| Games.PurgeArranged | pyrate/engine/game.py:262-263 | the purge keeps the game arranged |
| Games.SpawnPlayers | pyrate/engine/game.py:128-150 | an error exactly above six players; otherwise one new ship per table row, in order |
| Games.Recruit | pyrate/engine/game.py:184-185 | a new enemy with a new ship part joins the end of the list |
| Games.SpawnEnemies | pyrate/engine/game.py:153-187 | the enemies are new and stand where the placement rule puts them |
| Games.PositionsOf | pyrate/engine/game.py:158 | the `(x, y)` of each ship, in order |
| Games.Muster | pyrate/engine/game.py:68-69 | the players of the spawn table, then the enemies placed away from them, all new and holding nothing |
| Games.Game.constructor | pyrate/engine/game.py:63-72 | a new game is in play with the spawned ships, no balls in flight and no impacts |
| Games.Game.MovePlayers | pyrate/engine/game.py:81-84 | every player ship is in the moved view of its old state |
| Games.Game.MoveEnemies | pyrate/engine/game.py:87-97 | every enemy turns toward its nearest player ship after the players moved |
| Games.Game.Drain | pyrate/engine/game.py:102-110 | the game's list grows by every ship's cannonballs, players first, and every ship's list is empty |
| Games.Game.StepProjectiles | pyrate/engine/game.py:112-119 | every ball steps; the in-range ones stay in order and the impacts grow by `GameRules.Misses`, one `'miss'` for each of the others (`GameRules.MissesMeans`, `Games.MissesDistinct`) |
| Games.Game.HandleProjectileHits | pyrate/engine/game.py:221-232 | every ship is struck by every ball meeting it, each meeting adds a `'hit'` impact, and the balls that met a ship leave the list |
| Games.Game.HandleShipCollisions | pyrate/engine/game.py:235-260 | the ships end as the pair loops leave them |
| Games.Game.PurgeEnemies | pyrate/engine/game.py:261-266 | only the living enemies remain, in order |
| Games.Game.CheckEndConditions | pyrate/engine/game.py:190-218 | the state becomes the verdict of the end-of-match rule on the ships |
| Games.Game.Advance | pyrate/engine/game.py:80-97 | steps 1 and 2 keep the game arranged |
| Games.Game.Fly | pyrate/engine/game.py:99-119 | after step 3 no ship holds a cannonball and impacts are only appended |
| Games.Game.Settle | pyrate/engine/game.py:122-124 | after the collisions and the purge every remaining enemy is living and the state is the verdict of the end rule |
| Games.Game.Conclude | pyrate/engine/game.py:221-266 | the balls that met a ship leave the flight and each meeting adds one `'hit'` impact; after the collisions and the purge every remaining enemy is living and the state is the verdict of the end rule |
| Games.Game.Update | pyrate/engine/game.py:75-124 | a decided match never changes: the game, every ship, every enemy and every cannonball, in flight or held, keep their state; otherwise the state is the verdict on the remaining ships, every enemy is living, no ship holds a cannonball, and impacts are only appended |

## Left out

- The HTTP layer (`pyrate/api.py`), the pygame renderer and animations (`pyrate/ui/`), the keyboard polling (`pyrate/engine/input.py`) and the test agent (`tests/dummy_agent.py`): these are I/O, not engine logic.
- The `control_mode == "keyboard"` branch of `update` (`handle_input`): it reads the keyboard, and the game's mode is always `"api"`.
- The `print` calls, and the getters `get_player_positions`, `get_enemies_positions` and `get_projectile_positions`: these are output only.
- The `Bonus` image loading and `draw`: this is rendering.
- Trigonometry and square roots are parameters (`Trig`), and rounding of floats is ignored. For `compute_damage`, only non-negativity and symmetry are proved, not its numerics.
- Randomness is a parameter. The enemy spots come from a finite list of draws, and each enemy's patrol jitter from a list with one draw per enemy.
- Games.SpawnEnemies: stops placing once the draws run out. The source's `while True` loop keeps drawing, and may never end.
- The wall clock of `fire` (`time.time()`) is the parameter `now`.
- Inheritance is not modelled:
  - `EnemyShip` holds its ship part as the object `hull`;
  - `Ship` and `Cannonball` carry the fields of `Entity` themselves;
  - the per-object constants of the source (`max_speed`, `acceleration`, `rotation_speed`, `friction`, `cooldown`, `width`, `height`) are module constants, since no code changes them.
- Games.Game.constructor: requires at most six players, because a constructor cannot fail. The error path of `_spawn_players` is modelled by `Games.SpawnPlayers`, which returns a failure above six.
- Games.Game.MoveEnemies: requires a player ship whenever there are enemies. With no players, `min` over an empty list raises in the source.
- Games.Game.Update: requires the same, for the same reason.
- Games.Game.HandleProjectileHits: takes the hit test as a parameter that must be blind to damage. `Games.Game.Update` passes the engine's test, `collide` on the hitboxes, which `GameRules.HitTestBlind` proves blind.
- `_handle_ship_collisions` is split into two methods:
  - `Games.Game.HandleShipCollisions`: the pair loops;
  - `Games.Game.PurgeEnemies`: the purge of sunk enemies.
- Games.Game.Update: states the verdict, the stickiness, the purge and the emptied ship lists. The effect of each phase on ships and cannonballs is stated in the contract of the phase method it calls, not repeated in its own contract.
- Games.Game.Advance: states only that steps 1 and 2 keep the game arranged. The motion itself is stated by `Games.Game.MovePlayers` and `Games.Game.MoveEnemies`.
- Games.Game.Fly: states only that the ships end empty and impacts are only appended. The content of the list is stated by `Games.Game.Drain` and `Games.Game.StepProjectiles`.
- Games.Game.Conclude: states the cannonballs and impacts after the hits, the verdict and the purge. How the ships are struck and bumped is stated by `Games.Game.HandleProjectileHits` and `Games.Game.HandleShipCollisions`.
- Games.Game.Settle: states the verdict and the purge. The ships' motion and damage are stated by `Games.Game.HandleShipCollisions`.
- Games.Game.MoveEnemies: the quarry is found among the views of the player ships after they moved. The source takes the same positions in a separate list at line 87.
