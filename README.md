# Spire of Ash: the game simulation in Dafny

Spire of Ash is a small top-down arena game. The avatar moves with the arrow
keys and swings at enemies with the space bar. Each room holds 3 to 10
enemies that chase the avatar and strike it, each at most once per second,
and 1 to 3 pickups (health, attack, speed). An exit door opens once the room
is cleared, and walking through it leads to a freshly generated room. Losing
the last point of health resets the avatar, the score and the room.

This project models the integer simulation under the game's drawing code and
proves properties of it. Each module follows one part of the program.

- `Config` holds the constants: arena 800 × 600, entity sizes, speeds, the
  health cap, the cooldown, the spawn clearance and the door position.
- `Geometry` holds integer rectangles and the strict overlap test that every
  collision uses.
- `Adversary` holds the `Enemy` class, its greedy two-pixel chase and its
  1000 ms cooldown gate.
- `Avatar` holds the `Player` class, its guarded movement, the directional
  attack hitbox and the attack sweep.
- `Pickups` holds the item kinds and their effects on the avatar.
- `RoomGen` holds room population by rejection sampling. The random draws
  are inputs.
- `Simulation` holds the tick as six pure phase functions on a value
  `World`, and the `Game` class that performs the tick in place.

The objects that change in place are classes with `modifies` clauses:
`Player`, `Enemy` and `Game`. Each method is proved against a pure function
of the old state. `Game.Tick` ends in `Step(old(State()), …)`, and
`StepKeepsInv` proves what every tick keeps:
- health between 1 and 3;
- speed and attack power at their default or upgraded values;
- a non-negative score;
- the avatar within speed − 1 pixels of the arena;
- the door open exactly when the room has no enemies.

Three behaviours of the code are worth knowing when reading the contracts:
- **Movement is guarded, not clamped.** Each arrow key moves a full `speed`
  step whenever that edge is still strictly inside the screen, so the
  avatar can end up to speed − 1 pixels past an edge. `MoveOvershoots`
  exhibits this, and the invariant carries the band that does hold,
  `InBand` at the avatar's current speed.
- **Health is at least 1 between ticks.** The strike that takes health to 0
  or below triggers the death reset within the same tick, which restores
  health to 3.
- **The swing comes after the move.** In the same tick the avatar first moves
  (`speed` pixels up, 5 at the default speed, when up is held and the top
  edge is inside the screen) and only then builds its hitbox from the moved
  position; the scenario lemmas `ScenarioUpSwingKills` and
  `ScenarioUpSwingMisses` include that move.

## Model

| member | source | states |
|---|---|---|
| Geometry.Overlaps | SpireOfAshAlpha1.05.py:105 | The collision test: strict overlap of the two boxes on both axes, so boxes that only share an edge do not collide. Its properties are OverlapsSymmetric and OverlapsIffSharedPixel. |
| Geometry.OverlapsSymmetric | SpireOfAshAlpha1.05.py:199 | The overlap test does not depend on which rectangle asks, so `a.colliderect(b)` and `b.colliderect(a)` agree. |
| Geometry.OverlapsIffSharedPixel | SpireOfAshAlpha1.05.py:105 | Two non-empty rectangles overlap exactly when some pixel lies in both; rectangles that only touch along an edge do not collide. |
| Adversary.ChaseAxis | SpireOfAshAlpha1.05.py:122-131 | Each axis moves by +2, −2 or 0. It stays put exactly when already level with the target, and never moves away from it. The distance to the target falls by exactly 2 when it is at least 2 and is otherwise unchanged: 1 stays 1 by jumping over, and 0 stays 0. |
| Adversary.Ready | SpireOfAshAlpha1.05.py:135 | The cooldown test: at least 1000 ms since the last hit. Enemy.CanAttack, CooldownWindow and GrantedSpacing state what it gives. |
| Adversary.Granted | SpireOfAshAlpha1.05.py:133-138 | The yes-answers of the cooldown gate over a series of queries; there are never more of them than queries. |
| Adversary.GrantedSpacing | SpireOfAshAlpha1.05.py:133-138 | An enemy hits at most once per cooldown window. The first granted query comes at least 1000 ms after the last hit. Each later granted query comes at least 1000 ms after the previous one. Every granted time is one of the queries. |
| Adversary.CooldownWindow | SpireOfAshAlpha1.05.py:133-138 | After a hit at t, a query at t2 is granted exactly when t2 − t ≥ 1000. |
| Adversary.Enemy.constructor | SpireOfAshAlpha1.05.py:112-120 | A new enemy stands at its spawn point, and its cooldown window starts at its creation time. |
| Adversary.Enemy.MoveToward | SpireOfAshAlpha1.05.py:122-131 | Each coordinate takes one `ChaseAxis` step toward the avatar's top-left corner. |
| Adversary.Enemy.CanAttack | SpireOfAshAlpha1.05.py:133-138 | The answer is yes exactly when at least 1000 ms have passed since the last hit. A yes records `now` as the last hit; a no leaves the last hit unchanged. The answer agrees with `Granted`. |
| Avatar.StepY | SpireOfAshAlpha1.05.py:80-83 | The vertical move: up when the top edge is below the screen top, then down, tested on the updated position, when the bottom edge is above the screen bottom. Properties in MoveDelta, MoveStaysInBand and MoveOvershoots. |
| Avatar.StepX | SpireOfAshAlpha1.05.py:84-87 | The horizontal move: left, then right, each guarded like StepY. Properties in MoveDelta and MoveStaysInBand. |
| Avatar.MoveDelta | SpireOfAshAlpha1.05.py:80-88 | Each coordinate changes by exactly −speed, 0 or +speed. An axis with no held key stays put. A single held key moves its axis exactly when that edge is still strictly inside the screen. |
| Avatar.MoveStaysInBand | SpireOfAshAlpha1.05.py:80-88 | A move at speed s from within s − 1 pixels of the arena stays within s − 1 pixels of it on every side: the overshoot is never more than speed − 1. |
| Avatar.MoveOvershoots | SpireOfAshAlpha1.05.py:80-81 | The guard is not a clamp: one pixel below the top edge, an up move at speed 5 ends four pixels above the screen. |
| Avatar.BandWidens | SpireOfAshAlpha1.05.py:80-88 | A speed upgrade only widens the overshoot band, so the band reached at speed 5 still holds at speed 8. |
| Avatar.Hitbox | SpireOfAshAlpha1.05.py:90-100 | The first held key in the order up, down, left, right picks a 20 × 60 or 60 × 20 strip flush against that side of the avatar. With no arrow key held, the hitbox is a 60 × 60 square centred on the avatar's top-left corner. |
| Avatar.Survivors | SpireOfAshAlpha1.05.py:104-106 | The enemies a swing leaves in the group, in order; never more than there were. AttackSelects and AttackPartitions state which ones. |
| Avatar.Struck | SpireOfAshAlpha1.05.py:104-107 | The enemies a swing removes, in order; never more than there were. Their number times the attack power is the swing's score (PointsIsProduct). |
| Avatar.AttackSelects | SpireOfAshAlpha1.05.py:104-106 | An enemy survives a swing exactly when it does not overlap the hitbox, and is struck exactly when it does. |
| Avatar.AttackPartitions | SpireOfAshAlpha1.05.py:103-108 | The survivors and the struck enemies together are exactly the enemies before the swing (as a multiset), so nothing is lost or duplicated. |
| Avatar.Points | SpireOfAshAlpha1.05.py:107 | The score of a swing: the attack power added once per enemy struck. PointsIsProduct states it equals kills times attack power. |
| Avatar.PointsIsProduct | SpireOfAshAlpha1.05.py:103-108 | The points of a swing equal the number of enemies struck times the attack power. |
| Avatar.Player.constructor | SpireOfAshAlpha1.05.py:70-77 | A new avatar has speed 5, health 3 and attack power 1 at the given position. |
| Avatar.Player.Move | SpireOfAshAlpha1.05.py:80-88 | The new position is the guarded move of the old one. Each key's guard is tested on the position the earlier keys left. |
| Avatar.Player.Attack | SpireOfAshAlpha1.05.py:90-108 | The enemies returned are the survivors of the hitbox, in order; the points are the number struck times the attack power. Every returned enemy was an input enemy, and distinct inputs give distinct outputs. |
| Pickups.Apply | SpireOfAshAlpha1.05.py:215-221 | A health item heals 1 only below the cap of 3, so health never passes the cap. An attack item sets attack power to 2 and a speed item sets speed to 8. Every other stat and the position are unchanged. |
| Pickups.UpgradeIdempotent | SpireOfAshAlpha1.05.py:218-221 | A second attack or speed item changes nothing. |
| Pickups.HealthAtCapIsNoop | SpireOfAshAlpha1.05.py:216-217 | A health item consumed at full health has no effect. |
| Pickups.ConsumeAll | SpireOfAshAlpha1.05.py:214-222 | Consuming items never moves the avatar. |
| Pickups.ConsumeAllClosedForm | SpireOfAshAlpha1.05.py:214-222 | Health after collecting is min(3, health + touched health items). Attack power is upgraded exactly when some touched item is an attack item, and speed exactly when some touched item is a speed item. |
| Pickups.Untouched | SpireOfAshAlpha1.05.py:214-222 | The items left after collecting, in order; never more than there were. UntouchedSelects states which ones. |
| Pickups.UntouchedSelects | SpireOfAshAlpha1.05.py:214-222 | Every item the avatar touches is removed, whatever its effect was; every other item stays. |
| Pickups.ConsumeIdempotent | SpireOfAshAlpha1.05.py:214-222 | Collecting is idempotent: a second pass over the remaining items changes neither the items nor the avatar. |
| RoomGen.FarFromSpawn | SpireOfAshAlpha1.05.py:158 | The spawn test: squared distance to the spawn point above 2500, which for integers is the same as distance above 50. |
| RoomGen.Admitted | SpireOfAshAlpha1.05.py:155-160 | The accepted candidates come from the draws, and each is strictly more than 50 pixels from the spawn point. |
| RoomGen.AdmittedSelects | SpireOfAshAlpha1.05.py:155-160 | Both directions: a drawn candidate is accepted exactly when it passes the spawn test. |
| RoomGen.AdmittedPrefix | SpireOfAshAlpha1.05.py:155-160 | Accepting from a prefix of the draws gives a prefix of what all the draws give. |
| RoomGen.GenerateRoom | SpireOfAshAlpha1.05.py:151-166 | The room gets the first `enemyCount` accepted candidates, in draw order, with cooldowns starting now, and the item draws. This succeeds exactly when enough candidates pass the test. A produced room has 3 to 10 fresh, distinct enemies, each clear of the spawn point, and 1 to 3 items, all inside the arena. |
| Simulation.MovePhase | SpireOfAshAlpha1.05.py:192-193 | Phase 1: only the avatar's position changes, by StepX and StepY at its speed. MovePhaseKeeps states what it keeps. |
| Simulation.AttackPhase | SpireOfAshAlpha1.05.py:194-195 | Phase 2: with space held, the Survivors stay and the score gains the struck count times the attack power, from the moved position; otherwise nothing changes. AttackPhaseKeeps and Game.Swing relate to it. |
| Simulation.Chase | SpireOfAshAlpha1.05.py:122-131 | One enemy's chase step as a value: each coordinate takes a ChaseAxis step toward the avatar's top-left corner, and the cooldown is untouched. Game.EnemyTurn and PursueLaw relate to it. |
| Simulation.Strikes | SpireOfAshAlpha1.05.py:199 | An enemy strikes when, after its chase step, its box overlaps the avatar's and its cooldown has run out (Ready). Game.EnemyTurn proves the in-place test agrees with it. |
| Simulation.Pursue | SpireOfAshAlpha1.05.py:198-199 | One enemy's turn: its chase step, with the last hit restarted at now exactly when it strikes. PursueLaw states the law it follows. |
| Simulation.Hits | SpireOfAshAlpha1.05.py:197-201 | The number of enemies that strike this tick, counted in list order. HitsPrefix bounds it over prefixes, and Game.ChaseAll proves the loop's health loss equals it when the avatar survives. |
| Simulation.PursueLaw | SpireOfAshAlpha1.05.py:197-199 | Each enemy's turn: its cooldown restarts at now exactly when it strikes and is kept otherwise, and its distance to the avatar on each axis falls by 2 when it was at least 2 and is kept otherwise. |
| Simulation.Dies | SpireOfAshAlpha1.05.py:199-201 | The avatar dies this tick when at least one enemy strikes and the strikes reach its health; Game.ChaseAll proves the break-at-first-death loop reports exactly this. |
| Simulation.ChasePhase | SpireOfAshAlpha1.05.py:197-210 | Phase 3: on death the reset into the next room, keeping speed and attack power; otherwise health falls by the strikes and every enemy takes its turn. ChasePhaseKeeps, DeathResets, SurvivedTick and Game.Pursuit relate to it. |
| Simulation.DoorPhase | SpireOfAshAlpha1.05.py:211-212 | Phase 4: an empty room opens its door; nothing else changes. DoorPhaseOpens states the result. |
| Simulation.PickupPhase | SpireOfAshAlpha1.05.py:214-222 | Phase 5: the avatar becomes ConsumeAll of the items and the Untouched items stay. PickupPhaseKeeps and Game.CollectPickups relate to it. |
| Simulation.AtDoor | SpireOfAshAlpha1.05.py:227 | The doorway test: right edge at or past x = 750 and vertical centre strictly between 250 and 350. CentreIsNotAtDoor uses it. |
| Simulation.TransitionPhase | SpireOfAshAlpha1.05.py:227-230 | Phase 6: through the open door into the next room at the centre, keeping score. TransitionKeepsScore and TransitionPhaseKeeps state the result. |
| Simulation.Step | SpireOfAshAlpha1.05.py:191-230 | One loop pass: the six phases in the order of the loop body. StepKeepsInv states what it keeps and Game.Tick performs it in place. |
| Simulation.InitialInv | SpireOfAshAlpha1.05.py:175-181 | The starting state satisfies the tick invariant. |
| Simulation.HitsPrefix | SpireOfAshAlpha1.05.py:197-210 | Strikes counted over the first enemies never exceed those counted over all of them. A death found partway through the enemy loop is therefore a death of the whole count. |
| Simulation.PickupKeepsStats | SpireOfAshAlpha1.05.py:214-222 | Pickups keep health between its old value and 3. Speed and attack power either keep their value or take the upgraded one. |
| Simulation.MovePhaseKeeps | SpireOfAshAlpha1.05.py:192-193 | The move keeps the avatar's stats, the enemies and the door. |
| Simulation.AttackPhaseKeeps | SpireOfAshAlpha1.05.py:194-195 | A swing never lowers the score, and removing enemies cannot close the door. |
| Simulation.ChasePhaseKeeps | SpireOfAshAlpha1.05.py:197-210 | After the chase, health is at least 1, either because the strikes left some or because the death reset restored 3. |
| Simulation.DoorPhaseOpens | SpireOfAshAlpha1.05.py:211-212 | After the door check, the door is open exactly when the room is clear. |
| Simulation.PickupPhaseKeeps | SpireOfAshAlpha1.05.py:214-222 | Collecting pickups keeps the tick invariant. |
| Simulation.TransitionPhaseKeeps | SpireOfAshAlpha1.05.py:227-230 | Going through the door into a validly generated room keeps the tick invariant. |
| Simulation.StepKeepsInv | SpireOfAshAlpha1.05.py:191-230 | Every tick keeps health in 1..3, speed in {5, 8}, attack power in {1, 2}, a non-negative score and the avatar within speed − 1 pixels of the arena. The door stays open exactly when the room has no enemies. |
| Simulation.DeathResets | SpireOfAshAlpha1.05.py:199-210 | A tick with a death ends with the avatar at (400, 300), health 3, score 0, the door closed and the next room's enemies. Speed and attack power are each kept or set to the upgraded value by a pickup. |
| Simulation.SurvivedTick | SpireOfAshAlpha1.05.py:192-210 | In a tick without a death, health drops by exactly the number of strikes and stays at least 1. The enemies are the swing's survivors after their turns, and the score grows by the swing's points. |
| Simulation.CentreIsNotAtDoor | SpireOfAshAlpha1.05.py:227 | The centre, where a death leaves the avatar, is not in the doorway, so a death and a door transition never happen in the same tick. |
| Simulation.TransitionKeepsScore | SpireOfAshAlpha1.05.py:227-230 | Going through the door keeps score, health, speed and attack power. It puts the avatar at the centre, closes the door and installs the next room. |
| Simulation.DoorOpensOnlyWhenCleared | SpireOfAshAlpha1.05.py:211-212 | After any tick, an open door means that no enemies remain. |
| Simulation.ScenarioUpSwingKills | SpireOfAshAlpha1.05.py:191-212 | From the centre, with one enemy at (400, 250), up and space move the avatar to y = 295. The swing removes the enemy for 1 point, and the empty room opens its door. |
| Simulation.ScenarioUpSwingMisses | SpireOfAshAlpha1.05.py:191-210 | The same swing against an enemy at (400, 360) misses. The score stays 0, and the enemy closes in to (400, 358). |
| Simulation.Game.constructor | SpireOfAshAlpha1.05.py:175-181 | A new game is in the initial state for its first room. |
| Simulation.Game.Tick | SpireOfAshAlpha1.05.py:191-230 | One pass of the game loop leaves the game in `Step` of its old state: move, attack, chase and damage, door check, pickups, then the door transition. The enemies stay distinct and come from the old room or the next one. |
| Simulation.Game.Swing | SpireOfAshAlpha1.05.py:194-195 | With space held, the enemies become the survivors and the score gains the swing's points. Without space, neither changes. |
| Simulation.Game.Pursuit | SpireOfAshAlpha1.05.py:197-210 | The game ends the enemy loop in the chase phase's state: on a death, the reset into the next room; otherwise every enemy has taken its turn and health is lowered by the strikes. |
| Simulation.Game.ChaseAll | SpireOfAshAlpha1.05.py:197-201 | The loop reports a death exactly when the strikes reach the avatar's health. Short of that, health drops by the number of strikes and every enemy has taken its turn. |
| Simulation.Game.EnemyTurn | SpireOfAshAlpha1.05.py:198-199 | An enemy chases, then strikes exactly when it touches the avatar and its cooldown has run out. |
| Simulation.Game.Die | SpireOfAshAlpha1.05.py:201-209 | The death reset: the avatar is at the centre with health 3, keeping speed and attack power. The score is 0, the door is closed and the next room is installed. |
| Simulation.Game.OpenDoorIfCleared | SpireOfAshAlpha1.05.py:211-212 | The door opens when no enemies remain and is otherwise unchanged. |
| Simulation.Game.CollectPickups | SpireOfAshAlpha1.05.py:214-222 | The avatar ends as `ConsumeAll` of the items and the items left are `Untouched`, in order. |
| Simulation.Game.TakeDoor | SpireOfAshAlpha1.05.py:227-230 | Standing in the open doorway moves the avatar to the centre of the next room with the door closed. Standing anywhere else changes nothing. |

## Left out

- Drawing is not modelled because it is output only. This covers the menu screen, text and HUD, the explosion animation, item colours and circles, the door rectangle and the sprite `update`/`draw` calls.
- The menu shown after a death is treated as an immediate return. Its quit path is not modelled.
- Event polling and the quit flag are not modelled; the held keys are a `Keys` record. `Game.Tick` is one pass of the loop body, without the loop itself.
- The clock is a parameter. `pygame.time.get_ticks` becomes `now`, and `clock.tick(60)` and `pygame.time.delay` are dropped because they only pace the loop.
- Simulation.Game.Tick: all cooldown checks of one tick read the same `now`, whereas the game reads the clock once per check. Ticks last about 16 ms, so this is a simplification.
- Randomness is an input. The enemy count, the stream of candidate enemy positions and the item draws are passed in.
- RoomGen.GenerateRoom: when the supplied candidate stream runs out before enough are accepted, `ok` is false. The game would go on drawing forever instead; that unbounded rejection loop has no termination argument.
- The spawn test compares squared integer distances with 2500 instead of taking a floating-point square root. For integers the two give the same answer.
- Sprite groups are sequences. Removal keeps the order of the rest, and iteration is over a snapshot, as a group's iteration is. Group internals and the `all_sprites` group are not modelled.
- Simulation.Game.Tick: it requires distinct enemies, and a next room whose enemies are new objects. A sprite group holds each sprite once, and a generated room creates new enemies.
- Simulation.Game.Tick: it takes the room to install on a death or a door transition as a parameter. The game generates that room at that point instead. `CentreIsNotAtDoor` shows that both events never happen in one tick.
