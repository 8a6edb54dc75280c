# Nebula Raiders game rules in Dafny

A model of the game-rules layer of `static/js/game.js`, the browser arena
shooter of nebula-raiders. It covers one session of play: the player ship,
the enemies and the bullets, the scrap balance and the wave counter. The
model covers:

- the per-frame `update(dt)`: the player's move and shot, the backwards
  bullet loop with its in-place splices, the backwards enemy loop, and the
  automatic next wave;
- the wave director `spawnWave` and the enemy stat table;
- the weapon rules: cooldown per weapon and level, and bullets per shot;
- the three shop purchases;
- the frame clock of `tick`, with its dt clamp and pause gate;
- the pause and shop flags;
- `restart(fresh)`;
- the saved-game merge of `bootstrap`, with JavaScript `||` truthiness.

Layout, one module per file:

- `Geometry`: the arena size, `clamp`, and the circle overlap test.
- `Entities`: the ship, enemy, bullet and session records, plus the stat,
  weapon, damage and reward tables.
- `Waves`: enemy count and kind per wave, and the enemies a wave spawns.
- `Shop`: the three purchases.
- `Combat`: one update as functions on the session value. Each loop body
  is a step function and each loop a recursive pass.
- `Persistence`: the stored snapshot, the `bootstrap` merge, and the
  start-up session.
- `Session`: the class `SessionState`, with the functions `Restarted`,
  `Ticked` and `Bought` for the restart, the frame and the shop buttons.
  The class holds the fields of the source's `state` object, and its
  methods change them in place with the same loops as the source. The
  methods that run game rules are proved to leave the state as a function
  on `World` gives for the old state. `Bootstrap`, `SpawnWave`, `Fire` and
  the update methods match functions of `Persistence`, `Waves`, `Entities`
  and `Combat`. `Tick`, `Buy` and `Restart` match `Ticked`, `Bought` and
  `Restarted`. `TogglePause`, `OpenShop` and `CloseShop` state their flag
  changes directly. The properties are proved as lemmas about those
  functions.

Inputs the rules read from outside are parameters, bundled in
`Combat.Controls`:

- the clock (`performance.now()`);
- whether the mouse is down;
- the player's new velocity;
- the heading of each bullet a shot emits;
- each enemy's new velocity and shot heading;
- the `Math.random()` draws for kill rewards and for the next wave.

The model follows the code as written:

- Hp is not clamped at 0. A hit can leave it negative, and only the
  repair purchase clamps it.
- The fire cooldown has no floor. From weapon level 27 on it is zero or
  below for every weapon (`Entities.FireRateHasNoFloor`), and the order
  rapid < blaster < shotgun holds only up to levels 43 and 27
  (`Entities.FireRateOrder`).
- Contact damage is `18 * dt + 1` for every enemy kind
  (`Combat.ContactIgnoresKind`). That is at most 1.9 hp per enemy per
  tick, so one enemy's contact in one tick never takes a ship from 5 hp to 0
  (`Combat.ContactTickIsSurvivable`).
- The shop does not hold back the next wave. A cleared wave is followed
  at once by the next one, and an open shop only stops the game through
  the `paused` flag it sets (`Session.ShopDoesNotGateUpdate`).
- The state is saved by a timer only, not on a wave clear.
- The kill reward is `4 + k + wave` with `k` in 0..5, and a hit does
  `10 + 6 * weaponLevel` damage.

Behaviour of the code worth knowing, proved as written:

- A save taken after death with hp exactly 0 loads with 130 hp, because
  `||` reads 0 as missing.
- A save taken after death with negative hp loads into a running session
  with no hp left.

## Model

| member | source | states |
|---|---|---|
| Geometry.Clamp | static/js/game.js:38 | the result lies in `[lo, hi]` when the bounds are ordered; a value inside is kept, one below gives `lo`, one above gives `hi`; crossed bounds give `lo` |
| Geometry.Overlaps | static/js/game.js:39 | the defining collision test `dist(a, b) < ra + rb`, in squared form; `OverlapsIsDistanceBelowRadii` proves it equal to the distance form |
| Geometry.OverlapsIsDistanceBelowRadii | static/js/game.js:39 | the squared overlap test holds exactly when the distance (the non-negative root of the squared distance) is below the sum of the radii |
| Entities.NewPlayer | static/js/game.js:65-69 | a new ship is at the given point at rest, with radius 16, top speed 260, 130 of 130 hp and a level-1 blaster |
| Entities.NewEnemy | static/js/game.js:158-162 | a new enemy is at the given point at rest, of the given kind, has never fired, and has positive hp, radius and speed; the stat table itself is stated by `StatsDependOnlyOnTankness`, `TankOutclassesOthers` and `TanksOnlyLate` |
| Entities.StatsDependOnlyOnTankness | static/js/game.js:158-162 | two kinds that are both tanks or both non-tanks get identical stats |
| Entities.TankOutclassesOthers | static/js/game.js:158-162 | a tank has radius 26, hp 220 and speed 70, any other kind radius 16, hp 40 and speed 120, so the tank is larger, tougher and slower |
| Entities.FireRate | static/js/game.js:128 | the defining cooldown table of `getFireRate`, with any weapon but rapid and shotgun on the blaster line; `FireRateFallsWithLevel`, `FireRateHasNoFloor` and `FireRateOrder` state its properties |
| Entities.FireRateFallsWithLevel | static/js/game.js:128 | every weapon's cooldown strictly falls as its level rises |
| Entities.FireRateHasNoFloor | static/js/game.js:128 | at level 27 and above every cooldown is at most 0 ms |
| Entities.FireRateOrder | static/js/game.js:128 | rapid is faster than blaster exactly up to level 43, and blaster faster than shotgun exactly up to level 27 |
| Entities.Volley | static/js/game.js:97-114 | a shot emits `BulletCount` bullets (1, 1, `4 + level`, 3, none for an unknown weapon), all owned by the player, at the ship, with the weapon's radius and speed and a life of 2.2 s |
| Entities.Advance | static/js/game.js:150 | a bullet's life falls by dt and only its position and life change |
| Entities.MovePlayer | static/js/game.js:90-91 | after a move the ship lies 24 units inside the arena, takes the new velocity, and nothing else changes |
| Entities.MoveEnemy | static/js/game.js:185-186 | after a move the enemy lies 12 units inside the arena, and nothing but position and velocity changes |
| Entities.ShotDamageGrowsWithLevel | static/js/game.js:356 | each weapon level adds at least 6 damage per hit |
| Entities.KillBonus | static/js/game.js:360 | the bonus is the floor of `6 * roll`, so it lies in 0..5 for a draw in [0, 1) |
| Entities.KillReward | static/js/game.js:360 | a kill pays between `4 + wave` and `9 + wave` scrap |
| Entities.ContactDamage | static/js/game.js:383 | for a step of at most 50 ms a contact costs between 1 and 1.9 hp |
| Entities.Remove | static/js/game.js:351 | `splice(i, 1)` shortens the list by one and keeps the elements before and after `i` in order |
| Waves.SpawnCount | static/js/game.js:222 | the count `n` satisfies `n - 3 <= 1.6 * wave < n - 2`, so it is `3 + floor(1.6 * wave)`, and it is 0 where that is negative |
| Waves.SpawnCountGrows | static/js/game.js:222 | a later wave brings strictly more enemies |
| Waves.KindFor | static/js/game.js:228-229 | the defining kind choice of `spawnWave`; `KindBands`, `EarlyWavesAreChasers` and `TanksOnlyLate` state its bands |
| Waves.KindBands | static/js/game.js:228-229 | tank exactly past wave 6 on a draw below 0.18; kiter exactly past wave 6 on a draw in [0.18, 0.36) or in waves 4 to 6 on a draw below 0.36; chaser otherwise |
| Waves.Spawned | static/js/game.js:221-232 | a wave is `SpawnCount(wave)` enemies, the k-th one built by the stat table at the k-th draw's point with the kind the draw picks |
| Waves.FirstWave | static/js/game.js:221-232 | wave 1 is four chasers with 40 hp |
| Waves.EarlyWavesAreChasers | static/js/game.js:228-229 | waves up to 3 spawn only chasers with chaser stats |
| Waves.TanksOnlyLate | static/js/game.js:158-162 | every spawned tank comes from a wave past 6 and a draw below 0.18, and has radius 26 and hp 220 |
| Shop.Purchase | static/js/game.js:288-296 | a purchase goes through exactly when scrap covers the cost (25, 40, 18); it then deducts exactly the cost and applies exactly one effect (+30 max hp and hp, +1 level, hp healed by 40 and clamped to [0, max hp]); otherwise nothing changes; nothing but scrap, max hp, hp and level ever changes |
| Shop.PurchaseKeepsBounds | static/js/game.js:288-296 | from a non-negative balance and hp within max hp, no purchase makes scrap negative or hp exceed max hp |
| Shop.PurchaseKeepsShipAlive | static/js/game.js:288-296 | no purchase takes a positive hp to 0 or below |
| Shop.BrokeRepairIsRefused | static/js/game.js:295 | a repair with less than 18 scrap is refused and changes nothing, whatever the ship's state |
| Combat.FrameDt | static/js/game.js:436 | the step never exceeds 0.05 s, and a shorter gap is used as it is |
| Combat.TriggerOpen | static/js/game.js:93-95 | the defining fire gate `mouse.down && now - lastShot > rate`; `FireGate` states what an open and a closed gate do |
| Combat.PlayerPhase | static/js/game.js:88-95 | the defining player part of `update`: the move and clamp, then the gated shot; `FireGate` states its whole effect, and `SessionState.PlayerUpdate` is proved against it |
| Combat.FireGate | static/js/game.js:88-95 | the ship moves by `MovePlayer`; a shot is taken exactly when the mouse is down and more than the cooldown has passed, stamps the clock and appends exactly the moved ship's `Volley` behind the bullets in flight; otherwise the bullets and the stamp stay; enemies, scrap, wave, `running` and the flags never change |
| Combat.LastHit | static/js/game.js:353-355 | the inner scan finds the last enemy in the list the bullet overlaps, and none after it overlaps; -1 means none does |
| Combat.FindTarget | static/js/game.js:353-367 | the backwards loop over the enemies stops at exactly the index `LastHit` gives |
| Combat.BulletStep | static/js/game.js:350-375 | one bullet iteration keeps the bullets before its index, never adds enemies, keeps the wave, and turns `running` off exactly when it reports a game over, which needs hp at or below 0 |
| Combat.PlayerShot | static/js/game.js:352-368 | a live player bullet leaves the ship, `running` and the wave alone, never adds enemies, and is either spliced out or kept with its new position |
| Combat.ShotAtShip | static/js/game.js:369-374 | a live enemy bullet leaves enemies, scrap and the wave alone, is either spliced out or kept with its new position, and turns `running` off exactly when it reports a game over, which needs hp at or below 0 |
| Combat.ExpiredBulletHitsNothing | static/js/game.js:350-351 | a bullet whose life runs out is removed before any collision test and nothing else changes |
| Combat.Strike | static/js/game.js:356-364 | a hit lowers the target's hp by exactly `10 + 6 * level`; at 0 or below the enemy is spliced out and the reward is paid, else only that hp changes; the ship, bullets, wave and `running` stay |
| Combat.PlayerBulletStrikesOnce | static/js/game.js:352-368 | a live player bullet hits only the last enemy it overlaps, for exactly `10 + 6 * level`, and is removed; that enemy is removed with its reward exactly when its hp reaches 0, else only its hp falls; with no overlap only the bullet moves |
| Combat.EnemyBulletMisses | static/js/game.js:369-374 | a live enemy bullet that misses the ship only moves on: the step is the bullet's advance and nothing else, and the game goes on |
| Combat.EnemyBulletHurts | static/js/game.js:369-374 | an enemy bullet that reaches the ship costs exactly 10 hp and is removed, and the game ends exactly when hp falls to 0 or below |
| Combat.BulletPass | static/js/game.js:349-375 | the bullet loop never adds enemies, keeps the wave, and reports a game over exactly when it turned `running` off with hp at or below 0 |
| Combat.PlayerShotEffect | static/js/game.js:352-368 | a player bullet only raises scrap and keeps the ship, `running`, the wave and the flags |
| Combat.ShotAtShipEffect | static/js/game.js:369-374 | an enemy bullet only lowers hp, only turns `running` off, leaves a running ship above 0 hp, and keeps scrap, the wave and the flags |
| Combat.BulletStepEffect | static/js/game.js:350-375 | one bullet iteration only lowers hp, only raises scrap, only turns `running` off, leaves a running ship above 0 hp, and keeps the rest of the ship, the wave and the flags |
| Combat.BulletPassEffect | static/js/game.js:349-375 | the same holds for the whole bullet loop |
| Combat.BulletStepReward | static/js/game.js:359-366 | one bullet either kills nothing and pays nothing, or kills one enemy and pays `KillReward` |
| Combat.BulletStepPays | static/js/game.js:359-366 | for a draw in [0, 1), one bullet either kills nothing and pays nothing, or kills one enemy and pays between `4 + wave` and `9 + wave` |
| Combat.BulletPassKills | static/js/game.js:349-368 | a pass over `n` bullets kills at most `n` enemies |
| Combat.BulletPassRewards | static/js/game.js:349-368 | the scrap a pass earns lies between `4 + wave` and `9 + wave` added once per kill |
| Combat.BulletPassPays | static/js/game.js:349-368 | a pass over `n` bullets kills between 0 and `n` enemies and earns between `kills * (4 + wave)` and `kills * (9 + wave)` scrap |
| Combat.EnemyStep | static/js/game.js:380-385 | one enemy iteration keeps the number of enemies and the wave, and turns `running` off exactly when it reports a game over, which needs hp at or below 0 |
| Combat.EnemyStepOutcome | static/js/game.js:380-385 | the enemy at `i` becomes its moved self (`e.update(dt)`, lines 176-186); a kiter more than 1200 ms past its last shot stamps the clock and adds exactly one shot from its point before the move, and no other enemy adds a bullet; after the move, a touch costs exactly `18 * dt + 1` hp and ends the game exactly when hp falls to 0 or below; no touch leaves the ship alone and the game going; scrap and the flags stay |
| Combat.ContactIgnoresKind | static/js/game.js:381-383 | the kind of the enemy changes neither the hp a contact costs nor whether it ends the game |
| Combat.ContactTickIsSurvivable | static/js/game.js:381-384 | in a step of at most 50 ms one enemy's contact costs at most 1.9 hp, so a ship with more left survives it |
| Combat.EnemyPass | static/js/game.js:379-386 | the enemy loop keeps the number of enemies and the wave, and reports a game over exactly when it turned `running` off with hp at or below 0 |
| Combat.EnemyStepEffect | static/js/game.js:379-386 | one enemy iteration only lowers hp, pays no scrap, only turns `running` off, and keeps the rest of the ship, the wave and the flags |
| Combat.EnemyPassEffect | static/js/game.js:379-386 | the same holds for the whole enemy loop |
| Combat.Skirmish | static/js/game.js:345-386 | the fight part of an update never changes the wave |
| Combat.NextWave | static/js/game.js:393-394 | the wave rises by one, the new wave's `SpawnCount` enemies are appended behind the ones there, and the ship, scrap and bullets stay |
| Combat.Update | static/js/game.js:345-395 | the defining model of `update(dt)`: the fight, then the next wave when none is left; `WaveRule`, `UpdateOnlyHurts` and `UpdateKeepsConsistent` state its properties, and `SessionState.Update` is proved against it |
| Combat.WaveRule | static/js/game.js:392-395 | the wave rises by exactly one, with the new wave's enemies appended, exactly when the tick ended without a game over and with no enemy left; otherwise nothing follows the fight; a tick that ends the game keeps the wave and leaves hp at or below 0 |
| Combat.SkirmishEffect | static/js/game.js:349-386 | from the session after the player's move and shot, the two loops only lower hp, only raise scrap, only turn `running` off, leave a running, hurt ship above 0 hp, and keep the rest of the ship, the wave and the flags |
| Combat.UpdateOnlyHurts | static/js/game.js:345-395 | an update keeps max hp, weapon and level, only lowers hp, only raises scrap, never turns `running` on, keeps the flags, and leaves a running, hurt ship above 0 hp |
| Combat.UpdateKeepsConsistent | static/js/game.js:345-395 | an update keeps the session invariant: wave at least 1, scrap at least 0, level and max hp at least 1, hp at most max hp, and hp above 0 while running |
| Persistence.ParseWeapon | static/js/game.js:448 | the stored name is kept exactly, and it reads as an unknown weapon exactly when it is none of the four names |
| Persistence.ParseWeaponName | static/js/game.js:448 | reading back a weapon's name gives the same weapon |
| Persistence.Initial | static/js/game.js:58-60 | the start-up session is running and unpaused with the shop closed, at wave 1 with no scrap and no entities, and a new ship at the arena centre, and it satisfies the session invariant |
| Persistence.Restore | static/js/game.js:445-448 | each stored field that is present and not falsy (0, 0.0, the empty string) replaces the session's, every other field keeps its value; a missing snapshot changes nothing |
| Persistence.Snapshot | static/js/game.js:457 | the defining object the save timer stores; `SnapshotRoundTrip`, `DeadAtZeroLoadsHealed` and `DeadBelowZeroLoadsRunning` state what loading it gives |
| Persistence.SnapshotRoundTrip | static/js/game.js:457 | saving a consistent running session and loading it into a fresh one brings back wave, scrap, max hp, hp, weapon and level, and the result is consistent |
| Persistence.DeadAtZeroLoadsHealed | static/js/game.js:447 | a save with hp exactly 0 loads with 130 hp |
| Persistence.DeadBelowZeroLoadsRunning | static/js/game.js:447 | a save with negative hp loads into a running session with that hp, which breaks the session invariant |
| Persistence.EmptyWeaponNameKeepsBlaster | static/js/game.js:448 | an empty stored weapon name keeps the blaster |
| Session.Restarted | static/js/game.js:423-428 | the defining state `restart(fresh)` leaves before its spawn; `FreshRestartIsNewGame` and `RestartKeepsProgress` state it for both arguments |
| Session.FreshRestartIsNewGame | static/js/game.js:423-431 | a fresh restart gives the start-up session except for the kept weapon, shot stamp and shop flag |
| Session.RestartKeepsProgress | static/js/game.js:424-428 | a restart that keeps progress keeps wave, scrap, max hp, weapon and level, puts the ship at the centre at rest with hp at max hp, empties the lists, keeps the shot clock and the shop flag, and gives a consistent running session even after a death |
| Session.Ticked | static/js/game.js:436-437 | the defining frame step of `tick`; `TickKeepsConsistent` and `ShopDoesNotGateUpdate` state its properties, and `SessionState.Tick` is proved against it |
| Session.TickKeepsConsistent | static/js/game.js:435-437 | a tick keeps the session invariant when time does not run backwards and the draws lie in [0, 1) |
| Session.ShopDoesNotGateUpdate | static/js/game.js:437 | with the shop flag set but the session unpaused, a tick runs the full update |
| Session.SessionState.Bootstrap | static/js/game.js:441-450 | start-up gives the start-up session with the snapshot merged in and the first wave spawned |
| Session.SessionState.SpawnWave | static/js/game.js:221-232 | the push loop appends exactly the wave's enemies behind the existing ones and changes nothing else |
| Session.SessionState.Fire | static/js/game.js:97-114 | the shot appends exactly the volley and changes nothing else |
| Session.SessionState.PlayerUpdate | static/js/game.js:88-95 | the player update leaves the session as the player phase says |
| Session.SessionState.StepBullet | static/js/game.js:350-375 | the in-place bullet iteration leaves the session as `BulletStep` says and reports the same game over |
| Session.SessionState.LandPlayerShot | static/js/game.js:352-368 | the in-place player-bullet branch leaves the session as `PlayerShot` says |
| Session.SessionState.LandShotAtShip | static/js/game.js:369-374 | the in-place enemy-bullet branch leaves the session as `ShotAtShip` says and reports the same game over |
| Session.SessionState.ResolveBullets | static/js/game.js:349-375 | the backwards splicing loop leaves the session as `BulletPass` says |
| Session.SessionState.StepEnemy | static/js/game.js:379-386 | the in-place enemy iteration leaves the session as `EnemyStep` says |
| Session.SessionState.MoveEnemies | static/js/game.js:379-386 | the backwards enemy loop leaves the session as `EnemyPass` says |
| Session.SessionState.Fight | static/js/game.js:345-386 | the update up to the wave check leaves the session as `Skirmish` says |
| Session.SessionState.Update | static/js/game.js:345-395 | `update(dt)` leaves the session as `Combat.Update` says |
| Session.SessionState.Tick | static/js/game.js:435-437 | a frame records its time and runs the update with the clamped step only when neither paused nor over |
| Session.SessionState.TogglePause | static/js/game.js:462 | the pause button flips `paused` and nothing else |
| Session.SessionState.OpenShop | static/js/game.js:257-258 | opening the shop sets `paused` and `shopOpen` and nothing else |
| Session.SessionState.CloseShop | static/js/game.js:297 | closing the shop clears `shopOpen` and `paused` and nothing else |
| Session.BoughtAsWritten | static/js/game.js:289-295 | the defining shop handler as written, where `updateUI()` throws before `openShop()`; `AsWrittenMissesOnlyTheReopen` and `PurchaseAfterUnpauseStaysUnpaused` state its behaviour |
| Session.AsWrittenMissesOnlyTheReopen | static/js/game.js:289-295 | as written, a shop button never changes the pause or shop flags and changes nothing but scrap and the ship; a refused purchase changes nothing and one that goes through pays exactly the cost; it agrees with the intended handler exactly when the purchase is refused or the game was already paused in the shop |
| Session.Bought | static/js/game.js:289-295 | a shop button as intended: a purchase that goes through leaves the game paused in the shop, a refused one changes nothing, and apart from the two flags it is `BoughtAsWritten` |
| Session.PurchaseAfterUnpauseStaysUnpaused | static/js/game.js:289 | with 25 scrap and the shop open but unpaused, a hull purchase as written pays and adds the 30 max hp yet leaves the game unpaused, where the intended handler pauses it |
| Session.PurchaseLeavesShopPaused | static/js/game.js:257-258 | a purchase that goes through always leaves the game paused in the shop; a refused one changes nothing |
| Session.SessionState.Buy | static/js/game.js:288-296 | a shop button leaves the session as `Bought` says: the purchase, then the shop re-opened |
| Session.SessionState.Restart | static/js/game.js:423-431 | `restart(fresh)` leaves the restarted session with its wave spawned |

## Findings

| source | as written | input that shows it | evidently intended | confidence | as-written member | corrected member |
|---|---|---|---|---|---|---|
| static/js/game.js:289-295 | each shop handler calls `updateUI()`, which the script defines nowhere, so it throws after the purchase and `openShop()` never runs | open the shop, press the pause button (`paused` false, shop open), buy the hull upgrade with 25 scrap | the shop is re-drawn and the game paused again, as `openShop()` does | medium, not executed: a global `updateUI` from a page outside this script would change the outcome | Session.PurchaseAfterUnpauseStaysUnpaused | Session.PurchaseLeavesShopPaused |

## Left out

- Drawing is not modelled: `render`, every `draw`, and the HUD text.
- The overlay markup and the event wiring are not modelled: keyboard and
  mouse listeners, and the shop, leaderboard and game-over HTML. Only the
  state changes the handlers make are modelled.
- The leaderboard's own pause and resume (static/js/game.js:300-311) are
  not modelled. They go through the network fetch and are part of the
  overlay.
- `gameOver()` is modelled only as `running := false`. Its cloud save and
  leaderboard fetch are network calls.
- Particles are not modelled: muzzle, hit, death and background bursts,
  and their update loop. They have no effect on play.
- The storage calls are not modelled: `saveState`, `loadState`,
  `resetSave`, and the six-second save timer. The snapshot is a value.
  Stored fields of the wrong JSON type, and `NaN`, are not modelled.
- `requestAnimationFrame` scheduling is not modelled. Each frame is one
  call of `Tick`.
- The initial `lastTime` of script load (static/js/game.js:434) is not
  modelled. `bootstrap` overwrites it before the first frame.
- The steering physics are not modelled: the player's acceleration,
  damping and speed cap, the enemy AI, and every angle computed with
  `atan2`, `cos` and `sin`. The new velocities and the shot headings are
  inputs. So are the shotgun's random pellet spread and the spread
  weapon's fixed offsets, which are part of the headings.
- Spawn points are inputs (`Waves.SpawnDraw`). The source places each
  spawn 160 to 270 units from the arena centre
  (static/js/game.js:224-227); the model does not enforce that ring.
- Floating point is not modelled. Positions, hp and time are exact reals.
  `Math.floor(wave * 1.6)` is computed on integers, and `Math.hypot` is
  replaced by the squared-distance test
  (`Geometry.OverlapsIsDistanceBelowRadii` relates the two).
- Combat.Controls: a kiter reads `performance.now()` inside its own
  update. The model gives every enemy the one clock of the tick.
- Combat.Controls: the model takes one reward draw per bullet index. The
  source calls `Math.random()` only when a kill happens, so which draw a
  kill consumes is not tracked.
- Session.SessionState: the ship is a value field that the methods
  reassign. The identity of `state.player` as a shared object is not
  modelled; nothing else in the rules holds a reference to it.
- Session.SessionState.Bootstrap: the snapshot is merged into the
  start-up values before the object exists, rather than into `state`
  field by field after it. The fields and the order of the merge are the
  same.
- `app.py`, the score server, is not part of this model.
