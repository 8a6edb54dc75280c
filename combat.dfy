/** The per-tick rules of `update(dt)` as functions on the session value:
    the player's move and shot, the backwards bullet pass, the backwards
    enemy pass, and the wave check. The session class runs the same rules
    in place and is proved equal to these functions. */
module Combat {
  import opened Entities
  import opened Waves

  /** A steering decision for one enemy: its new velocity (from the AI,
      whose trigonometry is not modelled) and, for a kiter, the heading of
      the shot it may fire. */
  datatype Steer = Steer(vx: real, vy: real, aim: Dir)

  /** What one update reads from outside the rules: `performance.now()`,
      whether the mouse is down, the player's new velocity (input and speed
      cap not modelled), the heading of each bullet a shot would emit,
      a steering decision per enemy (by index), a `Math.random()` draw per
      bullet index for a kill reward, and the draws for the next wave. */
  datatype Controls = Controls(
    clock: real, mouseDown: bool, vx: real, vy: real,
    aim: seq<Dir>, steer: seq<Steer>, rolls: seq<real>, spawn: seq<SpawnDraw>)

  /** The controls supply one entry for everything the update may ask for. */
  predicate Fits(w: World, c: Controls)
  {
    && |c.aim| == BulletCount(w.player.weapon, w.player.weaponLevel)
    && |c.rolls| >= |w.bullets| + |c.aim|
    && |c.steer| >= |w.enemies|
    && |c.spawn| >= SpawnCount(w.wave + 1)
  }

  /** Every random draw lies in [0, 1), as `Math.random()` promises. */
  predicate UnitRolls(rolls: seq<real>)
  {
    forall k :: 0 <= k < |rolls| ==> 0.0 <= rolls[k] < 1.0
  }

  /** `Math.min(0.05, (now - lastTime) / 1000)`: the step never exceeds
      50 ms, and a shorter gap is used as it is. */
  function FrameDt(lastTime: real, now: real): (dt: real)
    ensures dt <= 0.05
    ensures (now - lastTime) / 1000.0 <= 0.05 ==> dt == (now - lastTime) / 1000.0
    ensures 0.05 < (now - lastTime) / 1000.0 ==> dt == 0.05
  {
    var elapsed := (now - lastTime) / 1000.0;
    if elapsed < 0.05 then elapsed else 0.05
  }

  /** The shot gate of `Player.update`: mouse down and more than the fire
      rate's milliseconds since the last shot. */
  predicate TriggerOpen(w: World, c: Controls)
  {
    c.mouseDown && c.clock - w.lastShot > FireRate(w.player.weapon, w.player.weaponLevel) as real
  }

  /** `state.player.update(dt)` without the steering: move, clamp, and fire
      when the gate is open. */
  function PlayerPhase(w: World, dt: real, c: Controls): World
    requires |c.aim| == BulletCount(w.player.weapon, w.player.weaponLevel)
  {
    var p := MovePlayer(w.player, c.vx, c.vy, dt);
    if TriggerOpen(w, c) then
      w.(player := p, lastShot := c.clock, bullets := w.bullets + Volley(p, c.aim))
    else w.(player := p)
  }

  /** The ship moves by `MovePlayer`; a shot is taken exactly when the gate
      is open, stamps the clock and appends the volley of the moved ship
      behind the bullets already in flight; nothing else changes. */
  lemma FireGate(w: World, dt: real, c: Controls)
    requires |c.aim| == BulletCount(w.player.weapon, w.player.weaponLevel)
    ensures var r := PlayerPhase(w, dt, c);
      && r.player == MovePlayer(w.player, c.vx, c.vy, dt)
      && r.(player := w.player, lastShot := w.lastShot, bullets := w.bullets) == w
      && (TriggerOpen(w, c) ==> r.bullets == w.bullets + Volley(r.player, c.aim))
      && (!TriggerOpen(w, c) ==> r.bullets == w.bullets)
      && r.bullets[..|w.bullets|] == w.bullets
      && |r.bullets| == |w.bullets| + (if TriggerOpen(w, c) then |c.aim| else 0)
      && (TriggerOpen(w, c) ==> r.lastShot == c.clock)
      && (!TriggerOpen(w, c) ==> r.lastShot == w.lastShot)
      && forall k :: |w.bullets| <= k < |r.bullets| ==> r.bullets[k].owner == FromPlayer
  {
    var r := PlayerPhase(w, dt, c);
    if TriggerOpen(w, c) {
      assert r.bullets == w.bullets + Volley(r.player, c.aim);
    }
  }

  /** The index the inner loop `for (j = enemies.length - 1; j >= 0; j--)`
      stops at: the last enemy the bullet overlaps, or -1 for none. */
  function LastHit(b: Bullet, es: seq<Enemy>): (j: int)
    ensures -1 <= j < |es|
    ensures 0 <= j ==> BulletHits(b, es[j]) && forall k :: j < k < |es| ==> !BulletHits(b, es[k])
    ensures j < 0 ==> forall k :: 0 <= k < |es| ==> !BulletHits(b, es[k])
  {
    if es == [] then -1
    else if BulletHits(b, es[|es| - 1]) then |es| - 1
    else LastHit(b, es[..|es| - 1])
  }

  /** The inner scan itself, from the end of the enemy list. */
  method FindTarget(b: Bullet, es: seq<Enemy>) returns (j: int)
    ensures j == LastHit(b, es)
  {
    j := |es| - 1;
    while j >= 0
      invariant -1 <= j < |es|
      invariant LastHit(b, es) == LastHit(b, es[..j + 1])
      decreases j
    {
      if BulletHits(b, es[j]) {
        return;
      }
      assert es[..j + 1][..j] == es[..j];
      j := j - 1;
    }
  }

  /** A player bullet's hit on enemy `j`: damage by weapon level; a kill
      removes the enemy and pays `4 + k + wave` scrap. */
  function Strike(w: World, j: nat, roll: real): (r: World)
    requires j < |w.enemies|
    ensures r.player == w.player && r.bullets == w.bullets && r.wave == w.wave && r.running == w.running
    ensures w.enemies[j].hp <= ShotDamage(w.player.weaponLevel) ==>
      r.enemies == Remove(w.enemies, j) && r.scrap == w.scrap + KillReward(w.wave, roll)
    ensures ShotDamage(w.player.weaponLevel) < w.enemies[j].hp ==>
      && r.enemies == w.enemies[j := w.enemies[j].(hp := w.enemies[j].hp - ShotDamage(w.player.weaponLevel))]
      && r.scrap == w.scrap
  {
    var e := w.enemies[j];
    var hp := e.hp - ShotDamage(w.player.weaponLevel);
    if hp <= 0 then w.(enemies := Remove(w.enemies, j), scrap := w.scrap + KillReward(w.wave, roll))
    else w.(enemies := w.enemies[j := e.(hp := hp)])
  }

  /** How a pass may change the session: hp can only fall, and any fall
      that leaves the session running leaves hp above zero; `running` can
      only turn off; scrap can only rise; the rest of the ship, the wave and
      the flags stay. */
  predicate PassEffect(w: World, r: World)
  {
    && r.paused == w.paused && r.shopOpen == w.shopOpen
    && r.wave == w.wave && r.lastShot == w.lastShot
    && r.player == w.player.(hp := r.player.hp)
    && r.player.hp <= w.player.hp
    && (r.running ==> w.running)
    && (r.running && r.player.hp != w.player.hp ==> 0.0 < r.player.hp)
    && w.scrap <= r.scrap
  }

  lemma PassEffectChains(a: World, b: World, c: World)
    requires PassEffect(a, b) && PassEffect(b, c)
    ensures PassEffect(a, c)
  {
  }

  /** One iteration of the bullet loop at index `i`; the flag is `true` when
      it ended the game (and the update returns). */
  function BulletStep(w: World, i: nat, dt: real, roll: real): (r: (World, bool))
    requires i < |w.bullets|
    ensures i <= |r.0.bullets| <= |w.bullets| && r.0.bullets[..i] == w.bullets[..i]
    ensures |r.0.enemies| <= |w.enemies| && r.0.wave == w.wave
    ensures r.0.running == (w.running && !r.1)
    ensures r.1 ==> r.0.player.hp <= 0.0
  {
    var b := Advance(w.bullets[i], dt);
    if b.life <= 0.0 then (w.(bullets := Remove(w.bullets, i)), false)
    else if b.owner == FromPlayer then (PlayerShot(w, i, b, roll), false)
    else ShotAtShip(w, i, b)
  }

  /** A live player bullet `b` at index `i`: the last enemy it overlaps
      takes the hit and the bullet is spent; with none it flies on. */
  function PlayerShot(w: World, i: nat, b: Bullet, roll: real): (r: World)
    requires i < |w.bullets|
    ensures r.player == w.player && r.running == w.running && r.wave == w.wave
    ensures r.bullets == Remove(w.bullets, i) || r.bullets == w.bullets[i := b]
    ensures |r.enemies| <= |w.enemies|
  {
    var j := LastHit(b, w.enemies);
    if j < 0 then w.(bullets := w.bullets[i := b])
    else Strike(w, j, roll).(bullets := Remove(w.bullets, i))
  }

  /** A live enemy bullet `b` at index `i`: a hit on the ship costs 10 hp
      and spends the bullet; with no hit it flies on. */
  function ShotAtShip(w: World, i: nat, b: Bullet): (r: (World, bool))
    requires i < |w.bullets|
    ensures r.0.enemies == w.enemies && r.0.scrap == w.scrap && r.0.wave == w.wave
    ensures r.0.bullets == Remove(w.bullets, i) || r.0.bullets == w.bullets[i := b]
    ensures r.0.running == (w.running && !r.1)
    ensures r.1 ==> r.0.player.hp <= 0.0
  {
    if BulletHitsPlayer(b, w.player) then
      var hurt := w.(player := w.player.(hp := w.player.hp - 10.0), bullets := Remove(w.bullets, i));
      if hurt.player.hp <= 0.0 then (hurt.(running := false), true) else (hurt, false)
    else (w.(bullets := w.bullets[i := b]), false)
  }

  /** A bullet whose life has run out is dropped before any collision test:
      nothing but the bullet list changes. */
  lemma ExpiredBulletHitsNothing(w: World, i: nat, dt: real, roll: real)
    requires i < |w.bullets| && Advance(w.bullets[i], dt).life <= 0.0
    ensures BulletStep(w, i, dt, roll) == (w.(bullets := Remove(w.bullets, i)), false)
  {
  }

  /** A live player bullet damages at most one enemy, the last one in the
      list it overlaps, by exactly `10 + 6 * weaponLevel`, and is spent;
      that enemy goes, with its reward, exactly when its hp reaches 0. */
  lemma PlayerBulletStrikesOnce(w: World, i: nat, dt: real, roll: real)
    requires i < |w.bullets|
    requires Advance(w.bullets[i], dt).life > 0.0 && w.bullets[i].owner == FromPlayer
    ensures var b := Advance(w.bullets[i], dt);
      var r, j := BulletStep(w, i, dt, roll), LastHit(b, w.enemies);
      && !r.1 && r.0.player == w.player && r.0.running == w.running
      && (j < 0 ==> r.0 == w.(bullets := w.bullets[i := b]))
      && (0 <= j ==>
            var hp := w.enemies[j].hp - ShotDamage(w.player.weaponLevel);
            && r.0.bullets == Remove(w.bullets, i)
            && (hp <= 0 ==> r.0.enemies == Remove(w.enemies, j) &&
                            r.0.scrap == w.scrap + KillReward(w.wave, roll))
            && (0 < hp ==> r.0.enemies == w.enemies[j := w.enemies[j].(hp := hp)] &&
                           r.0.scrap == w.scrap))
  {
  }

  /** A live enemy bullet that reaches the ship costs exactly 10 hp and is
      spent; the game ends exactly when hp falls to 0 or below. */
  lemma EnemyBulletHurts(w: World, i: nat, dt: real, roll: real)
    requires i < |w.bullets|
    requires Advance(w.bullets[i], dt).life > 0.0 && w.bullets[i].owner == FromEnemy
    requires BulletHitsPlayer(Advance(w.bullets[i], dt), w.player)
    ensures var r := BulletStep(w, i, dt, roll);
      && r.0.player.hp == w.player.hp - 10.0
      && r.0.bullets == Remove(w.bullets, i)
      && r.0.enemies == w.enemies && r.0.scrap == w.scrap
      && (r.1 <==> w.player.hp - 10.0 <= 0.0)
  {
  }

  /** A live enemy bullet that misses the ship only moves on: hp, the
      game and everything else stay. */
  lemma EnemyBulletMisses(w: World, i: nat, dt: real, roll: real)
    requires i < |w.bullets|
    requires Advance(w.bullets[i], dt).life > 0.0 && w.bullets[i].owner == FromEnemy
    requires !BulletHitsPlayer(Advance(w.bullets[i], dt), w.player)
    ensures BulletStep(w, i, dt, roll) == (w.(bullets := w.bullets[i := Advance(w.bullets[i], dt)]), false)
  {
  }

  /** The bullet loop `for (i = bullets.length - 1; i >= 0; i--)` over the
      first `n` bullets, last first; stops at a game over. */
  function BulletPass(w: World, n: nat, dt: real, rolls: seq<real>): (r: (World, bool))
    requires n <= |w.bullets| && n <= |rolls|
    ensures |r.0.enemies| <= |w.enemies| && r.0.wave == w.wave
    ensures r.0.running == (w.running && !r.1)
    ensures r.1 ==> r.0.player.hp <= 0.0
    decreases n
  {
    if n == 0 then (w, false)
    else
      var s := BulletStep(w, n - 1, dt, rolls[n - 1]);
      if s.1 then s else BulletPass(s.0, n - 1, dt, rolls)
  }

  lemma PlayerShotEffect(w: World, i: nat, b: Bullet, roll: real)
    requires i < |w.bullets| && 0.0 <= roll < 1.0 && -4 <= w.wave
    ensures PassEffect(w, PlayerShot(w, i, b, roll))
  {
  }

  lemma ShotAtShipEffect(w: World, i: nat, b: Bullet)
    requires i < |w.bullets|
    ensures PassEffect(w, ShotAtShip(w, i, b).0)
  {
  }

  lemma BulletStepEffect(w: World, i: nat, dt: real, roll: real)
    requires i < |w.bullets| && 0.0 <= roll < 1.0 && -4 <= w.wave
    ensures PassEffect(w, BulletStep(w, i, dt, roll).0)
  {
    var b := Advance(w.bullets[i], dt);
    if b.life > 0.0 {
      if b.owner == FromPlayer {
        PlayerShotEffect(w, i, b, roll);
      } else {
        ShotAtShipEffect(w, i, b);
      }
    }
  }

  lemma {:induction false} BulletPassEffect(w: World, n: nat, dt: real, rolls: seq<real>)
    requires n <= |w.bullets| && n <= |rolls| && UnitRolls(rolls) && -4 <= w.wave
    ensures PassEffect(w, BulletPass(w, n, dt, rolls).0)
    decreases n
  {
    if n > 0 {
      var s := BulletStep(w, n - 1, dt, rolls[n - 1]);
      BulletStepEffect(w, n - 1, dt, rolls[n - 1]);
      if !s.1 {
        BulletPassEffect(s.0, n - 1, dt, rolls);
        PassEffectChains(w, s.0, BulletPass(s.0, n - 1, dt, rolls).0);
      }
    }
  }

  /** One bullet kills at most one enemy, and a kill pays its reward. */
  lemma BulletStepReward(w: World, i: nat, dt: real, roll: real)
    requires i < |w.bullets|
    ensures var r := BulletStep(w, i, dt, roll).0;
      || (|r.enemies| == |w.enemies| && r.scrap == w.scrap)
      || (|r.enemies| == |w.enemies| - 1 && r.scrap == w.scrap + KillReward(w.wave, roll))
  {
  }

  /** `a` added `k` times. The reward bounds of a pass are stated with it,
      which keeps the solver away from products of unknowns. */
  function Times(a: int, k: nat): int
  {
    if k == 0 then 0 else a + Times(a, k - 1)
  }

  lemma {:induction false} TimesIsProduct(a: int, k: nat)
    ensures Times(a, k) == a * k
  {
    if k > 0 {
      TimesIsProduct(a, k - 1);
    }
  }

  /** From `w` to `m` at most one enemy went, and a kill paid between
      `4 + wave` and `9 + wave` scrap while no kill paid nothing. */
  predicate PaidForOne(w: World, m: World)
  {
    var k, g := |w.enemies| - |m.enemies|, m.scrap - w.scrap;
    (k == 0 && g == 0) || (k == 1 && 4 + w.wave <= g <= 9 + w.wave)
  }

  /** From `w` to `r` some enemies went, and the scrap earned lies between
      `4 + wave` and `9 + wave` added once per enemy gone. */
  predicate PaidPerKill(w: World, r: World)
  {
    var kills := |w.enemies| - |r.enemies|;
    0 <= kills && Times(4 + w.wave, kills) <= r.scrap - w.scrap <= Times(9 + w.wave, kills)
  }

  lemma PaidPerKillChains(w: World, m: World, r: World)
    requires PaidForOne(w, m) && PaidPerKill(m, r) && m.wave == w.wave
    ensures PaidPerKill(w, r)
  {
    var k2 := |m.enemies| - |r.enemies|;
    if |w.enemies| - |m.enemies| == 1 {
      assert |w.enemies| - |r.enemies| == k2 + 1;
      assert Times(4 + w.wave, k2 + 1) == 4 + w.wave + Times(4 + w.wave, k2);
      assert Times(9 + w.wave, k2 + 1) == 9 + w.wave + Times(9 + w.wave, k2);
    }
  }

  /** One bullet either kills nothing and pays nothing, or kills one enemy
      and pays between `4 + wave` and `9 + wave` scrap. */
  lemma BulletStepPays(w: World, i: nat, dt: real, roll: real)
    requires i < |w.bullets| && 0.0 <= roll < 1.0
    ensures PaidForOne(w, BulletStep(w, i, dt, roll).0)
  {
    BulletStepReward(w, i, dt, roll);
  }

  lemma BulletPassUnfold(w: World, n: nat, dt: real, rolls: seq<real>)
    requires 0 < n <= |w.bullets| && n <= |rolls|
    ensures var s := BulletStep(w, n - 1, dt, rolls[n - 1]);
      BulletPass(w, n, dt, rolls).0 == (if s.1 then s.0 else BulletPass(s.0, n - 1, dt, rolls).0)
  {
  }

  /** A bullet pass over `n` bullets kills at most `n` enemies. */
  lemma {:induction false} BulletPassKills(w: World, n: nat, dt: real, rolls: seq<real>)
    requires n <= |w.bullets| && n <= |rolls| && UnitRolls(rolls)
    ensures |w.enemies| - |BulletPass(w, n, dt, rolls).0.enemies| <= n
    decreases n
  {
    if n > 0 {
      var s := BulletStep(w, n - 1, dt, rolls[n - 1]);
      BulletPassUnfold(w, n, dt, rolls);
      BulletStepPays(w, n - 1, dt, rolls[n - 1]);
      if !s.1 {
        BulletPassKills(s.0, n - 1, dt, rolls);
      }
    }
  }

  /** Kill accounting of a bullet pass: each kill pays between `4 + wave`
      and `9 + wave` scrap, and nothing else pays. */
  lemma {:induction false} BulletPassRewards(w: World, n: nat, dt: real, rolls: seq<real>)
    requires n <= |w.bullets| && n <= |rolls| && UnitRolls(rolls)
    ensures PaidPerKill(w, BulletPass(w, n, dt, rolls).0)
    decreases n
  {
    if n == 0 {
      assert PaidPerKill(w, w);
    } else {
      var s := BulletStep(w, n - 1, dt, rolls[n - 1]);
      BulletPassUnfold(w, n, dt, rolls);
      BulletStepPays(w, n - 1, dt, rolls[n - 1]);
      if s.1 {
        assert PaidPerKill(s.0, s.0);
        PaidPerKillChains(w, s.0, s.0);
      } else {
        BulletPassRewards(s.0, n - 1, dt, rolls);
        PaidPerKillChains(w, s.0, BulletPass(s.0, n - 1, dt, rolls).0);
      }
    }
  }

  /** At most one kill per bullet, and `kills * (4 + wave)` to
      `kills * (9 + wave)` scrap for them. */
  lemma BulletPassPays(w: World, n: nat, dt: real, rolls: seq<real>)
    requires n <= |w.bullets| && n <= |rolls| && UnitRolls(rolls)
    ensures var r := BulletPass(w, n, dt, rolls).0;
      var kills := |w.enemies| - |r.enemies|;
      && 0 <= kills <= n
      && (4 + w.wave) * kills <= r.scrap - w.scrap <= (9 + w.wave) * kills
  {
    BulletPassKills(w, n, dt, rolls);
    BulletPassRewards(w, n, dt, rolls);
    var kills := |w.enemies| - |BulletPass(w, n, dt, rolls).0.enemies|;
    TimesIsProduct(4 + w.wave, kills);
    TimesIsProduct(9 + w.wave, kills);
  }

  /** One iteration of the enemy loop at index `i`: the enemy moves (a
      kiter whose cooldown of 1200 ms has passed first fires from where it
      stands), and if it then touches the ship, hp falls by
      `18 * dt + 1`; the flag is `true` when that ended the game. */
  function EnemyStep(w: World, i: nat, dt: real, clock: real, s: Steer): (r: (World, bool))
    requires i < |w.enemies|
    ensures |r.0.enemies| == |w.enemies| && r.0.wave == w.wave
    ensures r.0.running == (w.running && !r.1)
    ensures r.1 ==> r.0.player.hp <= 0.0
  {
    var e := w.enemies[i];
    var fires := e.kind == Kiter && clock - e.lastShot > 1200.0;
    var e' := MoveEnemy(if fires then e.(lastShot := clock) else e, s.vx, s.vy, dt);
    var w1 := w.(enemies := w.enemies[i := e'],
                 bullets := if fires then w.bullets + [EnemyShot(e, s.aim)] else w.bullets);
    if Touches(e', w.player) then
      var hurt := w1.(player := w.player.(hp := w.player.hp - ContactDamage(dt)));
      if hurt.player.hp <= 0.0 then (hurt.(running := false), true) else (hurt, false)
    else (w1, false)
  }

  /** What one iteration of the enemy loop does: the enemy at `i` is
      replaced by its moved self; a kiter past its 1200 ms cooldown stamps
      the clock and adds exactly one shot from the point before the move;
      touching the ship after the move costs exactly `18 * dt + 1` hp and
      ends the game exactly when hp falls to 0 or below; no touch leaves the
      ship alone and the game going. */
  lemma EnemyStepOutcome(w: World, i: nat, dt: real, clock: real, s: Steer)
    requires i < |w.enemies|
    ensures var e := w.enemies[i];
      var fires := e.kind == Kiter && clock - e.lastShot > 1200.0;
      var e' := MoveEnemy(if fires then e.(lastShot := clock) else e, s.vx, s.vy, dt);
      var r := EnemyStep(w, i, dt, clock, s);
      && r.0.enemies == w.enemies[i := e']
      && (fires ==> r.0.bullets == w.bullets + [EnemyShot(e, s.aim)])
      && (!fires ==> r.0.bullets == w.bullets)
      && r.0.scrap == w.scrap && r.0.paused == w.paused && r.0.shopOpen == w.shopOpen
      && (Touches(e', w.player) ==>
            && r.0.player == w.player.(hp := w.player.hp - ContactDamage(dt))
            && (r.1 <==> w.player.hp - ContactDamage(dt) <= 0.0))
      && (!Touches(e', w.player) ==> r.0.player == w.player && !r.1)
  {
  }

  /** Contact damage is the same for every kind of enemy: changing the kind
      of enemy `i` changes neither the hp it costs nor whether the game ends. */
  lemma ContactIgnoresKind(w: World, i: nat, dt: real, clock: real, s: Steer, kind: EnemyKind)
    requires i < |w.enemies|
    ensures var w' := w.(enemies := w.enemies[i := w.enemies[i].(kind := kind)]);
      && EnemyStep(w', i, dt, clock, s).0.player == EnemyStep(w, i, dt, clock, s).0.player
      && EnemyStep(w', i, dt, clock, s).1 == EnemyStep(w, i, dt, clock, s).1
  {
  }

  /** One enemy's contact costs at most 1.9 hp in a tick of at most 50 ms,
      whatever its kind: a ship with more than that left survives it. */
  lemma ContactTickIsSurvivable(w: World, i: nat, dt: real, clock: real, s: Steer)
    requires i < |w.enemies| && 0.0 <= dt <= 0.05 && 1.9 < w.player.hp
    ensures var r := EnemyStep(w, i, dt, clock, s);
      !r.1 && w.player.hp - 1.9 <= r.0.player.hp && 0.0 < r.0.player.hp
  {
  }

  /** The enemy loop over the first `n` enemies, last first; stops at a
      game over. */
  function EnemyPass(w: World, n: nat, dt: real, clock: real, steer: seq<Steer>): (r: (World, bool))
    requires n <= |w.enemies| && n <= |steer|
    ensures |r.0.enemies| == |w.enemies| && r.0.wave == w.wave
    ensures r.0.running == (w.running && !r.1)
    ensures r.1 ==> r.0.player.hp <= 0.0
    decreases n
  {
    if n == 0 then (w, false)
    else
      var s := EnemyStep(w, n - 1, dt, clock, steer[n - 1]);
      if s.1 then s else EnemyPass(s.0, n - 1, dt, clock, steer)
  }

  lemma EnemyStepEffect(w: World, i: nat, dt: real, clock: real, s: Steer)
    requires i < |w.enemies| && 0.0 <= dt
    ensures PassEffect(w, EnemyStep(w, i, dt, clock, s).0)
    ensures EnemyStep(w, i, dt, clock, s).0.scrap == w.scrap
  {
  }

  lemma {:induction false} EnemyPassEffect(w: World, n: nat, dt: real, clock: real, steer: seq<Steer>)
    requires n <= |w.enemies| && n <= |steer| && 0.0 <= dt
    ensures PassEffect(w, EnemyPass(w, n, dt, clock, steer).0)
    ensures EnemyPass(w, n, dt, clock, steer).0.scrap == w.scrap
    decreases n
  {
    if n > 0 {
      var s := EnemyStep(w, n - 1, dt, clock, steer[n - 1]);
      EnemyStepEffect(w, n - 1, dt, clock, steer[n - 1]);
      if !s.1 {
        EnemyPassEffect(s.0, n - 1, dt, clock, steer);
        PassEffectChains(w, s.0, EnemyPass(s.0, n - 1, dt, clock, steer).0);
      }
    }
  }

  /** Everything in `update` before the wave check. */
  function Skirmish(w: World, dt: real, c: Controls): (r: (World, bool))
    requires Fits(w, c)
    ensures r.0.wave == w.wave
  {
    var w1 := PlayerPhase(w, dt, c);
    var (w2, over) := BulletPass(w1, |w1.bullets|, dt, c.rolls);
    if over then (w2, true)
    else EnemyPass(w2, |w2.enemies|, dt, c.clock, c.steer)
  }

  /** `state.wave++; spawnWave(state.wave)`. */
  function NextWave(w: World, draws: seq<SpawnDraw>): (r: World)
    requires |draws| >= SpawnCount(w.wave + 1)
    ensures r.wave == w.wave + 1 && r.player == w.player && r.scrap == w.scrap && r.bullets == w.bullets
    ensures |r.enemies| == |w.enemies| + SpawnCount(w.wave + 1) && r.enemies[..|w.enemies|] == w.enemies
  {
    w.(wave := w.wave + 1, enemies := w.enemies + Spawned(w.wave + 1, draws))
  }

  /** `update(dt)`, without the particles and the HUD. */
  function Update(w: World, dt: real, c: Controls): World
    requires Fits(w, c)
  {
    var (r, over) := Skirmish(w, dt, c);
    if !over && |r.enemies| == 0 then NextWave(r, c.spawn) else r
  }

  /** The wave advances by exactly one, with a freshly spawned wave, when
      the tick did not end the game and left no enemy; otherwise it stays
      and nothing is spawned. A game over never advances the wave. */
  lemma WaveRule(w: World, dt: real, c: Controls)
    requires Fits(w, c)
    ensures var (m, over) := Skirmish(w, dt, c);
      var r := Update(w, dt, c);
      && (r.wave == w.wave + 1 <==> !over && |m.enemies| == 0)
      && (r.wave == w.wave + 1 ==> r == m.(wave := w.wave + 1, enemies := Spawned(w.wave + 1, c.spawn)))
      && (r.wave != w.wave + 1 ==> r == m && r.wave == w.wave)
      && (w.running && !r.running ==> r.wave == w.wave && r.player.hp <= 0.0)
  {
  }

  /** The fight part of an update has the effect of a pass, counted from
      the session after the player's move and shot. */
  lemma SkirmishEffect(w: World, dt: real, c: Controls)
    requires Fits(w, c) && UnitRolls(c.rolls) && 0.0 <= dt && -4 <= w.wave
    ensures PassEffect(PlayerPhase(w, dt, c), Skirmish(w, dt, c).0)
  {
    var w1 := PlayerPhase(w, dt, c);
    FireGate(w, dt, c);
    BulletPassEffect(w1, |w1.bullets|, dt, c.rolls);
    var (w2, over) := BulletPass(w1, |w1.bullets|, dt, c.rolls);
    if !over {
      EnemyPassEffect(w2, |w2.enemies|, dt, c.clock, c.steer);
      PassEffectChains(w1, w2, EnemyPass(w2, |w2.enemies|, dt, c.clock, c.steer).0);
    }
  }

  /** An update only hurts: max hp and weapon are untouched, hp never rises,
      scrap never falls, `running` never turns on, the flags stay, and if the
      session is still running after a hit its hp is above zero. */
  lemma UpdateOnlyHurts(w: World, dt: real, c: Controls)
    requires Fits(w, c) && UnitRolls(c.rolls) && 0.0 <= dt && -4 <= w.wave
    ensures var r := Update(w, dt, c);
      && r.player.maxHp == w.player.maxHp && r.player.weapon == w.player.weapon
      && r.player.weaponLevel == w.player.weaponLevel
      && r.player.hp <= w.player.hp && w.scrap <= r.scrap
      && (r.running ==> w.running)
      && (r.running && r.player.hp != w.player.hp ==> 0.0 < r.player.hp)
      && r.paused == w.paused && r.shopOpen == w.shopOpen
  {
    SkirmishEffect(w, dt, c);
    var w1 := PlayerPhase(w, dt, c);
    assert w1.player.hp == w.player.hp && w1.scrap == w.scrap && w1.running == w.running;
  }

  /** The session invariant the rules keep: a positive wave, a non-negative
      balance, a positive weapon level and max hp, hp at most max hp, and a
      running session has hp left. */
  predicate Consistent(w: World)
  {
    && 1 <= w.wave && 0 <= w.scrap
    && 1 <= w.player.weaponLevel && 1 <= w.player.maxHp
    && w.player.hp <= w.player.maxHp as real
    && (w.running ==> 0.0 < w.player.hp)
  }

  lemma UpdateKeepsConsistent(w: World, dt: real, c: Controls)
    requires Fits(w, c) && UnitRolls(c.rolls) && 0.0 <= dt
    requires Consistent(w)
    ensures Consistent(Update(w, dt, c))
  {
    UpdateOnlyHurts(w, dt, c);
  }
}
