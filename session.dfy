/** The session object `state` and the handlers that change it in place:
    start-up, the per-frame tick, the pause and shop buttons, the shop
    purchases and the two restarts. Each method is proved to leave the
    session as the matching function on `World` says. */
module Session {
  import opened Geometry
  import opened Entities
  import opened Waves
  import opened Shop
  import opened Combat
  import opened Persistence

  /** `restart(fresh)` before it spawns the wave: lists emptied, the ship
      back at the centre at rest with full hp, and for a fresh start wave 1,
      no scrap, 130 max hp and weapon level 1. */
  function Restarted(w: World, newGame: bool): World
  {
    var p := w.player.(x := ARENA_WIDTH / 2.0, y := ARENA_HEIGHT / 2.0, vx := 0.0, vy := 0.0);
    var p' := if newGame then p.(maxHp := 130, hp := 130.0, weaponLevel := 1)
              else p.(hp := p.maxHp as real);
    w.(enemies := [], bullets := [], player := p',
       wave := if newGame then 1 else w.wave, scrap := if newGame then 0 else w.scrap,
       running := true, paused := false)
  }

  /** A fresh restart is the start-up session again, except that the ship
      keeps its weapon, the shot clock is not reset and the shop flag is
      left as it was. */
  lemma FreshRestartIsNewGame(w: World)
    requires w.player.radius == 16.0 && w.player.speed == 260.0
    ensures Restarted(w, true) ==
      Initial().(player := Initial().player.(weapon := w.player.weapon),
                 lastShot := w.lastShot, shopOpen := w.shopOpen)
  {
  }

  /** A restart that keeps progress keeps wave, scrap, max hp, weapon and
      level, puts the ship back at the centre at rest and revives it: from
      any session, even one that ended with hp below zero, it gives a
      consistent running session. The shot clock and the shop flag stay. */
  lemma RestartKeepsProgress(w: World)
    requires 1 <= w.wave && 0 <= w.scrap && 1 <= w.player.weaponLevel && 1 <= w.player.maxHp
    ensures var r := Restarted(w, false);
      && r.wave == w.wave && r.scrap == w.scrap
      && r.player.maxHp == w.player.maxHp && r.player.weapon == w.player.weapon
      && r.player.weaponLevel == w.player.weaponLevel
      && r.player.hp == w.player.maxHp as real
      && r.running && !r.paused && r.enemies == [] && r.bullets == []
      && r.player == w.player.(x := ARENA_WIDTH / 2.0, y := ARENA_HEIGHT / 2.0, vx := 0.0, vy := 0.0,
                               hp := w.player.maxHp as real)
      && r.lastShot == w.lastShot && r.shopOpen == w.shopOpen
      && Consistent(r)
  {
  }

  /** What `tick(now)` does to the session: the update with the clamped
      step while it is neither paused nor over, and nothing otherwise. */
  function Ticked(w: World, lastTime: real, now: real, c: Controls): World
    requires !w.paused && w.running ==> Fits(w, c)
  {
    if !w.paused && w.running then Combat.Update(w, FrameDt(lastTime, now), c) else w
  }

  /** A tick keeps the session invariant whenever time does not run
      backwards and the random draws lie in [0, 1). */
  lemma TickKeepsConsistent(w: World, lastTime: real, now: real, c: Controls)
    requires !w.paused && w.running ==> Fits(w, c)
    requires Consistent(w) && UnitRolls(c.rolls) && lastTime <= now
    ensures Consistent(Ticked(w, lastTime, now, c))
  {
    if !w.paused && w.running {
      UpdateKeepsConsistent(w, FrameDt(lastTime, now), c);
    }
  }

  /** The shop does not hold back the game: with the shop flag set but the
      session unpaused, a tick runs the full update, wave advance included. */
  lemma ShopDoesNotGateUpdate(w: World, lastTime: real, now: real, c: Controls)
    requires w.shopOpen && !w.paused && w.running && Fits(w, c)
    ensures Ticked(w, lastTime, now, c) == Combat.Update(w, FrameDt(lastTime, now), c)
  {
  }

  /** A shop button as the three handlers read once their `updateUI()`
      call throws: that name is defined nowhere in the script, so the
      balance and the effect are applied and `openShop()` is never
      reached; the pause and shop flags stay as they were. */
  function BoughtAsWritten(w: World, u: Upgrade): World
  {
    var rc := Purchase(u, w.scrap, w.player);
    w.(scrap := rc.scrap, player := rc.player)
  }

  /** A shop button as intended: when the balance covers the cost, pay,
      apply the effect and re-open the shop, which pauses the game;
      otherwise nothing changes. */
  function Bought(w: World, u: Upgrade): (r: World)
    ensures var rc := Purchase(u, w.scrap, w.player);
      && (rc.bought ==> r.paused && r.shopOpen)
      && (!rc.bought ==> r == w)
      && r.(paused := w.paused, shopOpen := w.shopOpen) == BoughtAsWritten(w, u)
  {
    var rc := Purchase(u, w.scrap, w.player);
    if rc.bought then w.(scrap := rc.scrap, player := rc.player, paused := true, shopOpen := true)
    else w
  }

  /** As written, a shop button changes only the balance and the ship,
      never the flags; a refused purchase changes nothing, one that goes
      through pays exactly the cost; and the result agrees with the
      intended handler exactly when the purchase is refused or the game
      was already paused in the shop. */
  lemma AsWrittenMissesOnlyTheReopen(w: World, u: Upgrade)
    ensures var r := BoughtAsWritten(w, u);
      && r.paused == w.paused && r.shopOpen == w.shopOpen
      && r.(scrap := w.scrap, player := w.player) == w
      && (w.scrap < Cost(u) ==> r == w)
      && (w.scrap >= Cost(u) ==> r.scrap == w.scrap - Cost(u))
      && (r == Bought(w, u) <==> w.scrap < Cost(u) || (w.paused && w.shopOpen))
  {
  }

  /** With the pause button pressed while the shop is open, a hull purchase
      as written leaves the game running behind the open shop, where the
      intended handler pauses it again. */
  lemma PurchaseAfterUnpauseStaysUnpaused()
    ensures var w := Initial().(scrap := 25, paused := false, shopOpen := true);
      && BoughtAsWritten(w, Hull).scrap == 0
      && BoughtAsWritten(w, Hull).player.maxHp == 160
      && !BoughtAsWritten(w, Hull).paused
      && Bought(w, Hull).paused
  {
  }

  /** A purchase that goes through always leaves the game paused in the
      shop, whatever the flags were; a refused one changes nothing. */
  lemma PurchaseLeavesShopPaused(w: World, u: Upgrade)
    ensures w.scrap >= Cost(u) ==> Bought(w, u).paused && Bought(w, u).shopOpen
    ensures w.scrap < Cost(u) ==> Bought(w, u) == w
  {
  }

  class SessionState {
    var running: bool
    var paused: bool
    var shopOpen: bool
    var wave: int
    var scrap: int
    var lastShot: real
    var player: Player
    var enemies: seq<Enemy>
    var bullets: seq<Bullet>
    /** The time of the previous frame, kept beside the session by `tick`. */
    var lastTime: real

    function View(): World
      reads this
    {
      World(running, paused, shopOpen, wave, scrap, lastShot, player, enemies, bullets)
    }

    /** `bootstrap()`: the initial session, the stored fields merged in,
        then the first wave spawned. */
    constructor Bootstrap(saved: Option<Saved>, draws: seq<SpawnDraw>, now: real)
      requires |draws| >= SpawnCount(Restore(Initial(), saved).wave)
      ensures View() == var r := Restore(Initial(), saved); r.(enemies := Spawned(r.wave, draws))
      ensures lastTime == now
    {
      running, paused, shopOpen := true, false, false;
      lastShot := 0.0;
      enemies, bullets := [], [];
      var wv, sc := 1, 0;
      var p := NewPlayer(ARENA_WIDTH / 2.0, ARENA_HEIGHT / 2.0);
      if saved.Some? {
        var s, sp := saved.value, PlayerOf(saved.value);
        wv := Or(s.wave, 0, wv);
        sc := Or(s.scrap, 0, sc);
        p := p.(maxHp := Or(sp.maxHp, 0, p.maxHp));
        p := p.(hp := Or(sp.hp, 0.0, p.hp));
        if sp.weapon.Some? && sp.weapon.value != "" {
          p := p.(weapon := ParseWeapon(sp.weapon.value));
        }
        p := p.(weaponLevel := Or(sp.weaponLevel, 0, p.weaponLevel));
      }
      wave, scrap, player := wv, sc, p;
      lastTime := now;
      new;
      SpawnWave(draws);
    }

    /** `spawnWave(wave)`: one enemy per draw, pushed in order behind the
        enemies already there. */
    method SpawnWave(draws: seq<SpawnDraw>)
      modifies this
      requires |draws| >= SpawnCount(wave)
      ensures View() == old(View()).(enemies := old(enemies) + Spawned(old(wave), draws))
      ensures lastTime == old(lastTime)
    {
      var count := 3 + (16 * wave) / 10;
      var i := 0;
      while i < count
        invariant 0 <= i <= SpawnCount(old(wave))
        invariant View() == old(View()).(enemies := old(enemies) + Spawned(old(wave), draws)[..i])
        invariant lastTime == old(lastTime)
      {
        var d := draws[i];
        enemies := enemies + [NewEnemy(d.x, d.y, KindFor(wave, d.roll))];
        i := i + 1;
      }
      assert Spawned(wave, draws)[..i] == Spawned(wave, draws);
    }

    /** `fire()`: one bullet per heading, pushed in order. */
    method Fire(aim: seq<Dir>)
      modifies this
      requires |aim| == BulletCount(player.weapon, player.weaponLevel)
      ensures View() == old(View()).(bullets := old(bullets) + Volley(old(player), aim))
      ensures lastTime == old(lastTime)
    {
      var speed, radius := MuzzleSpeed(player.weapon, player.weaponLevel), ShotRadius(player.weapon);
      for k := 0 to |aim|
        invariant View() == old(View()).(bullets := old(bullets) + Volley(old(player), aim)[..k])
        invariant lastTime == old(lastTime)
      {
        var shot := Bullet(player.x, player.y, aim[k].cos * speed, aim[k].sin * speed,
                           radius, FromPlayer, BULLET_LIFE);
        assert shot == Volley(old(player), aim)[k];
        assert Volley(old(player), aim)[..k + 1] == Volley(old(player), aim)[..k] + [shot];
        bullets := bullets + [shot];
      }
      assert Volley(player, aim)[..|aim|] == Volley(player, aim);
    }

    /** `state.player.update(dt)` with the steering given: move, clamp, and
        fire when the trigger gate is open. */
    method PlayerUpdate(dt: real, c: Controls)
      modifies this
      requires |c.aim| == BulletCount(player.weapon, player.weaponLevel)
      ensures View() == PlayerPhase(old(View()), dt, c)
      ensures lastTime == old(lastTime)
    {
      player := MovePlayer(player, c.vx, c.vy, dt);
      if c.mouseDown && c.clock - lastShot > FireRate(player.weapon, player.weaponLevel) as real {
        lastShot := c.clock;
        Fire(c.aim);
      }
    }

    /** The body of the bullet loop for index `i`, on the session in place;
        `true` when it ended the game. */
    method StepBullet(i: nat, dt: real, roll: real) returns (over: bool)
      modifies this
      requires i < |bullets|
      ensures (View(), over) == BulletStep(old(View()), i, dt, roll)
      ensures lastTime == old(lastTime)
    {
      var b := Advance(bullets[i], dt);
      if b.life <= 0.0 {
        bullets := Remove(bullets, i);
        over := false;
      } else if b.owner == FromPlayer {
        LandPlayerShot(i, b, roll);
        over := false;
      } else {
        over := LandShotAtShip(i, b);
      }
    }

    /** The player-bullet branch: the inner scan, the damage, a kill's
        reward and splice, and the bullet's splice. */
    method LandPlayerShot(i: nat, b: Bullet, roll: real)
      modifies this
      requires i < |bullets|
      ensures View() == PlayerShot(old(View()), i, b, roll)
      ensures lastTime == old(lastTime)
    {
      var j := FindTarget(b, enemies);
      if 0 <= j {
        var e := enemies[j];
        var hp := e.hp - ShotDamage(player.weaponLevel);
        if hp <= 0 {
          scrap := scrap + KillReward(wave, roll);
          enemies := Remove(enemies, j);
        } else {
          enemies := enemies[j := e.(hp := hp)];
        }
        bullets := Remove(bullets, i);
      } else {
        bullets := bullets[i := b];
      }
    }

    /** The enemy-bullet branch: a hit costs 10 hp and spends the bullet,
        and hp at 0 or below ends the game. */
    method LandShotAtShip(i: nat, b: Bullet) returns (over: bool)
      modifies this
      requires i < |bullets|
      ensures (View(), over) == ShotAtShip(old(View()), i, b)
      ensures lastTime == old(lastTime)
    {
      over := false;
      if BulletHitsPlayer(b, player) {
        player := player.(hp := player.hp - 10.0);
        bullets := Remove(bullets, i);
        if player.hp <= 0.0 {
          running := false;
          over := true;
        }
      } else {
        bullets := bullets[i := b];
      }
    }

    /** The bullet loop, from the last bullet to the first, splicing in
        place; it stops at a game over. */
    method ResolveBullets(dt: real, rolls: seq<real>) returns (over: bool)
      modifies this
      requires |bullets| <= |rolls|
      ensures (View(), over) == BulletPass(old(View()), old(|bullets|), dt, rolls)
      ensures lastTime == old(lastTime)
    {
      var i := |bullets|;
      while i > 0
        invariant 0 <= i <= |bullets| && i <= |rolls|
        invariant BulletPass(View(), i, dt, rolls) == BulletPass(old(View()), old(|bullets|), dt, rolls)
        invariant lastTime == old(lastTime)
        decreases i
      {
        over := StepBullet(i - 1, dt, rolls[i - 1]);
        if over {
          return;
        }
        i := i - 1;
      }
      return false;
    }

    /** The body of the enemy loop for index `i`: the enemy's own update
        (a kiter's shot, the move and the clamp), then the contact test. */
    method StepEnemy(i: nat, dt: real, clock: real, s: Steer) returns (over: bool)
      modifies this
      requires i < |enemies|
      ensures (View(), over) == EnemyStep(old(View()), i, dt, clock, s)
      ensures lastTime == old(lastTime)
    {
      var e := enemies[i];
      if e.kind == Kiter && clock - e.lastShot > 1200.0 {
        bullets := bullets + [EnemyShot(e, s.aim)];
        e := e.(lastShot := clock);
      }
      e := MoveEnemy(e, s.vx, s.vy, dt);
      enemies := enemies[i := e];
      if Touches(e, player) {
        player := player.(hp := player.hp - ContactDamage(dt));
        if player.hp <= 0.0 {
          running := false;
          return true;
        }
      }
      return false;
    }

    /** The enemy loop, from the last enemy to the first. */
    method MoveEnemies(dt: real, clock: real, steer: seq<Steer>) returns (over: bool)
      modifies this
      requires |enemies| <= |steer|
      ensures (View(), over) == EnemyPass(old(View()), old(|enemies|), dt, clock, steer)
      ensures lastTime == old(lastTime)
    {
      var i := |enemies|;
      while i > 0
        invariant 0 <= i <= |enemies| && i <= |steer|
        invariant EnemyPass(View(), i, dt, clock, steer) == EnemyPass(old(View()), old(|enemies|), dt, clock, steer)
        invariant lastTime == old(lastTime)
        decreases i
      {
        over := StepEnemy(i - 1, dt, clock, steer[i - 1]);
        if over {
          return;
        }
        i := i - 1;
      }
      return false;
    }

    /** The part of `update(dt)` before the wave check: player, bullets,
        enemies; `true` when it ended the game. */
    method Fight(dt: real, c: Controls) returns (over: bool)
      modifies this
      requires Fits(View(), c)
      ensures (View(), over) == Skirmish(old(View()), dt, c)
      ensures lastTime == old(lastTime)
    {
      FireGate(View(), dt, c);
      PlayerUpdate(dt, c);
      ghost var w1 := View();
      over := ResolveBullets(dt, c.rolls);
      assert (View(), over) == BulletPass(w1, |w1.bullets|, dt, c.rolls);
      if over {
        return;
      }
      over := MoveEnemies(dt, c.clock, c.steer);
    }

    /** `update(dt)`: the fight, then the next wave once the enemy list is
        empty; a game over returns before the wave check. */
    method Update(dt: real, c: Controls)
      modifies this
      requires Fits(View(), c)
      ensures View() == Combat.Update(old(View()), dt, c)
      ensures lastTime == old(lastTime)
    {
      var over := Fight(dt, c);
      if !over && |enemies| == 0 {
        wave := wave + 1;
        SpawnWave(c.spawn);
      }
    }

    /** `tick(now)`: the clamped step, the frame clock, and `update` only
        while the session is neither paused nor over. */
    method Tick(now: real, c: Controls)
      modifies this
      requires !paused && running ==> Fits(View(), c)
      ensures View() == Ticked(old(View()), old(lastTime), now, c)
      ensures lastTime == now
    {
      var dt := FrameDt(lastTime, now);
      lastTime := now;
      if !paused && running {
        Update(dt, c);
      }
    }

    /** The pause button flips `paused` and nothing else. */
    method TogglePause()
      modifies this
      ensures View() == old(View()).(paused := !old(paused))
      ensures lastTime == old(lastTime)
    {
      paused := !paused;
    }

    /** `openShop()`: pauses and raises the shop flag. */
    method OpenShop()
      modifies this
      ensures View() == old(View()).(paused := true, shopOpen := true)
      ensures lastTime == old(lastTime)
    {
      paused := true;
      shopOpen := true;
    }

    /** The shop's Continue button: lowers the shop flag and unpauses. */
    method CloseShop()
      modifies this
      ensures View() == old(View()).(paused := false, shopOpen := false)
      ensures lastTime == old(lastTime)
    {
      shopOpen := false;
      paused := false;
    }

    /** A shop button: when the balance covers the cost, pay, apply the
        effect and re-open the shop; otherwise nothing happens. */
    method Buy(u: Upgrade)
      modifies this
      ensures View() == Bought(old(View()), u)
      ensures lastTime == old(lastTime)
    {
      if scrap >= Cost(u) {
        scrap := scrap - Cost(u);
        match u {
          case Hull =>
            player := player.(maxHp := player.maxHp + 30);
            player := player.(hp := player.hp + 30.0);
          case WeaponUpgrade =>
            player := player.(weaponLevel := player.weaponLevel + 1);
          case Repair =>
            player := player.(hp := Clamp(player.hp + 40.0, 0.0, player.maxHp as real));
        }
        OpenShop();
      }
    }

    /** `restart(fresh)`, spawning the wave it restarts at. */
    method Restart(newGame: bool, draws: seq<SpawnDraw>)
      modifies this
      requires |draws| >= SpawnCount(if newGame then 1 else wave)
      ensures View() == var r := Restarted(old(View()), newGame); r.(enemies := Spawned(r.wave, draws))
      ensures lastTime == old(lastTime)
    {
      enemies, bullets := [], [];
      var p := player.(x := ARENA_WIDTH / 2.0, y := ARENA_HEIGHT / 2.0, vx := 0.0, vy := 0.0);
      if newGame {
        wave := 1;
        scrap := 0;
        p := p.(maxHp := 130);
        p := p.(hp := p.maxHp as real);
        p := p.(weaponLevel := 1);
      } else {
        p := p.(hp := p.maxHp as real);
      }
      player := p;
      running := true;
      paused := false;
      assert View() == Restarted(old(View()), newGame);
      SpawnWave(draws);
    }
  }
}
