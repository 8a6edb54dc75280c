/** The records of one session: the player ship, enemies, bullets, and the
    session value they live in, with the fixed stat and weapon tables. */
module Entities {
  import opened Geometry

  /** The player's weapon. A loaded save may hold any text in that field, so
      a name the game does not know is kept as it is. */
  datatype Weapon = Blaster | Rapid | Shotgun | Spread | Unrecognised(name: string)

  datatype Owner = FromPlayer | FromEnemy

  /** Enemy types 0, 1 and 2 of the source. */
  datatype EnemyKind = Chaser | Kiter | Tank

  /** A unit heading `(cos a, sin a)`; the angle itself is not modelled. */
  datatype Dir = Dir(cos: real, sin: real)

  datatype Player = Player(
    x: real, y: real, vx: real, vy: real, radius: real,
    maxHp: int, hp: real, speed: real,
    weapon: Weapon, weaponLevel: int)

  datatype Enemy = Enemy(
    x: real, y: real, vx: real, vy: real, kind: EnemyKind,
    radius: real, hp: int, speed: real, lastShot: real)

  datatype Bullet = Bullet(
    x: real, y: real, vx: real, vy: real,
    radius: real, owner: Owner, life: real)

  /** Everything the game rules read and write in the session object:
      `running`, `paused`, `shopOpen`, the wave counter, the scrap balance,
      the time of the last player shot, the player and the two entity lists. */
  datatype World = World(
    running: bool, paused: bool, shopOpen: bool,
    wave: int, scrap: int, lastShot: real,
    player: Player, enemies: seq<Enemy>, bullets: seq<Bullet>)

  /** Seconds a bullet lives. */
  const BULLET_LIFE: real := 2.2

  /** A fresh ship at (x, y): at rest, radius 16, top speed 260, 130 hp,
      blaster at level 1. */
  function NewPlayer(x: real, y: real): (p: Player)
    ensures p.x == x && p.y == y && p.vx == 0.0 && p.vy == 0.0
    ensures p.hp == p.maxHp as real && p.maxHp == 130
    ensures p.weapon == Blaster && p.weaponLevel == 1
    ensures p.radius == 16.0 && p.speed == 260.0
  {
    Player(x, y, 0.0, 0.0, 16.0, 130, 130.0, 260.0, Blaster, 1)
  }

  /** The constructor's stat table: a tank is big, tough and slow; the two
      other kinds share the same stats. */
  function NewEnemy(x: real, y: real, kind: EnemyKind): (e: Enemy)
    ensures e.x == x && e.y == y && e.vx == 0.0 && e.vy == 0.0 && e.kind == kind
    ensures e.lastShot == 0.0 && 0 < e.hp && 0.0 < e.radius && 0.0 < e.speed
  {
    if kind == Tank then Enemy(x, y, 0.0, 0.0, kind, 26.0, 220, 70.0, 0.0)
    else Enemy(x, y, 0.0, 0.0, kind, 16.0, 40, 120.0, 0.0)
  }

  lemma StatsDependOnlyOnTankness(x: real, y: real, k: EnemyKind, k': EnemyKind)
    requires (k == Tank) == (k' == Tank)
    ensures NewEnemy(x, y, k).(kind := k') == NewEnemy(x, y, k')
  {
  }

  lemma TankOutclassesOthers(x: real, y: real, k: EnemyKind)
    requires k != Tank
    ensures var t, e := NewEnemy(x, y, Tank), NewEnemy(x, y, k);
      && t.radius > e.radius && t.hp > e.hp && t.speed < e.speed
      && t.radius == 26.0 && t.hp == 220 && t.speed == 70.0
      && e.radius == 16.0 && e.hp == 40 && e.speed == 120.0
  {
  }

  /** Milliseconds that must pass between two player shots. */
  function FireRate(w: Weapon, level: int): int
  {
    if w == Rapid then 70 - level * 5
    else if w == Shotgun then 480 - level * 18
    else 200 - level * 8
  }

  /** Every weapon fires faster as its level rises. */
  lemma FireRateFallsWithLevel(w: Weapon, lo: int, hi: int)
    requires lo < hi
    ensures FireRate(w, hi) < FireRate(w, lo)
  {
  }

  /** There is no floor: from level 27 on every weapon's cooldown is zero or
      below, so the gate opens on every tick the mouse is down. */
  lemma FireRateHasNoFloor(w: Weapon, level: int)
    requires level >= 27
    ensures FireRate(w, level) <= 0
  {
  }

  /** Rapid fires faster than blaster, and blaster than shotgun, only up to
      some level: the per-level reductions differ, so the order flips. */
  lemma FireRateOrder(level: int)
    ensures FireRate(Rapid, level) < FireRate(Blaster, level) <==> level <= 43
    ensures FireRate(Blaster, level) < FireRate(Shotgun, level) <==> level <= 27
  {
  }

  /** Bullets one trigger pull emits: the shotgun's pellet loop runs
      `4 + level` times, so a level at or below -4 fires nothing. */
  function BulletCount(w: Weapon, level: int): nat
  {
    match w
    case Blaster => 1
    case Rapid => 1
    case Shotgun => if 4 + level < 0 then 0 else 4 + level
    case Spread => 3
    case Unrecognised(_) => 0
  }

  function MuzzleSpeed(w: Weapon, level: int): real
  {
    match w
    case Blaster => 700.0 + (level * 40) as real
    case Rapid => 860.0
    case Shotgun => 520.0
    case Spread => 640.0
    case Unrecognised(_) => 0.0
  }

  function ShotRadius(w: Weapon): real
  {
    match w
    case Blaster => 7.0
    case Rapid => 5.0
    case Shotgun => 6.0
    case Spread => 6.0
    case Unrecognised(_) => 0.0
  }

  /** The bullets of one `fire()`, one per heading in `aim` (the random
      pellet spread and the fixed spread offsets are in the headings). */
  function Volley(p: Player, aim: seq<Dir>): (shots: seq<Bullet>)
    requires |aim| == BulletCount(p.weapon, p.weaponLevel)
    ensures |shots| == BulletCount(p.weapon, p.weaponLevel)
    ensures forall k :: 0 <= k < |shots| ==>
      shots[k].owner == FromPlayer && shots[k].x == p.x && shots[k].y == p.y &&
      shots[k].radius == ShotRadius(p.weapon) && shots[k].life == BULLET_LIFE &&
      shots[k].vx == aim[k].cos * MuzzleSpeed(p.weapon, p.weaponLevel) &&
      shots[k].vy == aim[k].sin * MuzzleSpeed(p.weapon, p.weaponLevel)
  {
    var speed, radius := MuzzleSpeed(p.weapon, p.weaponLevel), ShotRadius(p.weapon);
    seq(|aim|, k requires 0 <= k < |aim| =>
      Bullet(p.x, p.y, aim[k].cos * speed, aim[k].sin * speed, radius, FromPlayer, BULLET_LIFE))
  }

  /** A kiter's shot, fired from where it stood before this tick's move. */
  function EnemyShot(e: Enemy, aim: Dir): Bullet
  {
    Bullet(e.x, e.y, aim.cos * 360.0, aim.sin * 360.0, 7.0, FromEnemy, BULLET_LIFE)
  }

  /** One tick of straight flight: position by velocity, life by dt. */
  function Advance(b: Bullet, dt: real): (b': Bullet)
    ensures b'.life == b.life - dt
    ensures b'.(x := b.x, y := b.y, life := b.life) == b
  {
    b.(x := b.x + b.vx * dt, y := b.y + b.vy * dt, life := b.life - dt)
  }

  /** Euler step with the velocity the steering produced, then the clamp
      that keeps the ship 24 units inside the arena. */
  function MovePlayer(p: Player, vx: real, vy: real, dt: real): (p': Player)
    ensures 24.0 <= p'.x <= ARENA_WIDTH - 24.0 && 24.0 <= p'.y <= ARENA_HEIGHT - 24.0
    ensures p'.(x := p.x, y := p.y, vx := p.vx, vy := p.vy) == p
    ensures p'.vx == vx && p'.vy == vy
  {
    p.(vx := vx, vy := vy,
       x := Clamp(p.x + vx * dt, 24.0, ARENA_WIDTH - 24.0),
       y := Clamp(p.y + vy * dt, 24.0, ARENA_HEIGHT - 24.0))
  }

  /** The same for an enemy, 12 units inside the arena. */
  function MoveEnemy(e: Enemy, vx: real, vy: real, dt: real): (e': Enemy)
    ensures 12.0 <= e'.x <= ARENA_WIDTH - 12.0 && 12.0 <= e'.y <= ARENA_HEIGHT - 12.0
    ensures e'.(x := e.x, y := e.y, vx := e.vx, vy := e.vy) == e
  {
    e.(vx := vx, vy := vy,
       x := Clamp(e.x + vx * dt, 12.0, ARENA_WIDTH - 12.0),
       y := Clamp(e.y + vy * dt, 12.0, ARENA_HEIGHT - 12.0))
  }

  /** Damage of one player bullet; the same for every weapon. */
  function ShotDamage(level: int): int
  {
    10 + level * 6
  }

  lemma ShotDamageGrowsWithLevel(lo: int, hi: int)
    requires lo < hi
    ensures ShotDamage(lo) + 6 <= ShotDamage(hi)
  {
  }

  /** `Math.floor(Math.random() * 6)` for a draw `roll`. */
  function KillBonus(roll: real): (k: int)
    ensures 0.0 <= roll < 1.0 ==> 0 <= k <= 5
    ensures k as real <= roll * 6.0 < k as real + 1.0
  {
    (roll * 6.0).Floor
  }

  /** Scrap paid for a kill in wave `wave`. */
  function KillReward(wave: int, roll: real): (r: int)
    ensures 0.0 <= roll < 1.0 ==> 4 + wave <= r <= 9 + wave
  {
    4 + KillBonus(roll) + wave
  }

  /** Hp lost per tick while an enemy of any kind touches the ship. */
  function ContactDamage(dt: real): (d: real)
    ensures 0.0 <= dt <= 0.05 ==> 1.0 <= d <= 1.9
  {
    18.0 * dt + 1.0
  }

  predicate BulletHits(b: Bullet, e: Enemy)
  {
    Overlaps(b.x, b.y, b.radius, e.x, e.y, e.radius)
  }

  predicate BulletHitsPlayer(b: Bullet, p: Player)
  {
    Overlaps(b.x, b.y, b.radius, p.x, p.y, p.radius)
  }

  predicate Touches(e: Enemy, p: Player)
  {
    Overlaps(e.x, e.y, e.radius, p.x, p.y, p.radius)
  }

  /** `splice(i, 1)`. */
  function Remove<T>(s: seq<T>, i: nat): (r: seq<T>)
    requires i < |s|
    ensures |r| == |s| - 1
    ensures r[..i] == s[..i] && r[i..] == s[i + 1..]
  {
    s[..i] + s[i + 1..]
  }
}
