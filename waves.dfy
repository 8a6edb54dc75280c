/** The wave director: how many enemies a wave brings and which kind each
    one is. */
module Waves {
  import opened Entities

  /** The random part of one spawn: where the enemy appears (the point the
      random angle and distance from the centre produce) and the
      `Math.random()` draw that picks its kind. */
  datatype SpawnDraw = SpawnDraw(x: real, y: real, roll: real)

  /** `3 + Math.floor(wave * 1.6)` enemies; the spawn loop runs no times
      when that is negative. */
  function SpawnCount(wave: int): (n: nat)
    ensures wave >= -1 ==> (n - 3) as real <= 1.6 * wave as real < (n - 2) as real
    ensures wave <= -2 ==> n == 0
  {
    var count := 3 + (16 * wave) / 10;
    if count < 0 then 0 else count
  }

  lemma SpawnCountGrows(lo: int, hi: int)
    requires -1 <= lo < hi
    ensures SpawnCount(lo) < SpawnCount(hi)
  {
  }

  /** One draw against the wave thresholds: tanks past wave 6 on a roll
      below 0.18, otherwise kiters past wave 3 on a roll below 0.36. */
  function KindFor(wave: int, roll: real): EnemyKind
  {
    if wave > 6 && roll < 0.18 then Tank
    else if wave > 3 && roll < 0.36 then Kiter
    else Chaser
  }

  /** The bands of the unit interval each kind gets: past wave 6 a tank on
      [0, 0.18) and a kiter on [0.18, 0.36); in waves 4 to 6 a kiter on
      [0, 0.36); a chaser everywhere else. */
  lemma KindBands(wave: int, roll: real)
    ensures KindFor(wave, roll) == Tank <==> wave > 6 && roll < 0.18
    ensures KindFor(wave, roll) == Kiter <==>
      (wave > 6 && 0.18 <= roll < 0.36) || (3 < wave <= 6 && roll < 0.36)
    ensures KindFor(wave, roll) == Chaser <==> wave <= 3 || roll >= 0.36
  {
  }

  /** The enemies `spawnWave(wave)` pushes, in push order. */
  function Spawned(wave: int, draws: seq<SpawnDraw>): (es: seq<Enemy>)
    requires |draws| >= SpawnCount(wave)
    ensures |es| == SpawnCount(wave)
    ensures forall k :: 0 <= k < |es| ==>
      es[k] == NewEnemy(draws[k].x, draws[k].y, KindFor(wave, draws[k].roll))
  {
    seq(SpawnCount(wave), k requires 0 <= k < SpawnCount(wave) =>
      NewEnemy(draws[k].x, draws[k].y, KindFor(wave, draws[k].roll)))
  }

  /** The first wave is four chasers with 40 hp each. */
  lemma FirstWave(draws: seq<SpawnDraw>)
    requires |draws| >= SpawnCount(1)
    ensures |Spawned(1, draws)| == 4
    ensures forall e :: e in Spawned(1, draws) ==> e.kind == Chaser && e.hp == 40
  {
  }

  /** Waves 1 to 3 (and below) bring nothing but chasers, whatever the draws. */
  lemma EarlyWavesAreChasers(wave: int, draws: seq<SpawnDraw>)
    requires wave <= 3 && |draws| >= SpawnCount(wave)
    ensures forall e :: e in Spawned(wave, draws) ==>
      e.kind == Chaser && e.radius == 16.0 && e.hp == 40 && e.speed == 120.0
  {
  }

  /** Every tank of a wave is past wave 6 and came from a roll below 0.18,
      and has the tank stats. */
  lemma TanksOnlyLate(wave: int, draws: seq<SpawnDraw>, k: nat)
    requires |draws| >= SpawnCount(wave) && k < SpawnCount(wave)
    requires Spawned(wave, draws)[k].kind == Tank
    ensures wave > 6 && draws[k].roll < 0.18
    ensures Spawned(wave, draws)[k].radius == 26.0 && Spawned(wave, draws)[k].hp == 220
  {
  }
}
