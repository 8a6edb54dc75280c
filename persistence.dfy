/** The saved-game snapshot and the field-by-field merge `bootstrap` makes
    of it into a fresh session. Reading and writing browser storage is not
    part of this model: the snapshot arrives as a value, absent when
    nothing was stored or it did not parse. */
module Persistence {
  import opened Geometry
  import opened Entities
  import opened Combat

  datatype Option<T> = None | Some(value: T)

  /** The `player` object of a snapshot; a field missing from the stored
      text is `None`. */
  datatype SavedPlayer = SavedPlayer(
    maxHp: Option<int>, hp: Option<real>, weapon: Option<string>, weaponLevel: Option<int>)

  datatype Saved = Saved(wave: Option<int>, scrap: Option<int>, player: Option<SavedPlayer>)

  /** `saved.f || fallback`: a missing field and the one falsy value of its
      type (`0`, `0.0`, the empty string) both give the fallback. */
  function Or<T(==)>(v: Option<T>, falsy: T, fallback: T): T
  {
    if v.Some? && v.value != falsy then v.value else fallback
  }

  /** The text the session keeps in `player.weapon`. */
  function WeaponName(w: Weapon): string
  {
    match w
    case Blaster => "blaster"
    case Rapid => "rapid"
    case Shotgun => "shotgun"
    case Spread => "spread"
    case Unrecognised(name) => name
  }

  /** The weapon a stored name stands for; the comparisons in `fire` and
      `getFireRate` treat any other text as no known weapon. */
  function ParseWeapon(name: string): (w: Weapon)
    ensures WeaponName(w) == name
    ensures w.Unrecognised? <==> name !in KnownNames()
  {
    if name == "blaster" then Blaster
    else if name == "rapid" then Rapid
    else if name == "shotgun" then Shotgun
    else if name == "spread" then Spread
    else Unrecognised(name)
  }

  function KnownNames(): set<string>
  {
    {"blaster", "rapid", "shotgun", "spread"}
  }

  /** A weapon value the session can hold after a load: an unrecognised
      name never spells one of the four known ones. */
  predicate Canonical(w: Weapon)
  {
    w.Unrecognised? ==> w.name !in KnownNames()
  }

  lemma ParseWeaponName(w: Weapon)
    requires Canonical(w)
    ensures ParseWeapon(WeaponName(w)) == w
  {
    if w.Unrecognised? {
      assert WeaponName(w) == w.name;
      assert w.name !in KnownNames();
    }
  }

  /** The session object as the script first builds it, with the ship
      `bootstrap` places at the centre of the arena. */
  function Initial(): (w: World)
    ensures Consistent(w) && w.running && !w.paused && !w.shopOpen
    ensures w.wave == 1 && w.scrap == 0 && w.enemies == [] && w.bullets == []
    ensures w.player == NewPlayer(ARENA_WIDTH / 2.0, ARENA_HEIGHT / 2.0)
  {
    World(true, false, false, 1, 0, 0.0, NewPlayer(480.0, 300.0), [], [])
  }

  /** No stored player object reads as every player field missing. */
  function PlayerOf(s: Saved): SavedPlayer
  {
    if s.player.Some? then s.player.value else SavedPlayer(None, None, None, None)
  }

  /** The merge of `bootstrap`: each stored field that is present and not
      falsy replaces the session's, every other field keeps its value. */
  function Restore(w: World, saved: Option<Saved>): (r: World)
    ensures saved.None? ==> r == w
    ensures r.(wave := w.wave, scrap := w.scrap, player := w.player) == w
    ensures r.player.(maxHp := w.player.maxHp, hp := w.player.hp,
                      weapon := w.player.weapon, weaponLevel := w.player.weaponLevel) == w.player
    ensures saved.Some? ==>
      var s, p := saved.value, PlayerOf(saved.value);
      && (s.wave.Some? && s.wave.value != 0 ==> r.wave == s.wave.value)
      && (s.wave.None? || s.wave.value == 0 ==> r.wave == w.wave)
      && (s.scrap.Some? && s.scrap.value != 0 ==> r.scrap == s.scrap.value)
      && (s.scrap.None? || s.scrap.value == 0 ==> r.scrap == w.scrap)
      && (p.maxHp.Some? && p.maxHp.value != 0 ==> r.player.maxHp == p.maxHp.value)
      && (p.maxHp.None? || p.maxHp.value == 0 ==> r.player.maxHp == w.player.maxHp)
      && (p.hp.Some? && p.hp.value != 0.0 ==> r.player.hp == p.hp.value)
      && (p.hp.None? || p.hp.value == 0.0 ==> r.player.hp == w.player.hp)
      && (p.weapon.Some? && p.weapon.value != "" ==> WeaponName(r.player.weapon) == p.weapon.value)
      && (p.weapon.None? || p.weapon.value == "" ==> r.player.weapon == w.player.weapon)
      && (p.weaponLevel.Some? && p.weaponLevel.value != 0 ==> r.player.weaponLevel == p.weaponLevel.value)
      && (p.weaponLevel.None? || p.weaponLevel.value == 0 ==> r.player.weaponLevel == w.player.weaponLevel)
  {
    if saved.None? then w
    else
      var s, p := saved.value, PlayerOf(saved.value);
      var name := Or(p.weapon, "", WeaponName(w.player.weapon));
      w.(wave := Or(s.wave, 0, w.wave),
         scrap := Or(s.scrap, 0, w.scrap),
         player := w.player.(
           maxHp := Or(p.maxHp, 0, w.player.maxHp),
           hp := Or(p.hp, 0.0, w.player.hp),
           weapon := if p.weapon.Some? && p.weapon.value != "" then ParseWeapon(name) else w.player.weapon,
           weaponLevel := Or(p.weaponLevel, 0, w.player.weaponLevel)))
  }

  /** The object the save timer stores. */
  function Snapshot(w: World): Saved
  {
    Saved(Some(w.wave), Some(w.scrap),
      Some(SavedPlayer(Some(w.player.maxHp), Some(w.player.hp),
                       Some(WeaponName(w.player.weapon)), Some(w.player.weaponLevel))))
  }

  /** Saving a live session and loading it into a fresh one brings back its
      wave, scrap, max hp, hp, weapon and level; a saved scrap of 0 falls
      back to the fresh 0, so it comes back too. */
  lemma SnapshotRoundTrip(w: World)
    requires Consistent(w) && w.running && Canonical(w.player.weapon)
    requires WeaponName(w.player.weapon) != ""
    ensures var r := Restore(Initial(), Some(Snapshot(w)));
      && r.wave == w.wave && r.scrap == w.scrap
      && r.player.maxHp == w.player.maxHp && r.player.hp == w.player.hp
      && r.player.weapon == w.player.weapon && r.player.weaponLevel == w.player.weaponLevel
      && Consistent(r)
  {
    ParseWeaponName(w.player.weapon);
  }

  /** A save taken after the ship died with exactly 0 hp loads with the
      default 130 hp: the `||` merge reads 0 as missing. */
  lemma DeadAtZeroLoadsHealed(w: World)
    requires w.player.hp == 0.0
    ensures Restore(Initial(), Some(Snapshot(w))).player.hp == 130.0
  {
  }

  /** A save taken after the ship died below 0 hp loads as it is, into a
      session that is running: the loaded session has no hp left but the
      game is not over. */
  lemma DeadBelowZeroLoadsRunning(w: World)
    requires w.player.hp < 0.0
    ensures var r := Restore(Initial(), Some(Snapshot(w)));
      r.running && r.player.hp == w.player.hp && !Consistent(r)
  {
  }

  /** An empty stored weapon name keeps the blaster. */
  lemma EmptyWeaponNameKeepsBlaster(s: Saved)
    requires s.player.Some? && s.player.value.weapon == Some("")
    ensures Restore(Initial(), Some(s)).player.weapon == Blaster
  {
  }
}
