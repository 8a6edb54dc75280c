/** The three shop purchases: each checks the scrap balance, and either
    pays and applies its one effect or changes nothing. */
module Shop {
  import opened Geometry
  import opened Entities

  /** `buy_hp` (+30 max hp), `buy_wpn` (+1 weapon level), `buy_heal` (+40 hp). */
  datatype Upgrade = Hull | WeaponUpgrade | Repair

  function Cost(u: Upgrade): nat
  {
    match u
    case Hull => 25
    case WeaponUpgrade => 40
    case Repair => 18
  }

  /** Balance and ship after a click, and whether it bought anything. */
  datatype Receipt = Receipt(scrap: int, player: Player, bought: bool)

  function Purchase(u: Upgrade, scrap: int, p: Player): (r: Receipt)
    // gated on the balance, all or nothing
    ensures r.bought <==> scrap >= Cost(u)
    ensures r.bought ==> r.scrap == scrap - Cost(u) && r.scrap >= 0
    ensures !r.bought ==> r.scrap == scrap && r.player == p
    // only max hp, hp and weapon level can change
    ensures r.player.(maxHp := p.maxHp, hp := p.hp, weaponLevel := p.weaponLevel) == p
    // exactly one effect
    ensures r.bought && u == Hull ==>
      r.player.maxHp == p.maxHp + 30 && r.player.hp == p.hp + 30.0 &&
      r.player.weaponLevel == p.weaponLevel
    ensures r.bought && u == WeaponUpgrade ==>
      r.player.weaponLevel == p.weaponLevel + 1 &&
      r.player.maxHp == p.maxHp && r.player.hp == p.hp
    ensures r.bought && u == Repair ==>
      r.player.maxHp == p.maxHp && r.player.weaponLevel == p.weaponLevel &&
      0.0 <= r.player.hp &&
      (p.maxHp >= 0 ==> r.player.hp <= p.maxHp as real) &&
      (0.0 <= p.hp + 40.0 <= p.maxHp as real ==> r.player.hp == p.hp + 40.0) &&
      (0 <= p.maxHp && p.maxHp as real < p.hp + 40.0 ==> r.player.hp == p.maxHp as real) &&
      (p.hp + 40.0 < 0.0 && 0 <= p.maxHp ==> r.player.hp == 0.0)
  {
    if scrap < Cost(u) then Receipt(scrap, p, false)
    else
      var p' := match u
        case Hull => p.(maxHp := p.maxHp + 30, hp := p.hp + 30.0)
        case WeaponUpgrade => p.(weaponLevel := p.weaponLevel + 1)
        case Repair => p.(hp := Clamp(p.hp + 40.0, 0.0, p.maxHp as real));
      Receipt(scrap - Cost(u), p', true)
  }

  /** No purchase can push hp above max hp, and none makes scrap negative. */
  lemma PurchaseKeepsBounds(u: Upgrade, scrap: int, p: Player)
    requires 0 <= scrap && p.hp <= p.maxHp as real && 0 <= p.maxHp
    ensures var r := Purchase(u, scrap, p);
      0 <= r.scrap && r.player.hp <= r.player.maxHp as real && 0 <= r.player.maxHp
  {
  }

  /** A ship with hp left keeps hp left: no purchase lowers a positive hp to
      zero or below. */
  lemma PurchaseKeepsShipAlive(u: Upgrade, scrap: int, p: Player)
    requires 0.0 < p.hp <= p.maxHp as real
    ensures Purchase(u, scrap, p).player.hp > 0.0
  {
  }

  /** A repair with less than 18 scrap is refused and changes nothing,
      whatever the ship's state. */
  lemma BrokeRepairIsRefused(scrap: int, p: Player)
    requires scrap < 18
    ensures Purchase(Repair, scrap, p) == Receipt(scrap, p, false)
  {
  }
}
