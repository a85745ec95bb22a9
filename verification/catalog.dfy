/**
 * The archetype catalog: the six champion classes, each with its base stat
 * block, its equipment, the `class_type` tag it stores on itself, and the key
 * under which the factory finds it.
 */
module Catalog {
  import opened Wrappers
  import opened Domains

  datatype Archetype = Cleric | Fighter | Mage | Paladin | Ranger | Rogue

  /** Base stats (health, attack, defense, magic, speed) of each archetype. */
  function BaseStats(a: Archetype): (s: Stats)
    ensures s.NonNegative() && s.health > 0
  {
    match a
    case Cleric => Stats(5, 2, 5, 5, 5)
    case Fighter => Stats(8, 4, 10, 3, 8)
    case Mage => Stats(5, 7, 5, 10, 5)
    case Paladin => Stats(5, 6, 6, 7, 6)
    case Ranger => Stats(7, 4, 5, 8, 3)
    case Rogue => Stats(6, 4, 5, 5, 10)
  }

  /** Equipment of each archetype. */
  function Gear(a: Archetype): (e: Equipment)
    ensures e.armor != []
    ensures forall i, j :: 0 <= i < j < |e.armor| ==> e.armor[i] != e.armor[j]
    ensures e.defense == Shield <==> a == Cleric || a == Fighter
  {
    match a
    case Cleric => Equipment(Staff, Shield, [Helmet, Gauntlets])
    case Fighter => Equipment(Sword, Shield, [Helmet, Chest])
    case Mage => Equipment(Staff, NoShield, [Helmet])
    case Paladin => Equipment(Hammer, NoShield, [Chest])
    case Ranger => Equipment(Bow, NoShield, [Helmet])
    case Rogue => Equipment(Blades, NoShield, [Helmet])
  }

  /** The `class_type` tag each archetype stores on itself. The Ranger tags itself "RANGE". */
  function ClassTag(a: Archetype): (tag: string)
    ensures tag == FactoryKey(a) <==> a != Ranger
  {
    match a
    case Cleric => "CLERIC"
    case Fighter => "FIGHTER"
    case Mage => "MAGE"
    case Paladin => "PALADIN"
    case Ranger => "RANGE"
    case Rogue => "ROGUE"
  }

  /** The key under which the factory's class table holds each archetype. */
  function FactoryKey(a: Archetype): (key: string)
    ensures key != "" && forall i :: 0 <= i < |key| ==> 'A' <= key[i] <= 'Z'
  {
    match a
    case Cleric => "CLERIC"
    case Fighter => "FIGHTER"
    case Mage => "MAGE"
    case Paladin => "PALADIN"
    case Ranger => "RANGER"
    case Rogue => "ROGUE"
  }

  /** The factory's class-table lookup: exactly the six keys resolve. */
  function ParseClass(s: string): (r: Option<Archetype>)
    ensures r.Some? ==> FactoryKey(r.value) == s
    ensures forall a :: FactoryKey(a) == s ==> r == Some(a)
  {
    if s == "CLERIC" then Some(Cleric)
    else if s == "FIGHTER" then Some(Fighter)
    else if s == "MAGE" then Some(Mage)
    else if s == "PALADIN" then Some(Paladin)
    else if s == "RANGER" then Some(Ranger)
    else if s == "ROGUE" then Some(Rogue)
    else None
  }

  /**
   * A stored `class_type` tag resolves back to its own archetype for five of
   * the six classes; the Ranger's tag is not a factory key.
   */
  lemma TagResolution(a: Archetype)
    ensures ParseClass(ClassTag(a)) == if a == Ranger then None else Some(a)
  {
  }
}
