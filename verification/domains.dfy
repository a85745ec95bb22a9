/**
 * The closed classification domains of the game (race, gender, weapon,
 * shield mode, armour slot), the equipment record, and the five-attribute
 * stat block with its key enumeration.
 */
module Domains {
  import opened Wrappers

  datatype Race = Human | Elf | Dwarf | Hobbit | Orc

  datatype Gender = Male | Female | Other

  datatype Weapon = Bow | Sword | Staff | Hammer | Blades

  datatype DefenseMode = Shield | NoShield

  datatype ArmorSlot = Helmet | Gauntlets | Chest | Leg

  /** What a champion carries; fixed by its archetype at construction. */
  datatype Equipment = Equipment(weapon: Weapon, defense: DefenseMode, armor: seq<ArmorSlot>)

  /** The five keys of a stat block; any of them may be used as an attack source. */
  datatype StatKey = Health | Attack | Defense | Magic | Speed

  /** A stat block: exactly the five keys, each holding an unbounded integer. */
  datatype Stats = Stats(health: int, attack: int, defense: int, magic: int, speed: int)
  {
    /** The value stored under key `k`. */
    function Get(k: StatKey): int
    {
      match k
      case Health => health
      case Attack => attack
      case Defense => defense
      case Magic => magic
      case Speed => speed
    }

    /** The sum of the five values. */
    function Total(): int
    {
      health + attack + defense + magic + speed
    }

    predicate NonNegative()
    {
      health >= 0 && attack >= 0 && defense >= 0 && magic >= 0 && speed >= 0
    }
  }

  /** The enumeration member name a race is saved under. */
  function RaceName(r: Race): (s: string)
    ensures s != "" && forall i :: 0 <= i < |s| ==> 'A' <= s[i] <= 'Z'
  {
    match r
    case Human => "HUMAN"
    case Elf => "ELF"
    case Dwarf => "DWARF"
    case Hobbit => "HOBBIT"
    case Orc => "ORC"
  }

  /** Lookup of a race by member name; an unknown name finds nothing. */
  function ParseRace(s: string): (r: Option<Race>)
    ensures r.Some? ==> RaceName(r.value) == s
    ensures forall x :: RaceName(x) == s ==> r == Some(x)
  {
    if s == "HUMAN" then Some(Human)
    else if s == "ELF" then Some(Elf)
    else if s == "DWARF" then Some(Dwarf)
    else if s == "HOBBIT" then Some(Hobbit)
    else if s == "ORC" then Some(Orc)
    else None
  }

  /** The enumeration member name a gender is saved under. */
  function GenderName(g: Gender): (s: string)
    ensures s != "" && forall i :: 0 <= i < |s| ==> 'A' <= s[i] <= 'Z'
  {
    match g
    case Male => "MALE"
    case Female => "FEMALE"
    case Other => "OTHER"
  }

  /** Lookup of a gender by member name; an unknown name finds nothing. */
  function ParseGender(s: string): (r: Option<Gender>)
    ensures r.Some? ==> GenderName(r.value) == s
    ensures forall x :: GenderName(x) == s ==> r == Some(x)
  {
    if s == "MALE" then Some(Male)
    else if s == "FEMALE" then Some(Female)
    else if s == "OTHER" then Some(Other)
    else None
  }
}
