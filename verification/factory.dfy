/**
 * The value view of a champion and the construction path: the factory looks
 * the class string up in its table, the race and gender strings up among the
 * enumeration members, and then validates the name length.
 */
module Factory {
  import opened Wrappers
  import opened Domains
  import opened Catalog
  import opened Leveling

  /** Why a construction, a load or an attack fails. */
  datatype Error =
    | UnknownVariant   // class string not in the factory's table
    | UnknownRace      // race string not a member name
    | UnknownGender    // gender string not a member name
    | NameTooLong      // name longer than MAX_NAME_LENGTH
    | NotFound         // no saved record under the requested name
    | TypeMismatch     // attack on something that is not a champion

  const MAX_NAME_LENGTH := 10

  /** Everything a champion object holds, as one value. */
  datatype ChampionState = ChampionState(
    name: string,
    race: Race,
    gender: Gender,
    archetype: Archetype,
    classType: string,
    equipment: Equipment,
    progress: Progression,
    stats: Stats)

  /** What construction establishes and nothing afterwards changes. */
  predicate WellFormed(st: ChampionState)
  {
    |st.name| <= MAX_NAME_LENGTH &&
    st.classType == ClassTag(st.archetype) &&
    st.equipment == Gear(st.archetype)
  }

  /** The champion an archetype's constructor builds from validated identity. */
  function Fresh(a: Archetype, name: string, race: Race, gender: Gender): ChampionState
  {
    ChampionState(name, race, gender, a, ClassTag(a), Gear(a), INITIAL, BaseStats(a))
  }

  /** The factory: class lookup, race lookup, gender lookup, then name check. */
  function Create(className: string, name: string, race: string, gender: string)
    : (r: Result<ChampionState, Error>)
    ensures r.Success? <==>
      ParseClass(className).Some? && ParseRace(race).Some? && ParseGender(gender).Some? &&
      |name| <= MAX_NAME_LENGTH
    ensures ParseClass(className).None? ==> r == Failure(UnknownVariant)
    ensures ParseClass(className).Some? && ParseRace(race).None? ==> r == Failure(UnknownRace)
    ensures ParseClass(className).Some? && ParseRace(race).Some? && ParseGender(gender).None? ==>
      r == Failure(UnknownGender)
    ensures ParseClass(className).Some? && ParseRace(race).Some? && ParseGender(gender).Some? &&
            |name| > MAX_NAME_LENGTH ==>
      r == Failure(NameTooLong)
    ensures r.Success? ==>
      WellFormed(r.value) && r.value.name == name &&
      FactoryKey(r.value.archetype) == className &&
      RaceName(r.value.race) == race && GenderName(r.value.gender) == gender
    ensures r.Success? ==>
      r.value.progress == INITIAL && r.value.stats == BaseStats(r.value.archetype)
  {
    match ParseClass(className)
    case None => Failure(UnknownVariant)
    case Some(a) =>
      match ParseRace(race)
      case None => Failure(UnknownRace)
      case Some(rc) =>
        match ParseGender(gender)
        case None => Failure(UnknownGender)
        case Some(g) =>
          if |name| > MAX_NAME_LENGTH then Failure(NameTooLong)
          else Success(Fresh(a, name, rc, g))
  }
}
