/**
 * The saved shape of a champion and its reconstruction. A record holds the
 * name, the race and gender member names, the stat block and the class tag;
 * equipment and progression are not saved. The durable store is a map from
 * champion name to record, and the text encoding is taken as the identity.
 */
module Persistence {
  import opened Wrappers
  import opened Domains
  import opened Catalog
  import opened Leveling
  import opened Factory

  datatype Record = Record(name: string, race: string, gender: string, stats: Stats, classType: string)

  /** One record per champion name; saving overwrites. */
  type Store = map<string, Record>

  /** The projection a champion is saved as. */
  function Save(st: ChampionState): (rec: Record)
    ensures rec.name == st.name && rec.stats == st.stats && rec.classType == st.classType
    ensures ParseRace(rec.race) == Some(st.race) && ParseGender(rec.gender) == Some(st.gender)
  {
    Record(st.name, RaceName(st.race), GenderName(st.gender), st.stats, st.classType)
  }

  /**
   * Reconstruction from a record: the stored class tag goes through the
   * factory, and the stored stat block replaces the archetype's base stats.
   */
  function Rebuild(rec: Record): (r: Result<ChampionState, Error>)
    ensures r.Success? <==> Create(rec.classType, rec.name, rec.race, rec.gender).Success?
    ensures r.Failure? ==> r.error == Create(rec.classType, rec.name, rec.race, rec.gender).error
    ensures r.Success? ==>
      WellFormed(r.value) && r.value.name == rec.name && r.value.stats == rec.stats &&
      r.value.progress == INITIAL && FactoryKey(r.value.archetype) == rec.classType &&
      RaceName(r.value.race) == rec.race && GenderName(r.value.gender) == rec.gender
  {
    match Create(rec.classType, rec.name, rec.race, rec.gender)
    case Failure(e) => Failure(e)
    case Success(st) => Success(st.(stats := rec.stats))
  }

  /** Loading by name: a missing record is NotFound, otherwise the record is rebuilt. */
  function Load(store: Store, name: string): (r: Result<ChampionState, Error>)
    ensures name !in store ==> r == Failure(NotFound)
    ensures r.Success? ==> name in store
    ensures name in store ==> (r.Success? <==> Rebuild(store[name]).Success?)
    ensures name in store && r.Failure? ==> r.error == Rebuild(store[name]).error
    ensures r.Success? ==>
      WellFormed(r.value) && r.value.name == store[name].name && r.value.stats == store[name].stats &&
      r.value.progress == INITIAL && FactoryKey(r.value.archetype) == store[name].classType &&
      RaceName(r.value.race) == store[name].race && GenderName(r.value.gender) == store[name].gender
  {
    if name !in store then Failure(NotFound) else Rebuild(store[name])
  }

  /**
   * Save then load: for the five archetypes whose tag is a factory key the
   * identity, class tag, equipment and stat block come back and progression is
   * reset; a saved Ranger cannot be loaded.
   */
  lemma SaveLoadRoundTrip(store: Store, st: ChampionState)
    requires WellFormed(st)
    ensures st.archetype != Ranger ==>
      Load(store[st.name := Save(st)], st.name) == Success(st.(progress := INITIAL))
    ensures st.archetype == Ranger ==>
      Load(store[st.name := Save(st)], st.name) == Failure(UnknownVariant)
  {
    TagResolution(st.archetype);
  }
}
