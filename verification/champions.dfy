/**
 * The champion object: identity, archetype, class tag and equipment are fixed
 * at construction; progression and the stat block are updated in place by
 * leveling, experience, death, stat allocation and combat. Every method is
 * specified against the value-level functions of Leveling, Combat, Factory
 * and Persistence.
 */
module Champions {
  import opened Wrappers
  import opened Domains
  import opened Catalog
  import Leveling
  import Combat
  import opened Factory
  import opened Persistence

  /** What an attack reports: whether the defender ended at zero health, and the attacker's level report. */
  datatype AttackOutcome = AttackOutcome(slain: bool, report: Leveling.Report)

  class Champion {
    const name: string
    const race: Race
    const gender: Gender
    const archetype: Archetype
    const classType: string
    const equipment: Equipment

    var level: int
    var expNeeded: real
    var currentExp: real
    var totalExp: real
    var statPoints: int
    var stats: Stats

    /** What construction establishes; it rests on const fields only, so nothing later can break it. */
    predicate Valid()
    {
      |name| <= MAX_NAME_LENGTH && classType == ClassTag(archetype) && equipment == Gear(archetype)
    }

    function Progress(): Leveling.Progression
      reads this
    {
      Leveling.Progression(level, expNeeded, currentExp, totalExp, statPoints)
    }

    function State(): ChampionState
      reads this
    {
      ChampionState(name, race, gender, archetype, classType, equipment, Progress(), stats)
    }

    /** An archetype's constructor, reached only through the factory once the name is validated. */
    constructor (a: Archetype, name: string, race: Race, gender: Gender)
      requires |name| <= MAX_NAME_LENGTH
      ensures Valid() && State() == Fresh(a, name, race, gender)
    {
      this.name := name;
      this.race := race;
      this.gender := gender;
      archetype := a;
      level := 0;
      expNeeded := 100.0;
      currentExp := 0.0;
      totalExp := 0.0;
      statPoints := 0;
      classType := ClassTag(a);
      stats := BaseStats(a);
      equipment := Gear(a);
    }

    method LevelUp() returns (report: Leveling.Report)
      modifies this
      ensures Progress() == Leveling.LevelUp(old(Progress()))
      ensures report == Leveling.LevelUpReport(old(Progress()))
      ensures stats == old(stats)
    {
      if level <= Leveling.LEVEL_GUARD {
        level := level + 1;
      } else {
        report := Leveling.MaxLevelReached;
        return;
      }
      statPoints := statPoints + Leveling.POINTS_PER_LEVEL;
      totalExp := totalExp + currentExp;
      currentExp := 0.0;
      expNeeded := expNeeded * Leveling.EXP_GROWTH;
      report := Leveling.Silent;
    }

    method IncreaseExp(exp: int) returns (report: Leveling.Report)
      modifies this
      ensures Progress() == Leveling.GainExp(old(Progress()), exp)
      ensures report == Leveling.GainReport(old(Progress()), exp)
      ensures stats == old(stats)
    {
      currentExp := currentExp + exp as real;
      report := Leveling.Silent;
      if currentExp >= expNeeded {
        report := LevelUp();
      }
    }

    method Death()
      modifies this
      ensures Progress() == Leveling.Die(old(Progress()))
      ensures stats == old(stats)
    {
      currentExp := currentExp * Leveling.DEATH_FACTOR;
    }

    method IncreaseStats(health: int, attack: int, defense: int, magic: int, speed: int)
      returns (report: Leveling.Report)
      modifies this
      ensures var delta := Stats(health, attack, defense, magic, speed);
        match Leveling.Allocate(old(statPoints), old(stats), delta)
        case None => stats == old(stats) && statPoints == old(statPoints)
        case Some(after) => stats == after.stats && statPoints == after.points
      ensures report == Leveling.AllocateReport(old(statPoints), Stats(health, attack, defense, magic, speed))
      ensures level == old(level) && expNeeded == old(expNeeded)
      ensures currentExp == old(currentExp) && totalExp == old(totalExp)
    {
      var totalPoints := health + attack + defense + magic + speed;
      if totalPoints > statPoints {
        report := Leveling.InsufficientPoints(statPoints);
        return;
      }
      stats := stats.(health := stats.health + health);
      stats := stats.(attack := stats.attack + attack);
      stats := stats.(defense := stats.defense + defense);
      stats := stats.(magic := stats.magic + magic);
      stats := stats.(speed := stats.speed + speed);
      statPoints := statPoints - totalPoints;
      report := Leveling.Silent;
    }

    /**
     * Attack `defender` with the pool held under `attackType`. A missing
     * defender fails before anything changes. Attacker and defender may be
     * the same object.
     */
    method Attack(attackType: StatKey, defender: Champion?) returns (r: Result<AttackOutcome, Error>)
      modifies this, defender
      ensures defender == null ==> r == Failure(TypeMismatch) && unchanged(this)
      ensures defender != null ==> r.Success? && r.value.slain == (defender.stats.health == 0)
      ensures defender != null && defender != this ==>
        (State(), defender.State()) == Combat.Duel(old(State()), old(defender.State()), attackType)
      ensures defender == this ==> State() == Combat.SelfDuel(old(State()), attackType)
      ensures defender != null ==>
        var before := if defender == this then Leveling.Die(old(Progress())) else old(Progress());
        r.value.report ==
          if r.value.slain then Leveling.GainReport(before, Combat.KILL_REWARD) else Leveling.Silent
    {
      if defender == null {
        return Failure(TypeMismatch);
      }
      var attackPoints := stats.Get(attackType);
      ghost var pool := attackPoints;
      ghost var target := defender.stats;
      while attackPoints > 0
        modifies defender
        invariant attackPoints <= pool
        invariant pool > 0 ==> attackPoints >= 0
        invariant pool <= 0 ==> attackPoints == pool
        invariant defender.stats == Combat.Absorb(target, pool - attackPoints)
        invariant defender.Progress() == old(defender.Progress())
      {
        if defender.stats.defense > 0 {
          defender.stats := defender.stats.(defense := defender.stats.defense - 1);
        }
        if defender.stats.defense == 0 && defender.stats.health > 0 {
          defender.stats := defender.stats.(health := defender.stats.health - 1);
        }
        attackPoints := attackPoints - 1;
      }
      Combat.AbsorbIsDamage(target, pool - attackPoints);
      assert defender.stats == Combat.Damage(target, pool);
      var slain := defender.stats.health == 0;
      var report := Leveling.Silent;
      if slain {
        defender.Death();
        report := IncreaseExp(Combat.KILL_REWARD);
      }
      r := Success(AttackOutcome(slain, report));
    }

    /** The store after this champion is saved: its record replaces any under its name. */
    function SaveCharacter(store: Store): (s: Store)
      reads this
      ensures s.Keys == store.Keys + {name}
      ensures s[name] == Save(State())
      ensures forall k :: k in store && k != name ==> s[k] == store[k]
    {
      store[name := Save(State())]
    }
  }

  /** The factory: a fresh champion of the class named, or the first failing lookup or check. */
  method CreateChampClass(className: string, champName: string, race: string, gender: string)
    returns (r: Result<Champion, Error>)
    ensures r.Success? <==> Create(className, champName, race, gender).Success?
    ensures r.Success? ==>
      fresh(r.value) && r.value.Valid() && r.value.State() == Create(className, champName, race, gender).value
    ensures r.Failure? ==> r.error == Create(className, champName, race, gender).error
  {
    var a := ParseClass(className);
    if a.None? {
      return Failure(UnknownVariant);
    }
    var rc := ParseRace(race);
    if rc.None? {
      return Failure(UnknownRace);
    }
    var g := ParseGender(gender);
    if g.None? {
      return Failure(UnknownGender);
    }
    if |champName| > MAX_NAME_LENGTH {
      return Failure(NameTooLong);
    }
    var c := new Champion(a.value, champName, rc.value, g.value);
    return Success(c);
  }

  /** Load by name: rebuild through the factory, then overwrite the stat block with the saved one. */
  method LoadCharacter(store: Store, charName: string) returns (r: Result<Champion, Error>)
    ensures r.Success? <==> Load(store, charName).Success?
    ensures r.Success? ==> fresh(r.value) && r.value.Valid() && r.value.State() == Load(store, charName).value
    ensures r.Failure? ==> r.error == Load(store, charName).error
  {
    if charName !in store {
      return Failure(NotFound);
    }
    var rec := store[charName];
    var created := CreateChampClass(rec.classType, rec.name, rec.race, rec.gender);
    if created.Failure? {
      return Failure(created.error);
    }
    var c := created.value;
    c.stats := rec.stats;
    return Success(c);
  }

  /**
   * Saving a champion and loading it by its name gives back its identity,
   * class tag, equipment and stat block with fresh progression, unless it is
   * a Ranger, which cannot be loaded.
   */
  lemma SaveThenLoad(c: Champion, store: Store)
    requires c.Valid()
    ensures c.archetype != Ranger ==>
      Load(c.SaveCharacter(store), c.name) == Success(c.State().(progress := Leveling.INITIAL))
    ensures c.archetype == Ranger ==> Load(c.SaveCharacter(store), c.name) == Failure(UnknownVariant)
  {
    SaveLoadRoundTrip(store, c.State());
  }
}
