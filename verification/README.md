# Champion Challenge: progression and combat core in Dafny

This project models the champion engine of a small turn-based role-playing game
(`champion_challenge.py`). A champion belongs to one of six archetypes:
Cleric, Fighter, Mage, Paladin, Ranger or Rogue. The archetype fixes the
champion's base stat block (health, attack, defense, magic, speed) and its
equipment. A champion gains experience, levels up, spends stat points, attacks
other champions, and is saved to and loaded from a record keyed by its name.

Layout, one module per component:

- `wrappers.dfy` (`Wrappers`): `Option` and `Result`.
- `domains.dfy` (`Domains`): the race, gender, weapon, shield and armour
  enumerations, `Equipment`, the `StatKey` enumeration, the `Stats` block, and
  member-name lookup for races and genders.
- `catalog.dfy` (`Catalog`): the archetype table. `ClassTag` is the
  `class_type` an archetype stores on itself. `FactoryKey` is its key in the
  factory's class table.
- `leveling.dfy` (`Leveling`): the progression record and the level-up,
  experience, death and stat-allocation rules as functions.
- `factory.dfy` (`Factory`): the value view of a champion (`ChampionState`) and
  the factory `Create`.
- `combat.dfy` (`Combat`): attack resolution. `Absorb` spends the pool unit by
  unit, `Damage` is its closed form, and `Duel`/`SelfDuel` give the whole
  effect of one attack.
- `persistence.dfy` (`Persistence`): the saved record, reconstruction and the
  round trip.
- `champions.dfy` (`Champions`): the `Champion` class. Its fields are updated in
  place by methods specified against the functions above. The module also holds
  the factory and load methods.
- `lifecycle.dfy` (`Lifecycle`): histories of events and the invariants that
  hold along them.

Behaviour kept as the code has it:

- The level-up guard is `level <= 100`, so a champion at level 100 still levels
  up. The reachable maximum is 101 (`Lifecycle.Level101Reachable`).
- The Ranger stores the tag `"RANGE"`, but the factory key is `"RANGER"`. A
  saved Ranger cannot be loaded (`Catalog.TagResolution`,
  `Persistence.SaveLoadRoundTrip`).
- Stat allocation does not reject negative deltas. A negative delta can even
  raise the stat points. The points left after an accepted allocation are still
  never negative (`Leveling.Allocate`).
- An unknown class string in a saved record fails as an unknown variant, the
  factory's key-lookup error.
- A defender with non-positive health keeps that health when attacked: the loop
  lowers health only while it is positive.
- Any of the five stats can supply the damage pool.
- Attacker and defender may be the same object. The pool is read before any
  damage. The defender's death is applied before the attacker's reward.

## Model

| member | source | states |
|---|---|---|
| `Domains.RaceName` | champion_challenge.py:120 | a race is saved under a non-empty upper-case member name |
| `Domains.GenderName` | champion_challenge.py:121 | a gender is saved under a non-empty upper-case member name |
| `Domains.ParseRace` | champion_challenge.py:8-13 | a race name resolves exactly when it is a member name, and it resolves to the member with that name |
| `Domains.ParseGender` | champion_challenge.py:16-19 | a gender name resolves exactly when it is a member name, and it resolves to the member with that name |
| `Catalog.BaseStats` | champion_challenge.py:156-243 | every archetype starts with non-negative stats and positive health |
| `Catalog.Gear` | champion_challenge.py:167-243 | every archetype carries at least one armour piece, never the same slot twice, and only the Cleric and the Fighter carry a shield |
| `Catalog.FactoryKey` | champion_challenge.py:249-256 | every factory key is a non-empty upper-case word |
| `Catalog.ClassTag` | champion_challenge.py:159-234 | an archetype's stored tag equals its factory key for every archetype except the Ranger |
| `Catalog.ParseClass` | champion_challenge.py:249-256 | exactly the six table keys resolve, each to its own archetype |
| `Catalog.TagResolution` | champion_challenge.py:216-256 | a stored `class_type` resolves back to its archetype for five classes; the Ranger's `"RANGE"` resolves to nothing |
| `Leveling.LevelUp` | champion_challenge.py:78-88 | a level-up either raises the level by exactly one or changes nothing, and it changes nothing exactly above level 100; level 100 goes to 101 and 101 is never exceeded; experience moves from current to total without loss, so total never drops while current is non-negative; an accepted level-up zeroes current experience, moves it into total experience, adds 3 points and multiplies the threshold by 1.2; the bounds invariant is kept |
| `Leveling.GainExp` | champion_challenge.py:90-93 | one gain raises the level by at most one, however far the threshold is passed; it levels exactly when the new current experience reaches the threshold below the cap; when it levels, current experience becomes 0, 3 points are added and the threshold is multiplied by 1.2; above level 100 the gain only accumulates; below the threshold only the current experience changes; total plus current experience grows by exactly the gain; a non-negative gain keeps the bounds invariant |
| `Leveling.LevelUpReport` | champion_challenge.py:78-83 | the max-level message is reported exactly when the level-up changes nothing |
| `Leveling.GainReport` | champion_challenge.py:90-93 | gaining experience reports the max-level message exactly when the threshold is reached above level 100 |
| `Leveling.Die` | champion_challenge.py:95-96 | death halves current experience exactly and leaves level, threshold, total experience and points alone |
| `Leveling.Allocate` | champion_challenge.py:141-153 | rejected as a whole exactly when the deltas sum to more than the points; otherwise every stat grows by its own delta and the points drop by the sum, never below zero; with non-negative deltas the points do not grow and non-negative stats stay non-negative |
| `Leveling.AllocateReport` | champion_challenge.py:141-146 | an allocation is silent exactly when the deltas fit the points; otherwise it reports the points on hand |
| `Factory.Create` | champion_challenge.py:248-258 | construction succeeds exactly when the class, race and gender strings are known and the name has at most 10 characters (the empty name included); the class lookup fails first, then race, then gender, then a name over 10 characters fails as too long; the result carries the archetype's base stats, equipment and tag and zeroed progression with threshold 100 |
| `Combat.Damage` | champion_challenge.py:102-111 | an attack never touches attack, magic or speed; a non-positive pool or a negative defense changes nothing; defense and health never rise; a defender already at zero health stays at zero; the unit that brings a positive defense to zero also costs one health; non-negative stats stay non-negative |
| `Combat.Strike` | champion_challenge.py:105-109 | one unit of damage equals the closed form for a pool of one |
| `Combat.Absorb` | champion_challenge.py:104-111 | spending any number of units leaves attack, magic and speed alone, never raises defense or health, and keeps non-negative stats non-negative |
| `Combat.StrikeStep` | champion_challenge.py:105-109 | one more unit of damage on top of the closed form for `m` units is the closed form for `m + 1` units |
| `Combat.AbsorbIsDamage` | champion_challenge.py:104-111 | spending a pool unit by unit agrees with the closed form for every pool size |
| `Combat.LethalPool` | champion_challenge.py:104-113 | a living defender ends at zero health exactly when the pool is at least defense plus health, minus one if defense was positive |
| `Combat.Duel` | champion_challenge.py:98-115 | between two champions only the attacker's progression and the defender's progression and stats change; the defender takes the closed-form damage of the attacker's pool; a defender left at zero health dies and the attacker gains 15 experience; a non-positive pool deals nothing; if the defender was already dead it dies again and the attacker is paid 15 experience again; a surviving defender leaves the attacker unchanged |
| `Combat.SelfDuel` | champion_challenge.py:98-115 | a champion attacking itself takes the closed-form damage of its own pool; if that leaves it at zero health it dies first and is then paid 15 experience |
| `Persistence.Save` | champion_challenge.py:118-124 | the record holds the champion's name, stats and class tag, and race and gender names that look up to the champion's own race and gender |
| `Persistence.Rebuild` | champion_challenge.py:134-139 | a record rebuilds exactly when the factory accepts its class tag, name, race and gender, with the same error otherwise; the rebuilt champion has the record's name, race, gender and stats, the archetype its tag names with that archetype's equipment, and fresh progression |
| `Persistence.Load` | champion_challenge.py:129-139 | loading a name without a record fails as not found; a stored record loads exactly when it rebuilds, failing with the rebuild's error otherwise; the loaded champion carries the stored name, race, gender and stat block, the archetype its tag names with that archetype's equipment, and fresh progression |
| `Persistence.SaveLoadRoundTrip` | champion_challenge.py:117-139 | saving and loading by name gives back name, race, gender, archetype, tag, equipment and stats with reset progression, for every archetype but the Ranger; a saved Ranger fails to load as an unknown variant |
| `Champions.Champion.constructor` | champion_challenge.py:50-76 | a new champion is valid and holds its archetype's tag, stats and equipment, level 0, threshold 100, and zero experience and points |
| `Champions.Champion.LevelUp` | champion_challenge.py:78-88 | the progression fields become `Leveling.LevelUp` of their old values, the report says whether the level was already above 100, and stats are untouched |
| `Champions.Champion.IncreaseExp` | champion_challenge.py:90-93 | the progression fields become `Leveling.GainExp` of their old values, and stats are untouched |
| `Champions.Champion.Death` | champion_challenge.py:95-96 | the progression fields become `Leveling.Die` of their old values, and stats are untouched |
| `Champions.Champion.IncreaseStats` | champion_challenge.py:141-153 | stats and points become the accepted allocation, or stay as they were with an insufficient-points report naming the points on hand; level and experience are untouched |
| `Champions.Champion.Attack` | champion_challenge.py:98-115 | a missing defender fails before anything changes; otherwise the countdown loop leaves the defender's stats at the closed form of the pool, and both champions end as `Duel` (or `SelfDuel` when they are one object) says, with the attacker's level report |
| `Champions.Champion.SaveCharacter` | champion_challenge.py:117-127 | saving puts the champion's record under its name, replacing any earlier one, and keeps every other record |
| `Champions.CreateChampClass` | champion_challenge.py:247-258 | the factory method returns a fresh, valid champion whose state is `Factory.Create`'s result, or that function's error |
| `Champions.LoadCharacter` | champion_challenge.py:129-139 | the load method returns a fresh, valid champion whose state is `Persistence.Load`'s result, or that function's error |
| `Champions.SaveThenLoad` | champion_challenge.py:117-139 | a champion saved and then loaded by its name comes back with its identity and stats and fresh progression, unless it is a Ranger, which fails to load |
| `Lifecycle.StepKeepsConsistent` | champion_challenge.py:78-153 | a level-up call, non-negative gain, death, non-negative allocation or incoming attack keeps the bounds invariant, keeps identity, and never lowers total experience |
| `Lifecycle.ReplayKeepsConsistent` | champion_challenge.py:78-153 | along any history of such events the bounds invariant holds and total experience never decreases |
| `Lifecycle.CreatedIsConsistent` | champion_challenge.py:50-76 | every champion the factory builds satisfies the bounds invariant |
| `Lifecycle.LevelNeverExceeds101` | champion_challenge.py:78-83 | along any history, whatever the signs of the amounts, the level never exceeds 101 |
| `Lifecycle.RepeatedLevelUps` | champion_challenge.py:78-88 | below the cap each level-up call raises the level by exactly one |
| `Lifecycle.Level101Reachable` | champion_challenge.py:63-83 | a fresh champion reaches level 101 after 101 level-up calls, and the next call changes nothing and reports the maximum level |

## Left out

- `Game.run` (interactive prompting and console output) is not part of this model.
- File access is not modelled. The store is a `map` from champion name to
  record. The JSON encoding and decoding of a record are taken as the identity.
- A saved file whose stat block lacks a key or has extra keys cannot be
  written down, because records are typed. Neither can a file whose fields have
  the wrong type.
- Console messages are returned as a `Report` value (`MaxLevelReached`,
  `InsufficientPoints(available)`) instead of printed.
- Experience arithmetic is exact `real`. The source uses IEEE-754 binary
  floats for `* 1.2` and `* 0.5`, so rounding is not modelled.
- The runtime type checks on name, race, gender and the defender are covered by
  typing. The one non-champion defender the model admits is `null`.
- A damage-source key outside the five stat keys raises a lookup error in the
  source. `StatKey` is closed, so that error is not modelled.
- `increase_exp` takes an `int` amount, as annotated. A float amount is not
  modelled.
- Champions.Champion.constructor: requires the name to have at most 10
  characters. The source's constructor raises on a longer name; that error path
  is modelled in `Factory.Create` and `Champions.CreateChampClass`, the only
  callers.
- Lifecycle.ReplayKeepsConsistent: holds only for non-negative experience gains and
  stat deltas. The source does not check signs, and a negative amount can
  break the bounds.
- Lifecycle.StepKeepsConsistent: the same restriction to non-negative amounts.
