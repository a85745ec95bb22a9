/**
 * Attack resolution. The damage pool is the attacker's value under the chosen
 * stat key; it is spent one unit at a time, each unit first lowering a
 * positive defense and then, if defense is zero, lowering a positive health.
 * The unit that brings defense to zero therefore also costs one health.
 */
module Combat {
  import opened Domains
  import opened Leveling
  import opened Factory

  /** Experience an attacker earns when the defender ends at zero health. */
  const KILL_REWARD := 15

  /** One unit of damage, as the loop body spends it. */
  function Strike(s: Stats): (r: Stats)
    ensures r == Damage(s, 1)
  {
    var afterDefense := if s.defense > 0 then s.(defense := s.defense - 1) else s;
    if afterDefense.defense == 0 && afterDefense.health > 0
    then afterDefense.(health := afterDefense.health - 1)
    else afterDefense
  }

  /** `m` units of damage, spent one after the other. */
  function Absorb(s: Stats, m: nat): (r: Stats)
    ensures r.attack == s.attack && r.magic == s.magic && r.speed == s.speed
    ensures r.defense <= s.defense && r.health <= s.health
    ensures s.NonNegative() ==> r.NonNegative()
  {
    if m == 0 then s else Strike(Absorb(s, m - 1))
  }

  function Max(a: int, b: int): int
  {
    if a >= b then a else b
  }

  /** Units of a pool of `n` that reach health when defense starts at `d`. */
  function HealthUnits(d: int, n: int): int
  {
    if d < 0 || n <= 0 then 0
    else if d == 0 then n
    else if n >= d then n - d + 1
    else 0
  }

  /** The effect of a whole damage pool, in closed form. */
  function Damage(s: Stats, pool: int): (r: Stats)
    ensures r.attack == s.attack && r.magic == s.magic && r.speed == s.speed
    ensures pool <= 0 || s.defense < 0 ==> r == s
    ensures r.defense <= s.defense && r.health <= s.health
    ensures s.health == 0 ==> r.health == 0
    ensures s.defense > 0 && s.health > 0 && pool == s.defense ==>
      r.defense == 0 && r.health == s.health - 1
    ensures s.NonNegative() ==> r.NonNegative()
  {
    s.(defense := if s.defense > 0 && pool > 0 then Max(0, s.defense - pool) else s.defense,
       health := if s.health > 0 then Max(0, s.health - HealthUnits(s.defense, pool)) else s.health)
  }

  /** One more unit on top of `m` units is the closed form for `m + 1` units. */
  lemma StrikeStep(s: Stats, m: nat)
    ensures Strike(Damage(s, m)) == Damage(s, m + 1)
  {
  }

  /** Spending the pool unit by unit agrees with the closed form. */
  lemma {:induction false} AbsorbIsDamage(s: Stats, m: nat)
    ensures Absorb(s, m) == Damage(s, m)
  {
    if m > 0 {
      AbsorbIsDamage(s, m - 1);
      StrikeStep(s, m - 1);
    }
  }

  /**
   * A defender with non-negative defense and positive health ends at zero
   * health exactly when the pool covers its defense and health, counting
   * the transitional unit once.
   */
  lemma LethalPool(s: Stats, pool: int)
    requires s.defense >= 0 && s.health > 0
    ensures Damage(s, pool).health == 0 <==>
      pool >= s.defense + s.health - (if s.defense > 0 then 1 else 0)
  {
  }

  /** The attacker's and the defender's states after an attack between two distinct champions. */
  function Duel(attacker: ChampionState, defender: ChampionState, key: StatKey)
    : (r: (ChampionState, ChampionState))
    ensures r.0 == attacker.(progress := r.0.progress)
    ensures r.1 == defender.(progress := r.1.progress, stats := r.1.stats)
    ensures r.1.stats == Damage(defender.stats, attacker.stats.Get(key))
    ensures r.1.stats.health == 0 ==>
      r.0.progress == GainExp(attacker.progress, KILL_REWARD) && r.1.progress == Die(defender.progress)
    ensures attacker.stats.Get(key) <= 0 ==> r.1.stats == defender.stats
    ensures defender.stats.health == 0 ==>
      r.0.progress == GainExp(attacker.progress, KILL_REWARD) && r.1.progress == Die(defender.progress)
    ensures r.1.stats.health != 0 ==> r.0 == attacker && r.1.progress == defender.progress
  {
    var hit := defender.(stats := Damage(defender.stats, attacker.stats.Get(key)));
    if hit.stats.health == 0
    then (attacker.(progress := GainExp(attacker.progress, KILL_REWARD)),
          hit.(progress := Die(hit.progress)))
    else (attacker, hit)
  }

  /** A champion's state after it attacks itself: it dies before it is rewarded. */
  function SelfDuel(c: ChampionState, key: StatKey): (r: ChampionState)
    ensures r == c.(progress := r.progress, stats := r.stats)
    ensures r.stats == Damage(c.stats, c.stats.Get(key))
    ensures r.stats.health == 0 ==> r.progress == GainExp(Die(c.progress), KILL_REWARD)
    ensures r.stats.health != 0 ==> r.progress == c.progress
  {
    var hit := c.(stats := Damage(c.stats, c.stats.Get(key)));
    if hit.stats.health == 0
    then hit.(progress := GainExp(Die(hit.progress), KILL_REWARD))
    else hit
  }
}
