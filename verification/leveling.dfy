/**
 * The progression state machine of a champion: level, experience threshold,
 * current and total experience, and spendable stat points. Experience is
 * kept as an exact `real`, because the threshold grows by a factor of 1.2
 * and a death halves the current experience.
 */
module Leveling {
  import opened Wrappers
  import opened Domains

  datatype Progression = Progression(
    level: int,
    expNeeded: real,
    currentExp: real,
    totalExp: real,
    statPoints: int)

  /** The status a progression operation reports instead of printing it. */
  datatype Report = Silent | MaxLevelReached | InsufficientPoints(available: int)

  /** Progression of a freshly constructed champion. */
  const INITIAL := Progression(0, 100.0, 0.0, 0.0, 0)

  /** A level-up is refused only once the level exceeds this value. */
  const LEVEL_GUARD := 100

  const POINTS_PER_LEVEL := 3

  const EXP_GROWTH: real := 1.2

  const DEATH_FACTOR: real := 0.5

  predicate AtMaxLevel(p: Progression)
  {
    p.level > LEVEL_GUARD
  }

  /** The bounds every progression reachable with non-negative gains keeps. */
  predicate Sane(p: Progression)
  {
    0 <= p.level <= LEVEL_GUARD + 1 &&
    p.expNeeded >= 100.0 &&
    p.currentExp >= 0.0 &&
    p.totalExp >= 0.0 &&
    p.statPoints >= 0
  }

  /** One level-up: all or nothing, refused above the level guard. */
  function LevelUp(p: Progression): (r: Progression)
    ensures r.level == p.level + 1 || r == p
    ensures r == p <==> AtMaxLevel(p)
    ensures p.level == LEVEL_GUARD ==> r.level == LEVEL_GUARD + 1
    ensures p.level <= LEVEL_GUARD + 1 ==> r.level <= LEVEL_GUARD + 1
    ensures r.totalExp + r.currentExp == p.totalExp + p.currentExp
    ensures p.currentExp >= 0.0 ==> r.totalExp >= p.totalExp
    ensures r != p ==> r.currentExp == 0.0 && r.statPoints == p.statPoints + POINTS_PER_LEVEL
    ensures r != p ==> r.expNeeded == p.expNeeded * EXP_GROWTH && r.totalExp == p.totalExp + p.currentExp
    ensures Sane(p) ==> Sane(r)
  {
    if AtMaxLevel(p) then p
    else Progression(
      p.level + 1,
      p.expNeeded * EXP_GROWTH,
      0.0,
      p.totalExp + p.currentExp,
      p.statPoints + POINTS_PER_LEVEL)
  }

  /** What a level-up reports. */
  function LevelUpReport(p: Progression): (r: Report)
    ensures r == MaxLevelReached <==> LevelUp(p) == p
    ensures r == Silent || r == MaxLevelReached
  {
    if AtMaxLevel(p) then MaxLevelReached else Silent
  }

  /** The progression right after `exp` is added, before the threshold test. */
  function Credit(p: Progression, exp: int): Progression
  {
    p.(currentExp := p.currentExp + exp as real)
  }

  /**
   * Gaining experience: the amount is added to the current experience, and
   * at most one level-up follows, however far the threshold is exceeded.
   */
  function GainExp(p: Progression, exp: int): (r: Progression)
    ensures r.level == p.level || r.level == p.level + 1
    ensures r.level == p.level + 1 <==> p.currentExp + exp as real >= p.expNeeded && !AtMaxLevel(p)
    ensures p.currentExp + exp as real < p.expNeeded ==> r == p.(currentExp := p.currentExp + exp as real)
    ensures r.level == p.level + 1 ==>
      r.currentExp == 0.0 && r.statPoints == p.statPoints + POINTS_PER_LEVEL &&
      r.expNeeded == p.expNeeded * EXP_GROWTH && r.totalExp == p.totalExp + p.currentExp + exp as real
    ensures AtMaxLevel(p) ==> r == Credit(p, exp)
    ensures r.totalExp + r.currentExp == p.totalExp + p.currentExp + exp as real
    ensures Sane(p) && exp >= 0 ==> Sane(r)
  {
    var q := Credit(p, exp);
    if q.currentExp >= q.expNeeded then LevelUp(q) else q
  }

  /** What gaining experience reports: only a refused level-up says anything. */
  function GainReport(p: Progression, exp: int): (r: Report)
    ensures r == MaxLevelReached <==> AtMaxLevel(p) && p.currentExp + exp as real >= p.expNeeded
    ensures r == Silent || r == MaxLevelReached
  {
    var q := Credit(p, exp);
    if q.currentExp >= q.expNeeded then LevelUpReport(q) else Silent
  }

  /** Death halves the current experience and touches nothing else. */
  function Die(p: Progression): (r: Progression)
    ensures r.level == p.level && r.expNeeded == p.expNeeded
    ensures r.totalExp == p.totalExp && r.statPoints == p.statPoints
    ensures r.currentExp + r.currentExp == p.currentExp
    ensures Sane(p) ==> Sane(r) && r.currentExp <= p.currentExp
  {
    p.(currentExp := p.currentExp * DEATH_FACTOR)
  }

  /** The stat points and stat block after an accepted allocation. */
  datatype Allocation = Allocation(points: int, stats: Stats)

  /**
   * Stat allocation: rejected as a whole when the deltas sum to more than
   * the available points; otherwise every stat grows by its own delta and
   * the points drop by the sum. The sign of a delta is not checked.
   */
  function Allocate(points: int, s: Stats, d: Stats): (r: Option<Allocation>)
    ensures r.None? <==> d.Total() > points
    ensures r.Some? ==> r.value.points + d.Total() == points && r.value.points >= 0
    ensures r.Some? ==> forall k :: r.value.stats.Get(k) == s.Get(k) + d.Get(k)
    ensures r.Some? && d.NonNegative() ==> r.value.points <= points
    ensures r.Some? && s.NonNegative() && d.NonNegative() ==> r.value.stats.NonNegative()
  {
    if d.Total() > points then None
    else Some(Allocation(
      points - d.Total(),
      Stats(s.health + d.health, s.attack + d.attack, s.defense + d.defense,
            s.magic + d.magic, s.speed + d.speed)))
  }

  /** What an allocation reports: the rejected case names the points on hand. */
  function AllocateReport(points: int, d: Stats): (r: Report)
    ensures r == Silent <==> d.Total() <= points
    ensures r == Silent || r == InsufficientPoints(points)
  {
    if d.Total() > points then InsufficientPoints(points) else Silent
  }
}
