/**
 * A champion's whole life as a sequence of events (level-up calls, experience
 * gains, deaths, stat allocations, incoming attacks) and the invariants that
 * hold along every such history.
 */
module Lifecycle {
  import opened Domains
  import opened Catalog
  import opened Leveling
  import opened Factory
  import opened Combat

  datatype Event =
    | LevelUpCall
    | ExpGain(exp: int)
    | Died
    | StatIncrease(delta: Stats)
    | Struck(pool: int)   // the defender's side of an attack with this pool

  /** One event applied to a champion. */
  function Step(st: ChampionState, e: Event): ChampionState
  {
    match e
    case LevelUpCall => st.(progress := LevelUp(st.progress))
    case ExpGain(exp) => st.(progress := GainExp(st.progress, exp))
    case Died => st.(progress := Die(st.progress))
    case StatIncrease(d) =>
      (match Allocate(st.progress.statPoints, st.stats, d)
       case None => st
       case Some(after) => st.(progress := st.progress.(statPoints := after.points), stats := after.stats))
    case Struck(pool) =>
      var hit := st.(stats := Damage(st.stats, pool));
      if hit.stats.health == 0 then hit.(progress := Die(hit.progress)) else hit
  }

  /** Events applied in order. */
  function Replay(st: ChampionState, es: seq<Event>): ChampionState
    decreases |es|
  {
    if es == [] then st else Replay(Step(st, es[0]), es[1..])
  }

  /** Events whose amounts are non-negative; the source itself does not check signs. */
  predicate Benign(e: Event)
  {
    match e
    case ExpGain(exp) => exp >= 0
    case StatIncrease(d) => d.NonNegative()
    case _ => true
  }

  /** The invariant of a champion reachable with non-negative amounts. */
  predicate Consistent(st: ChampionState)
  {
    WellFormed(st) && Leveling.Sane(st.progress) && st.stats.NonNegative()
  }

  /** A benign event keeps the invariant, identity and all, and never lowers total experience. */
  lemma StepKeepsConsistent(st: ChampionState, e: Event)
    requires Consistent(st) && Benign(e)
    ensures Consistent(Step(st, e))
    ensures Step(st, e).progress.totalExp >= st.progress.totalExp
    ensures Step(st, e) == st.(progress := Step(st, e).progress, stats := Step(st, e).stats)
  {
  }

  /** Along any history of benign events the invariant holds and total experience never decreases. */
  lemma {:induction false} ReplayKeepsConsistent(st: ChampionState, es: seq<Event>)
    requires Consistent(st)
    requires forall i :: 0 <= i < |es| ==> Benign(es[i])
    ensures Consistent(Replay(st, es))
    ensures Replay(st, es).progress.totalExp >= st.progress.totalExp
    decreases |es|
  {
    if es != [] {
      StepKeepsConsistent(st, es[0]);
      ReplayKeepsConsistent(Step(st, es[0]), es[1..]);
    }
  }

  /** Every champion the factory builds satisfies the invariant. */
  lemma CreatedIsConsistent(className: string, name: string, race: string, gender: string)
    requires Create(className, name, race, gender).Success?
    ensures Consistent(Create(className, name, race, gender).value)
  {
  }

  /** Whatever the events, signs included, the level never exceeds 101 once it starts at most there. */
  lemma {:induction false} LevelNeverExceeds101(st: ChampionState, es: seq<Event>)
    requires st.progress.level <= LEVEL_GUARD + 1
    ensures Replay(st, es).progress.level <= LEVEL_GUARD + 1
    decreases |es|
  {
    if es != [] {
      LevelNeverExceeds101(Step(st, es[0]), es[1..]);
    }
  }

  /** `k` copies of one event. */
  function Repeat(e: Event, k: nat): (es: seq<Event>)
    ensures |es| == k
    ensures forall i :: 0 <= i < k ==> es[i] == e
  {
    if k == 0 then [] else [e] + Repeat(e, k - 1)
  }

  /** Below the cap every level-up call raises the level by one. */
  lemma {:induction false} RepeatedLevelUps(st: ChampionState, k: nat)
    requires 0 <= st.progress.level && st.progress.level + k <= LEVEL_GUARD + 1
    ensures Replay(st, Repeat(LevelUpCall, k)).progress.level == st.progress.level + k
    decreases k
  {
    if k > 0 {
      var es := Repeat(LevelUpCall, k);
      assert es[0] == LevelUpCall && es[1..] == Repeat(LevelUpCall, k - 1);
      RepeatedLevelUps(Step(st, LevelUpCall), k - 1);
    }
  }

  /** A fresh champion reaches level 101 after 101 level-up calls, and a further call is refused. */
  lemma Level101Reachable(a: Archetype, name: string, race: Race, gender: Gender)
    ensures Replay(Fresh(a, name, race, gender), Repeat(LevelUpCall, 101)).progress.level == 101
    ensures var top := Replay(Fresh(a, name, race, gender), Repeat(LevelUpCall, 101));
      Step(top, LevelUpCall) == top && LevelUpReport(top.progress) == MaxLevelReached
  {
    RepeatedLevelUps(Fresh(a, name, race, gender), 101);
  }
}
