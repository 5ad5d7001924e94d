// Abilities: when they fire (the global round-loss gate, the one-shot
// delay, the ordered conditions and the slot check) and what firing does
// (each modifier in declared order).

module Abilities {
  import opened Types
  import opened Cards
  import opened Board
  import opened Effects
  import opened Modifiers

  /** The phase an ability runs in: that of its first modifier. An ability
      without modifiers has none (the source unwraps). */
  function AbilityEventTime(ab: Effects.Ability): (r: EventTime)
    requires |ab.modifiers| > 0
    ensures r == EventTimeOf(ab.modifiers[0])
  {
    EventTimeOf(ab.modifiers[0])
  }

  /** Whether some card among `cards[i..]` has a catalog clan in `clans`. */
  function AnyOfClans(cards: Cards4, clans: seq<Clan>, base: U32 -> BaseCard, i: nat): bool
    requires i <= 4
    decreases 4 - i
  {
    if i == 4 then false
    else if ClanOf(base, cards[i]) in clans then true
    else AnyOfClans(cards, clans, base, i + 1)
  }

  /** The scan finds a clan exactly when one exists. */
  lemma {:induction false} AnyOfClansIff(cards: Cards4, clans: seq<Clan>, base: U32 -> BaseCard, i: nat)
    requires i <= 4
    decreases 4 - i
    ensures AnyOfClans(cards, clans, base, i) <==> exists j :: i <= j < 4 && ClanOf(base, cards[j]) in clans
  {
    if i < 4 {
      AnyOfClansIff(cards, clans, base, i + 1);
      if ClanOf(base, cards[i]) in clans {
        assert i <= i < 4;
      }
    }
  }

  /** Whether a condition holds for the acting side. Day and Night are not
      distinguished and always hold, as does any unrecognised condition. */
  predicate IsMet(c: Condition, d: BattleData, b: Board, base: U32 -> BaseCard)
  {
    var me := Me(b, d);
    match c
    case Defeat => me.won == Lose
    case Night => true
    case Day => true
    case Courage => d.first
    case Revenge => me.wonPrevious == Lose
    case Confidence => me.wonPrevious == Win
    case Reprisal => !d.first
    case Killshot => MyCard(b, d).attack.value >= Wrap8(OppCard(b, d).attack.value * 2)
    case Backlash => me.won == Win
    case Reanimate => me.won == Lose && me.life == 0
    case Stop => MyCard(b, d).ability.cancelled != 0
    case Symmetry => MyCard(b, d).index == OppCard(b, d).index
    case Asymmetry => MyCard(b, d).index != OppCard(b, d).index
    case Infiltrate(clans) =>
      var oc := MyHand(b, d).oculusClan;
      oc != NoClan && oc in clans
    case Versus(clans) => AnyOfClans(OppHand(b, d).cards, clans, base, 0)
    case _ => true
  }

  /** Versus holds exactly when some opposing card belongs to one of the
      listed clans. */
  lemma VersusIff(clans: seq<Clan>, d: BattleData, b: Board, base: U32 -> BaseCard)
    ensures IsMet(Versus(clans), d, b, base) <==>
      exists j :: 0 <= j < 4 && ClanOf(base, OppHand(b, d).cards[j]) in clans
  {
    AnyOfClansIff(OppHand(b, d).cards, clans, base, 0);
  }

  /** Killshot compares against a doubled attack computed in a byte: an
      opposing attack of 128 doubles to 0, so any attack kills. */
  lemma KillshotDoubleWraps(d: BattleData, b: Board, base: U32 -> BaseCard)
    requires OppCard(b, d).attack.value == 128 && MyCard(b, d).attack.value == 0
    ensures IsMet(Killshot, d, b, base)
  {
  }

  /** Without wrap-around, Killshot is "at least twice the opposing attack". */
  lemma KillshotNoWrap(d: BattleData, b: Board, base: U32 -> BaseCard)
    requires OppCard(b, d).attack.value < 128
    ensures IsMet(Killshot, d, b, base) <==> MyCard(b, d).attack.value >= 2 * OppCard(b, d).attack.value
  {
  }

  /** Whether every condition holds. */
  predicate AllMet(conds: seq<Condition>, d: BattleData, b: Board, base: U32 -> BaseCard)
  {
    forall j :: 0 <= j < |conds| ==> IsMet(conds[j], d, b, base)
  }

  /** The final gate: an ability needs its card's ability slot unblocked, a
      bonus its bonus slot; a plain global always passes. */
  predicate SlotOpen(t: AbilityType, card: Card)
  {
    match t
    case Ability => !IsBlocked(card.ability)
    case GlobalAbility => !IsBlocked(card.ability)
    case Bonus => !IsBlocked(card.bonus)
    case GlobalBonus => !IsBlocked(card.bonus)
    case Global => true
  }

  predicate IsGlobalKind(ab: Effects.Ability)
  {
    ab.abilityType == GlobalAbility || ab.abilityType == GlobalBonus
  }

  /** The gate with its side effects on the ability's flags: an unwon global
      ability or bonus whose owner lost the round is flagged for removal and
      fails, otherwise it is marked won; a delayed ability fails once and
      loses the delay; then every condition and the slot must hold. */
  function CanApplyF(ab: Effects.Ability, d: BattleData, b: Board, base: U32 -> BaseCard): (r: (Effects.Ability, bool))
    ensures r.0.abilityType == ab.abilityType && r.0.modifiers == ab.modifiers && r.0.conditions == ab.conditions
  {
    if IsGlobalKind(ab) && !ab.won && Me(b, d).won == Lose then
      (ab.(remove := true), false)
    else
      var ab1 := if IsGlobalKind(ab) && !ab.won then ab.(won := true) else ab;
      if ab1.delayed then (ab1.(delayed := false), false)
      else (ab1, AllMet(ab1.conditions, d, b, base) && SlotOpen(ab1.abilityType, MyCard(b, d)))
  }

  /** The gate as the source runs it: flag updates, then the conditions in
      order, stopping at the first that does not hold. */
  method CanApply(ab: Effects.Ability, d: BattleData, b: Board, base: U32 -> BaseCard)
    returns (ab': Effects.Ability, ok: bool)
    ensures (ab', ok) == CanApplyF(ab, d, b, base)
  {
    ab' := ab;
    if IsGlobalKind(ab') && !ab'.won {
      if Me(b, d).won == Lose {
        ab' := ab'.(remove := true);
        return ab', false;
      } else {
        ab' := ab'.(won := true);
      }
    }
    if ab'.delayed {
      ab' := ab'.(delayed := false);
      return ab', false;
    }
    var i := 0;
    while i < |ab'.conditions|
      invariant 0 <= i <= |ab'.conditions|
      invariant forall j :: 0 <= j < i ==> IsMet(ab'.conditions[j], d, b, base)
    {
      if !IsMet(ab'.conditions[i], d, b, base) {
        return ab', false;
      }
      i := i + 1;
    }
    ok := SlotOpen(ab'.abilityType, MyCard(b, d));
  }

  /** An unwon global ability or bonus of a player who lost the round is
      flagged for removal and does not fire. */
  lemma GlobalLossRemoves(ab: Effects.Ability, d: BattleData, b: Board, base: U32 -> BaseCard)
    requires IsGlobalKind(ab) && !ab.won && Me(b, d).won == Lose
    ensures CanApplyF(ab, d, b, base).0.remove && !CanApplyF(ab, d, b, base).1
  {
  }

  /** Once a global has passed the round-loss gate it is marked won, and the
      gate never fires again: later calls never flag it for removal. */
  lemma GlobalGateOnce(ab: Effects.Ability, d: BattleData, b: Board, base: U32 -> BaseCard,
                       d': BattleData, b': Board)
    requires IsGlobalKind(ab) && !(!ab.won && Me(b, d).won == Lose)
    ensures CanApplyF(ab, d, b, base).0.won
    ensures CanApplyF(CanApplyF(ab, d, b, base).0, d', b', base).0.remove == ab.remove
  {
  }

  /** A delayed ability fails exactly once: the call clears `delayed`, and a
      second call on the same state is decided by the conditions and the
      slot alone. */
  lemma DelayedOnce(ab: Effects.Ability, d: BattleData, b: Board, base: U32 -> BaseCard)
    requires ab.delayed && !(IsGlobalKind(ab) && !ab.won && Me(b, d).won == Lose)
    ensures !CanApplyF(ab, d, b, base).1 && !CanApplyF(ab, d, b, base).0.delayed
    ensures var again := CanApplyF(CanApplyF(ab, d, b, base).0, d, b, base);
      again.1 == (AllMet(ab.conditions, d, b, base) && SlotOpen(ab.abilityType, MyCard(b, d)))
  {
  }

  /** A condition that does not hold, anywhere in the list, stops the ability. */
  lemma UnmetConditionStops(ab: Effects.Ability, d: BattleData, b: Board, base: U32 -> BaseCard, k: nat)
    requires k < |ab.conditions| && !IsMet(ab.conditions[k], d, b, base)
    ensures !CanApplyF(ab, d, b, base).1
  {
  }

  /** A gate that passes implies every condition and the slot check hold and
      the ability was not delayed. */
  lemma GatePassed(ab: Effects.Ability, d: BattleData, b: Board, base: U32 -> BaseCard)
    requires CanApplyF(ab, d, b, base).1
    ensures !ab.delayed && AllMet(ab.conditions, d, b, base) && SlotOpen(ab.abilityType, MyCard(b, d))
    ensures IsGlobalKind(ab) ==> Me(b, d).won != Lose || ab.won
  {
  }

  /** Firing the first `n` modifiers in order: the updated modifiers, the
      board, and the result of the last one (each result replaces the
      previous, so only the last modifier's spawned ability survives). */
  function RunModifiers(mods: seq<Modifier>, d: BattleData, b: Board, cat: Catalog, n: nat)
    : (r: (seq<Modifier>, Board, Option<Effects.Ability>))
    requires n <= |mods|
    ensures |r.0| == n
    ensures forall j :: 0 <= j < n ==> EventTimeOf(r.0[j]) == EventTimeOf(mods[j])
    ensures forall j :: 0 <= j < n && !mods[j].CancelMod? ==> r.0[j] == mods[j]
    ensures r.2.Some? ==> n > 0 && mods[n - 1].CopyMod?
  {
    if n == 0 then ([], b, None)
    else
      var (done, b1, _) := RunModifiers(mods, d, b, cat, n - 1);
      var (m', b2, a) := ModifierApply(mods[n - 1], d, b1, cat);
      (done + [m'], b2, a)
  }

  /** Firing an ability: if the gate passes, all modifiers in order. */
  function ApplyF(ab: Effects.Ability, d: BattleData, b: Board, cat: Catalog)
    : (r: (Effects.Ability, Board, Option<Effects.Ability>))
    ensures !CanApplyF(ab, d, b, cat.card).1 ==> r.1 == b && r.2.None?
    ensures r.0.abilityType == ab.abilityType && |r.0.modifiers| == |ab.modifiers|
    ensures |ab.modifiers| > 0 ==> AbilityEventTime(r.0) == AbilityEventTime(ab)
    ensures r.2.Some? ==> |ab.modifiers| > 0 && ab.modifiers[|ab.modifiers| - 1].CopyMod?
  {
    var (ab1, ok) := CanApplyF(ab, d, b, cat.card);
    if !ok then (ab1, b, None)
    else
      var (mods, b2, a) := RunModifiers(ab1.modifiers, d, b, cat, |ab1.modifiers|);
      (ab1.(modifiers := mods), b2, a)
  }

  /** Firing an ability as the source does it: the gate, then a loop over
      the modifiers that keeps only the latest result. */
  method Apply(ab: Effects.Ability, d: BattleData, b: Board, cat: Catalog)
    returns (ab': Effects.Ability, b': Board, spawned: Option<Effects.Ability>)
    ensures (ab', b', spawned) == ApplyF(ab, d, b, cat)
  {
    var ok;
    ab', ok := CanApply(ab, d, b, cat.card);
    b' := b;
    spawned := None;
    if ok {
      var mods := ab'.modifiers;
      var done: seq<Modifier> := [];
      var i := 0;
      while i < |mods|
        invariant 0 <= i <= |mods|
        invariant (done, b', spawned) == RunModifiers(mods, d, b, cat, i)
      {
        var m';
        m', b', spawned := ModifierApply(mods[i], d, b', cat).0, ModifierApply(mods[i], d, b', cat).1,
                           ModifierApply(mods[i], d, b', cat).2;
        done := done + [m'];
        i := i + 1;
      }
      ab' := ab'.(modifiers := done);
    }
  }
}
