// What each kind of modifier does to the board when it fires: basic stat
// changes (scaled, clamped, gated), cancels and their undo, copies,
// exchanges, protections and pillz recovery.

module Modifiers {
  import opened Types
  import opened Cards
  import opened Board
  import opened Effects

  /** The counter slot guarding a stat. */
  function StatSlot(s: Stat): AttrSlot
  {
    match s
    case Power => AttrSlot.Power
    case Damage => AttrSlot.Damage
    case Attack => AttrSlot.Attack
    case Life => AttrSlot.Life
    case Pillz => AttrSlot.Pillz
  }

  /** The counter slot a protection targets. */
  function ProtectSlot(p: ProtectTarget): AttrSlot
  {
    match p
    case Power => AttrSlot.Power
    case Damage => AttrSlot.Damage
    case Attack => AttrSlot.Attack
    case Ability => AttrSlot.Ability
    case Bonus => AttrSlot.Bonus
  }

  /** The current value of a stat: a card's power, damage or attack, or the
      player's life or pillz (for which the card index is irrelevant). */
  function StatValue(b: Board, s: Side, i: CardIndex, st: Stat): U8
  {
    match st
    case Power => HandOf(b, s).cards[i].power.value
    case Damage => HandOf(b, s).cards[i].damage.value
    case Attack => HandOf(b, s).cards[i].attack.value
    case Life => PlayerOf(b, s).life
    case Pillz => PlayerOf(b, s).pillz
  }

  /** Whether two (side, card, stat) triples name the same value. */
  predicate SameTarget(s: Side, i: CardIndex, st: Stat, s': Side, i': CardIndex, st': Stat)
  {
    s == s' && st == st' && (st == Stat.Life || st == Stat.Pillz || i == i')
  }

  /** The board with one stat value replaced; no other value and no counter
      changes. */
  function SetStatValue(b: Board, s: Side, i: CardIndex, st: Stat, v: U8): (r: Board)
    ensures StatValue(r, s, i, st) == v
  {
    var c := HandOf(b, s).cards[i];
    var p := PlayerOf(b, s);
    match st
    case Power => WithCard(b, s, i, c.(power := c.power.(value := v)))
    case Damage => WithCard(b, s, i, c.(damage := c.damage.(value := v)))
    case Attack => WithCard(b, s, i, c.(attack := c.attack.(value := v)))
    case Life => WithPlayer(b, s, p.(life := v))
    case Pillz => WithPlayer(b, s, p.(pillz := v))
  }

  /** Setting one stat value leaves every other value, every counter, the
      clan counts and the Oculus clan as they were. */
  lemma SetStatValueFrame(b: Board, s: Side, i: CardIndex, st: Stat, v: U8)
    ensures var r := SetStatValue(b, s, i, st, v);
      (forall s', i', st' :: !SameTarget(s, i, st, s', i', st') ==>
        StatValue(r, s', i', st') == StatValue(b, s', i', st')) &&
      (forall s', i': CardIndex, slot :: AttrOf(HandOf(r, s').cards[i'], slot) == AttrOf(HandOf(b, s').cards[i'], slot)) &&
      (forall s' :: HandOf(r, s').clanCount == HandOf(b, s').clanCount) &&
      (forall s' :: HandOf(r, s').oculusClan == HandOf(b, s').oculusClan)
  {
  }

  /** The factor a basic modifier's change is scaled by. The player and card
      for `Power`, `Damage`, `Life` and `Pillz` are the target's; `Support`
      and `Brawl` read the clan counts of the acting and the opposing card;
      the `Opp*` kinds are not implemented and count as 1. */
  function Multiplier(m: BasicModifier, d: BattleData, b: Board): U8
  {
    match m.per
    case None => 1
    case Some(p) =>
      var player := if m.opp then Opp(b, d) else Me(b, d);
      var card := if m.opp then OppCard(b, d) else MyCard(b, d);
      var mine := MyCard(b, d);
      var theirs := OppCard(b, d);
      match p
      case Power => card.power.value
      case Damage => card.damage.value
      case Life => player.life
      case Pillz => player.pillz
      case Support => MyHand(b, d).clanCount[mine.index]
      case Brawl => OppHand(b, d).clanCount[theirs.index]
      case Growth => Wrap8(1 + d.round)
      case Degrowth => Wrap8(4 - d.round)
      case Equalizer => theirs.level
      case Symmetry => if mine.index == theirs.index then 1 else 0
      case Asymmetry => if mine.index != theirs.index then 1 else 0
      case _ => 1
  }

  /** Without a `per`, and for the unimplemented `Opp*` kinds, the change is
      not scaled. */
  lemma MultiplierUnscaled(m: BasicModifier, d: BattleData, b: Board)
    requires m.per.None? || m.per.value in {Per.OppPower, Per.OppDamage, Per.OppLife, Per.OppPillz}
    ensures Multiplier(m, d, b) == 1
  {
  }

  /** Exactly one of `Symmetry` and `Asymmetry` scales by one, the other by
      zero. */
  lemma SymmetryComplement(m: BasicModifier, d: BattleData, b: Board)
    requires m.per == Some(Per.Symmetry)
    ensures Multiplier(m, d, b) + Multiplier(m.(per := Some(Per.Asymmetry)), d, b) == 1
    ensures Multiplier(m, d, b) == 1 <==> MyCard(b, d).index == OppCard(b, d).index
  {
  }

  /** During the four rounds of a game, `Growth` and `Degrowth` count the
      rounds from opposite ends: 1..4 and 4..1. */
  lemma GrowthDegrowth(m: BasicModifier, d: BattleData, b: Board)
    requires d.round < 4 && m.per == Some(Per.Growth)
    ensures Multiplier(m, d, b) == d.round + 1
    ensures Multiplier(m.(per := Some(Per.Degrowth)), d, b) == 4 - d.round
    ensures Multiplier(m, d, b) + Multiplier(m.(per := Some(Per.Degrowth)), d, b) == 5
  {
  }

  /** Past round 4, `Degrowth` wraps round to a large factor instead of
      going negative. */
  lemma DegrowthWrapsAfterRoundFour(m: BasicModifier, d: BattleData, b: Board)
    requires d.round == 5 && m.per == Some(Per.Degrowth)
    ensures Multiplier(m, d, b) == 255
  {
  }

  /** The modified value of a stat. A value outside [min, max) is left alone;
      otherwise the scaled change is added and the sum clamped to [min, max]
      and truncated to a byte. */
  function Modify(m: BasicModifier, base: U8, d: BattleData, b: Board): (r: U8)
    ensures (base < m.min || base >= m.max) ==> r == base
    ensures m.min <= base < m.max && 0 <= m.min && m.max < 256 ==>
      var v := base + m.change * Multiplier(m, d, b);
      m.min <= r <= m.max &&
      (m.min <= v <= m.max ==> r == v) &&
      (v < m.min ==> r == m.min) &&
      (v > m.max ==> r == m.max)
  {
    if base < m.min || base >= m.max then base
    else
      var value := base + m.change * Multiplier(m, d, b);
      var squash := if value < m.min then m.min else if value > m.max then m.max else value;
      Wrap8(squash)
  }

  /** A clamp bound above 255 lets the result wrap: 250 + 10 becomes 4. */
  lemma ModifyWrapsAboveByte(m: BasicModifier, d: BattleData, b: Board)
    requires m.min == 0 && m.max == 300 && m.change == 10 && m.per.None?
    ensures Modify(m, 250, d, b) == 4
  {
  }

  /** Whether a basic modifier fires: always when `always`; never when it
      needs a won round and the acting card did not win; otherwise when the
      acting card's slot is not blocked, the targeted opposing slot (if
      any) is not protected, and, for life, the acting player is alive. */
  predicate BasicCanApply(m: BasicModifier, d: BattleData, b: Board)
  {
    var slot := StatSlot(m.stat);
    if m.always then true
    else if m.win == Some(true) && !MyCard(b, d).won then false
    else
      (m.opp ==> !IsProtected(AttrOf(OppCard(b, d), slot))) &&
      !IsBlocked(AttrOf(MyCard(b, d), slot)) &&
      (m.stat == Stat.Life ==> Me(b, d).life > 0)
  }

  /** The gate's cases: `always` overrides everything; a modifier needing a
      won round never fires for a card that did not win; a blocked own slot
      stops it, and so does a dead acting player for a life modifier. */
  lemma BasicCanApplyGates(m: BasicModifier, d: BattleData, b: Board)
    ensures m.always ==> BasicCanApply(m, d, b)
    ensures !m.always && m.win == Some(true) && !MyCard(b, d).won ==> !BasicCanApply(m, d, b)
    ensures !m.always && IsBlocked(AttrOf(MyCard(b, d), StatSlot(m.stat))) ==> !BasicCanApply(m, d, b)
    ensures !m.always && m.stat == Stat.Life && Me(b, d).life == 0 ==> !BasicCanApply(m, d, b)
    ensures !m.always && m.opp && IsProtected(AttrOf(OppCard(b, d), StatSlot(m.stat))) ==> !BasicCanApply(m, d, b)
  {
  }

  /** The side and card a basic modifier targets. */
  function TargetSide(m: BasicModifier, d: BattleData): Side
  {
    if m.opp then Other(d.side) else d.side
  }

  function TargetCard(m: BasicModifier, d: BattleData): CardIndex
  {
    if m.opp then d.oppCard else d.card
  }

  /** Firing a basic modifier: when it can apply, the targeted value becomes
      its modified value and nothing else changes; otherwise nothing
      changes. */
  function BasicApply(m: BasicModifier, d: BattleData, b: Board): (r: Board)
    ensures !BasicCanApply(m, d, b) ==> r == b
    ensures BasicCanApply(m, d, b) ==>
      StatValue(r, TargetSide(m, d), TargetCard(m, d), m.stat) ==
        Modify(m, StatValue(b, TargetSide(m, d), TargetCard(m, d), m.stat), d, b)
  {
    if BasicCanApply(m, d, b) then
      var s := TargetSide(m, d);
      var i := TargetCard(m, d);
      SetStatValue(b, s, i, m.stat, Modify(m, StatValue(b, s, i, m.stat), d, b))
    else b
  }

  /** A basic modifier changes no value but its target and no counter. */
  lemma BasicApplyFrame(m: BasicModifier, d: BattleData, b: Board)
    ensures var r := BasicApply(m, d, b);
      (forall s', i', st' :: !SameTarget(TargetSide(m, d), TargetCard(m, d), m.stat, s', i', st') ==>
        StatValue(r, s', i', st') == StatValue(b, s', i', st')) &&
      (forall s', i': CardIndex, slot :: AttrOf(HandOf(r, s').cards[i'], slot) == AttrOf(HandOf(b, s').cards[i'], slot))
  {
    if BasicCanApply(m, d, b) {
      SetStatValueFrame(b, TargetSide(m, d), TargetCard(m, d), m.stat,
        Modify(m, StatValue(b, TargetSide(m, d), TargetCard(m, d), m.stat), d, b));
    }
  }

  /** A modifier that is not `always` and targets the opposing card is
      stopped by a protection the opposing side put on that stat. */
  lemma ProtectionStopsOpposingModifier(p: ProtectionModifier, d: BattleData, b: Board,
                                        m: BasicModifier, d': BattleData)
    requires p.prot in {ProtectTarget.Power, ProtectTarget.Damage, ProtectTarget.Attack}
    requires AttrOf(MyCard(b, d), ProtectSlot(p.prot)).protected < 255
    requires d'.side == Other(d.side) && d'.oppCard == d.card
    requires m.opp && !m.always && StatSlot(m.stat) == ProtectSlot(p.prot)
    ensures !BasicCanApply(m, d', ProtectionApply(p, d, b))
  {
    var r := ProtectionApply(p, d, b);
    assert Other(d'.side) == d.side;
    assert OppCard(r, d') == MyCard(r, d);
  }

  /** Setting a card back to the value it has changes nothing. */
  lemma WithCardOwn(b: Board, s: Side, i: CardIndex)
    ensures WithCard(b, s, i, HandOf(b, s).cards[i]) == b
  {
    var r := WithCard(b, s, i, HandOf(b, s).cards[i]);
    assert HandOf(r, s).cards == HandOf(b, s).cards;
  }

  /** Cancelling: the modifier is marked applied and the targeted slot of the
      opposing card gains one cancel; nothing else changes. */
  function CancelApply(m: CancelModifier, d: BattleData, b: Board): (r: (CancelModifier, Board))
    ensures r.0 == m.(applied := Some(true))
    ensures OppCard(r.1, d) == WithAttr(OppCard(b, d), m.cancel, Cancel(AttrOf(OppCard(b, d), m.cancel)))
    ensures r.1 == SetOppCard(b, d, OppCard(r.1, d))
  {
    var opp := OppCard(b, d);
    (m.(applied := Some(true)), SetOppCard(b, d, WithAttr(opp, m.cancel, Cancel(AttrOf(opp, m.cancel)))))
  }

  /** Undoing a cancel: the modifier is marked not applied and the targeted
      slot loses one cancel. */
  function CancelUndo(m: CancelModifier, d: BattleData, b: Board): (r: (CancelModifier, Board))
    ensures r.0 == m.(applied := Some(false))
    ensures OppCard(r.1, d) == WithAttr(OppCard(b, d), m.cancel, RemoveCancel(AttrOf(OppCard(b, d), m.cancel)))
    ensures r.1 == SetOppCard(b, d, OppCard(r.1, d))
  {
    var opp := OppCard(b, d);
    (m.(applied := Some(false)), SetOppCard(b, d, WithAttr(opp, m.cancel, RemoveCancel(AttrOf(opp, m.cancel)))))
  }

  /** Undo after apply restores the board exactly, counter wrap-around
      included. */
  lemma CancelUndoRestores(m: CancelModifier, d: BattleData, b: Board)
    ensures CancelUndo(CancelApply(m, d, b).0, d, CancelApply(m, d, b).1).1 == b
    ensures CancelUndo(CancelApply(m, d, b).0, d, CancelApply(m, d, b).1).0 == m.(applied := Some(false))
  {
    var opp := OppCard(b, d);
    var a := AttrOf(opp, m.cancel);
    var b1 := CancelApply(m, d, b).1;
    CancelThenRemove(a);
    var c2 := WithAttr(WithAttr(opp, m.cancel, Cancel(a)), m.cancel, RemoveCancel(Cancel(a)));
    assert c2 == opp;
    WithCardOwn(b, Other(d.side), d.oppCard);
  }

  /** The acting player's view of the copied ability's type: an ability
      copied into the bonus slot becomes a bonus; a global one cannot be
      copied (`None`). */
  function AsBonus(a: Effects.Ability): (r: Option<Effects.Ability>)
    ensures r.None? <==> a.abilityType == AbilityType.Global
    ensures r.Some? ==> r.value.abilityType in {AbilityType.Bonus, AbilityType.GlobalBonus}
    ensures r.Some? ==> r.value.modifiers == a.modifiers && r.value.conditions == a.conditions
    ensures r.Some? ==> (r.value.abilityType == AbilityType.GlobalBonus <==>
      a.abilityType in {AbilityType.GlobalAbility, AbilityType.GlobalBonus})
  {
    match a.abilityType
    case Ability => Some(a.(abilityType := AbilityType.Bonus))
    case GlobalAbility => Some(a.(abilityType := AbilityType.GlobalBonus))
    case Global => None
    case _ => Some(a)
  }

  /** The mirror of `AsBonus` for a bonus copied into the ability slot. */
  function AsAbility(a: Effects.Ability): (r: Option<Effects.Ability>)
    ensures r.None? <==> a.abilityType == AbilityType.Global
    ensures r.Some? ==> r.value.abilityType in {AbilityType.Ability, AbilityType.GlobalAbility}
    ensures r.Some? ==> r.value.modifiers == a.modifiers && r.value.conditions == a.conditions
    ensures r.Some? ==> (r.value.abilityType == AbilityType.GlobalAbility <==>
      a.abilityType in {AbilityType.GlobalAbility, AbilityType.GlobalBonus})
  {
    match a.abilityType
    case Bonus => Some(a.(abilityType := AbilityType.Ability))
    case GlobalBonus => Some(a.(abilityType := AbilityType.GlobalAbility))
    case Global => None
    case _ => Some(a)
  }

  /** Converting to a bonus and back gives an ability-typed copy. */
  lemma AsBonusAsAbility(a: Effects.Ability)
    requires a.abilityType in {AbilityType.Ability, AbilityType.GlobalAbility}
    ensures AsBonus(a).Some? && AsAbility(AsBonus(a).value) == Some(a)
  {
  }

  /** The first card of the hand at or after `i`, other than `skip`, whose
      catalog clan is `clan`. */
  function FirstClanCard(cards: Cards4, skip: int, clan: Clan, base: U32 -> BaseCard, i: nat): (r: Option<CardIndex>)
    requires i <= 4
    decreases 4 - i
    ensures r.Some? ==> i <= r.value && r.value != skip && ClanOf(base, cards[r.value]) == clan
    ensures r.Some? ==> forall j :: i <= j < r.value && j != skip ==> ClanOf(base, cards[j]) != clan
    ensures r.None? ==> forall j :: i <= j < 4 && j != skip ==> ClanOf(base, cards[j]) != clan
  {
    if i == 4 then None
    else if i != skip && ClanOf(base, cards[i]) == clan then Some(i)
    else FirstClanCard(cards, skip, clan, base, i + 1)
  }

  /** Copying: power or damage takes the opposing card's base value; the
      ability (bonus) copy takes over the opposing card's ability (bonus)
      into the bonus (ability) slot and returns the copied ability to be
      scheduled, unless it is global; infiltration copies the bonus of the
      first other card of the Oculus-resolved clan. */
  function CopyApply(m: CopyModifier, d: BattleData, b: Board, cat: Catalog): (r: (Board, Option<Effects.Ability>))
    ensures m.copy in {CopyTarget.Power, CopyTarget.Damage} ==> r.1.None?
    ensures m.copy == CopyTarget.Power ==>
      MyCard(r.0, d) == MyCard(b, d).(power := MyCard(b, d).power.(value := OppCard(b, d).power.base))
    ensures m.copy == CopyTarget.Damage ==>
      MyCard(r.0, d) == MyCard(b, d).(damage := MyCard(b, d).damage.(value := OppCard(b, d).damage.base))
    ensures m.copy == CopyTarget.Ability ==>
      MyCard(r.0, d) == MyCard(b, d).(bonus := OppCard(b, d).ability, bonusId := OppCard(b, d).abilityId) &&
      r.1 == AsBonus(cat.ability(OppCard(b, d).abilityId))
    ensures m.copy == CopyTarget.Bonus ==>
      MyCard(r.0, d) == MyCard(b, d).(ability := OppCard(b, d).bonus, abilityId := OppCard(b, d).bonusId) &&
      r.1 == AsAbility(cat.ability(OppCard(b, d).bonusId))
    ensures m.copy == CopyTarget.Infiltrate && MyHand(b, d).oculusClan == NoClan ==> r == (b, None)
    ensures OppHand(r.0, d) == OppHand(b, d) && OnlyFightersChanged(r.0, b, d)
  {
    var card := MyCard(b, d);
    var opp := OppCard(b, d);
    match m.copy
    case Power => (SetMyCard(b, d, card.(power := card.power.(value := opp.power.base))), None)
    case Damage => (SetMyCard(b, d, card.(damage := card.damage.(value := opp.damage.base))), None)
    case Ability =>
      var c := card.(bonus := opp.ability, bonusId := opp.abilityId);
      (SetMyCard(b, d, c), AsBonus(cat.ability(c.bonusId)))
    case Bonus =>
      var c := card.(ability := opp.bonus, abilityId := opp.bonusId);
      (SetMyCard(b, d, c), AsAbility(cat.ability(c.abilityId)))
    case Infiltrate =>
      var clan := MyHand(b, d).oculusClan;
      if clan == NoClan then (b, None)
      else
        match FirstClanCard(MyHand(b, d).cards, card.index, clan, cat.card, 0)
        case None => (b, None)
        case Some(i) =>
          var src := MyHand(b, d).cards[i];
          var c := card.(bonus := src.bonus, bonusId := src.bonusId);
          (SetMyCard(b, d, c), Some(cat.ability(c.bonusId)))
  }

  /** Infiltration copies from the first card, in hand order, that is not the
      acting card and belongs to the resolved Oculus clan; when there is none
      the board is unchanged. */
  lemma InfiltrateCopiesFirstClanmate(m: CopyModifier, d: BattleData, b: Board, cat: Catalog)
    requires m.copy == CopyTarget.Infiltrate && MyHand(b, d).oculusClan != NoClan
    ensures var h := MyHand(b, d);
      var k := FirstClanCard(h.cards, MyCard(b, d).index, h.oculusClan, cat.card, 0);
      (k.None? ==> CopyApply(m, d, b, cat) == (b, None)) &&
      (k.Some? ==> MyCard(CopyApply(m, d, b, cat).0, d) ==
                     MyCard(b, d).(bonus := h.cards[k.value].bonus, bonusId := h.cards[k.value].bonusId) &&
                   CopyApply(m, d, b, cat).1 == Some(cat.ability(h.cards[k.value].bonusId)))
  {
  }

  /** Exchanging: unless the acting card's slot is blocked, the acting card
      takes the opposing card's base value and (for a full exchange) the
      opposing card takes the acting card's base value. */
  function ExchangeApply(m: ExchangeModifier, d: BattleData, b: Board): (r: Board)
    ensures OnlyFightersChanged(r, b, d)
    ensures m.ex in {ExchangeKind.Power, ExchangeKind.ImposePower} && IsBlocked(MyCard(b, d).power.attr) ==> r == b
    ensures m.ex in {ExchangeKind.Damage, ExchangeKind.ImposeDamage} && IsBlocked(MyCard(b, d).damage.attr) ==> r == b
    ensures m.ex == ExchangeKind.Power && !IsBlocked(MyCard(b, d).power.attr) ==>
      MyCard(r, d) == MyCard(b, d).(power := MyCard(b, d).power.(value := OppCard(b, d).power.base)) &&
      OppCard(r, d) == OppCard(b, d).(power := OppCard(b, d).power.(value := MyCard(b, d).power.base))
    ensures m.ex == ExchangeKind.Damage && !IsBlocked(MyCard(b, d).damage.attr) ==>
      MyCard(r, d) == MyCard(b, d).(damage := MyCard(b, d).damage.(value := OppCard(b, d).damage.base)) &&
      OppCard(r, d) == OppCard(b, d).(damage := OppCard(b, d).damage.(value := MyCard(b, d).damage.base))
    ensures m.ex == ExchangeKind.ImposePower && !IsBlocked(MyCard(b, d).power.attr) ==>
      MyCard(r, d) == MyCard(b, d) &&
      OppCard(r, d) == OppCard(b, d).(power := OppCard(b, d).power.(value := MyCard(b, d).power.base))
    ensures m.ex == ExchangeKind.ImposeDamage && !IsBlocked(MyCard(b, d).damage.attr) ==>
      MyCard(r, d) == MyCard(b, d) &&
      OppCard(r, d) == OppCard(b, d).(damage := OppCard(b, d).damage.(value := MyCard(b, d).damage.base))
  {
    var card := MyCard(b, d);
    var opp := OppCard(b, d);
    match m.ex
    case Power =>
      if IsBlocked(card.power.attr) then b
      else SetOppCard(SetMyCard(b, d, card.(power := card.power.(value := opp.power.base))),
                      d, opp.(power := opp.power.(value := card.power.base)))
    case Damage =>
      if IsBlocked(card.damage.attr) then b
      else SetOppCard(SetMyCard(b, d, card.(damage := card.damage.(value := opp.damage.base))),
                      d, opp.(damage := opp.damage.(value := card.damage.base)))
    case ImposePower =>
      if IsBlocked(card.power.attr) then b
      else SetOppCard(b, d, opp.(power := opp.power.(value := card.power.base)))
    case ImposeDamage =>
      if IsBlocked(card.damage.attr) then b
      else SetOppCard(b, d, opp.(damage := opp.damage.(value := card.damage.base)))
  }

  /** The stat an exchange of kind `k` reads and writes. */
  function ExchangedStat(c: Card, k: ExchangeKind): CardStat
  {
    if k in {ExchangeKind.Power, ExchangeKind.ImposePower} then c.power else c.damage
  }

  /** A full exchange between two unblocked cards is a swap: it does the
      same whichever of the two sides performs it. */
  lemma {:induction false} ExchangeSymmetric(m: ExchangeModifier, d: BattleData, b: Board)
    requires m.ex in {ExchangeKind.Power, ExchangeKind.Damage}
    requires !IsBlocked(ExchangedStat(MyCard(b, d), m.ex).attr) && !IsBlocked(ExchangedStat(OppCard(b, d), m.ex).attr)
    ensures ExchangeApply(m, Mirror(d), b) == ExchangeApply(m, d, b)
  {
    var d' := Mirror(d);
    var r, r' := ExchangeApply(m, d, b), ExchangeApply(m, d', b);
    assert MyCard(b, d') == OppCard(b, d) && OppCard(b, d') == MyCard(b, d);
    assert MyCard(r', d') == OppCard(r, d) && OppCard(r', d') == MyCard(r, d);
    assert MyHand(r', d').cards == OppHand(r, d).cards;
    assert OppHand(r', d').cards == MyHand(r, d).cards;
    assert r'.h1 == r.h1 && r'.h2 == r.h2;
  }

  /** Values are taken from bases, which no exchange changes, so exchanging
      a second time changes nothing more. */
  lemma {:induction false} ExchangeIdempotent(m: ExchangeModifier, d: BattleData, b: Board)
    ensures ExchangeApply(m, d, ExchangeApply(m, d, b)) == ExchangeApply(m, d, b)
  {
    var r := ExchangeApply(m, d, b);
    assert Other(d.side) != d.side;
    assert MyCard(r, d).power.attr == MyCard(b, d).power.attr;
    assert MyCard(r, d).damage.attr == MyCard(b, d).damage.attr;
    var r2 := ExchangeApply(m, d, r);
    assert HandOf(r2, d.side).cards == HandOf(r, d.side).cards;
    assert HandOf(r2, Other(d.side)).cards == HandOf(r, Other(d.side)).cards;
  }

  /** Protecting: one protection on the acting card's slot and, with `both`,
      on the opposing card's slot too. */
  function ProtectionApply(m: ProtectionModifier, d: BattleData, b: Board): (r: Board)
    ensures MyCard(r, d) == WithAttr(MyCard(b, d), ProtectSlot(m.prot), Protect(AttrOf(MyCard(b, d), ProtectSlot(m.prot))))
    ensures m.both ==> OppCard(r, d) == WithAttr(OppCard(b, d), ProtectSlot(m.prot), Protect(AttrOf(OppCard(b, d), ProtectSlot(m.prot))))
    ensures !m.both ==> OppHand(r, d) == OppHand(b, d)
    ensures OnlyFightersChanged(r, b, d)
  {
    var slot := ProtectSlot(m.prot);
    var card := MyCard(b, d);
    var mine := SetMyCard(b, d, WithAttr(card, slot, Protect(AttrOf(card, slot))));
    if m.both then
      var opp := OppCard(b, d);
      SetOppCard(mine, d, WithAttr(opp, slot, Protect(AttrOf(opp, slot))))
    else mine
  }

  /** Recovering: unless the acting card's pillz slot is blocked, the player
      gains `pillz_used * n / out_of` pillz, computed and added in bytes. */
  function RecoverApply(m: RecoverModifier, d: BattleData, b: Board): (r: Board)
    ensures IsBlocked(MyCard(b, d).pillz) ==> r == b
    ensures r.h1 == b.h1 && r.h2 == b.h2 && Opp(r, d) == Opp(b, d)
  {
    if IsBlocked(MyCard(b, d).pillz) then b
    else
      var gain := Wrap8(d.pillzUsed * m.n) / m.outOf;
      SetMe(b, d, Me(b, d).(pillz := Wrap8(Me(b, d).pillz + gain)))
  }

  /** Without overflow, recovery returns the fraction n/out_of of the pillz
      spent, rounded down, and never more than was spent when n <= out_of. */
  lemma RecoverGain(m: RecoverModifier, d: BattleData, b: Board)
    requires !IsBlocked(MyCard(b, d).pillz)
    requires d.pillzUsed * m.n < 256 && Me(b, d).pillz + d.pillzUsed * m.n / m.outOf < 256
    ensures Me(RecoverApply(m, d, b), d).pillz == Me(b, d).pillz + d.pillzUsed * m.n / m.outOf
    ensures m.n <= m.outOf ==> Me(RecoverApply(m, d, b), d).pillz <= Me(b, d).pillz + d.pillzUsed
  {
    assert Me(RecoverApply(m, d, b), d).pillz == Wrap8(Me(b, d).pillz + Wrap8(d.pillzUsed * m.n) / m.outOf);
    RecoverArithmetic(Me(b, d).pillz, d.pillzUsed, m.n, m.outOf);
  }

  /** The byte arithmetic of a recovery, when neither sum wraps. */
  lemma RecoverArithmetic(p: nat, x: nat, n: nat, o: nat)
    requires 0 < o && x * n < 256 && p + x * n / o < 256
    ensures Wrap8(p + Wrap8(x * n) / o) == p + x * n / o
    ensures n <= o ==> p + x * n / o <= p + x
  {
    assert Wrap8(x * n) == x * n;
    if n <= o {
      FractionAtMostWhole(x, n, o);
    }
  }

  /** x * n / o never exceeds x when n <= o. */
  lemma FractionAtMostWhole(x: nat, n: nat, o: nat)
    requires 0 < o && n <= o
    ensures x * n / o <= x
  {
    var q := x * n / o;
    assert x * n <= x * o by {
      assert x * (o - n) >= 0;
    }
    assert q * o <= x * n;
  }

  /** The byte product wraps: spending 16 pillz on a 16-out-of-1 recovery
      gains nothing. */
  lemma RecoverProductWraps(m: RecoverModifier, d: BattleData, b: Board)
    requires !IsBlocked(MyCard(b, d).pillz)
    requires d.pillzUsed == 16 && m.n == 16 && m.outOf == 1
    ensures Me(RecoverApply(m, d, b), d).pillz == Me(b, d).pillz
  {
  }

  /** Firing any modifier. Only cancels change the modifier itself, and only
      copies spawn an ability. */
  function ModifierApply(m: Modifier, d: BattleData, b: Board, cat: Catalog): (r: (Modifier, Board, Option<Effects.Ability>))
    ensures EventTimeOf(r.0) == EventTimeOf(m)
    ensures !m.CancelMod? ==> r.0 == m
    ensures m.CancelMod? ==> r.0 == CancelMod(m.cancelMod.(applied := Some(true)))
    ensures r.2.Some? ==> m.CopyMod?
  {
    match m
    case BasicMod(x) => (m, BasicApply(x, d, b), None)
    case CancelMod(x) => var (x', b') := CancelApply(x, d, b); (CancelMod(x'), b', None)
    case CopyMod(x) => var (b', a) := CopyApply(x, d, b, cat); (m, b', a)
    case ExchangeMod(x) => (m, ExchangeApply(x, d, b), None)
    case ProtectionMod(x) => (m, ProtectionApply(x, d, b), None)
    case RecoverMod(x) => (m, RecoverApply(x, d, b), None)
  }
}
