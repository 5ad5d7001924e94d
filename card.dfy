// Cards and hands: per-slot cancel/protect counters, the card record a
// battle mutates, the clan-synergy resolver of a hand and the leader lookup.

module Cards {
  import opened Types

  /** Cancel and protect counters of one card slot. */
  datatype CardAttr = CardAttr(cancelled: U8, protected: U8)

  const NoCounters := CardAttr(0, 0)

  /** `cancel`, `remove_cancel` and `protect` are `u8` increments and
      decrements; release builds wrap around. */
  function Cancel(a: CardAttr): (r: CardAttr)
    ensures r.protected == a.protected
    ensures a.cancelled < 255 ==> r.cancelled == a.cancelled + 1
  {
    a.(cancelled := Wrap8(a.cancelled + 1))
  }

  function RemoveCancel(a: CardAttr): (r: CardAttr)
    ensures r.protected == a.protected
    ensures a.cancelled > 0 ==> r.cancelled == a.cancelled - 1
  {
    a.(cancelled := Wrap8(a.cancelled - 1))
  }

  function Protect(a: CardAttr): (r: CardAttr)
    ensures r.cancelled == a.cancelled
    ensures a.protected < 255 ==> r.protected == a.protected + 1
  {
    a.(protected := Wrap8(a.protected + 1))
  }

  /** A slot is blocked when it is cancelled at least once and never protected. */
  predicate IsBlocked(a: CardAttr)
  {
    a.protected == 0 && a.cancelled != 0
  }

  predicate IsProtected(a: CardAttr)
  {
    a.protected != 0
  }

  /** Undoing a cancel restores the counters, whatever their values. */
  lemma CancelThenRemove(a: CardAttr)
    ensures RemoveCancel(Cancel(a)) == a
  {
  }

  /** Removing a cancel that was never placed wraps the counter to 255,
      which then reads as blocked. */
  lemma RemoveCancelUnderflow()
    ensures RemoveCancel(NoCounters).cancelled == 255
    ensures IsBlocked(RemoveCancel(NoCounters))
  {
  }

  /** `n` successive cancels. */
  function CancelTimes(a: CardAttr, n: nat): (r: CardAttr)
    ensures r.protected == a.protected
  {
    if n == 0 then a else Cancel(CancelTimes(a, n - 1))
  }

  /** Protection is never removed, so once a slot has been protected (and the
      counter did not wrap) no number of cancels blocks it. */
  lemma {:induction false} ProtectShields(a: CardAttr, n: nat)
    requires a.protected < 255
    ensures IsProtected(CancelTimes(Protect(a), n))
    ensures !IsBlocked(CancelTimes(Protect(a), n))
  {
    if n > 0 {
      ProtectShields(a, n - 1);
    }
  }

  /** A numeric stat: counters, printed base value and current value. */
  datatype CardStat = CardStat(attr: CardAttr, base: U8, value: U8)

  function NewStat(v: U8): (r: CardStat)
    ensures r.base == v && r.value == v && r.attr == NoCounters
  {
    CardStat(NoCounters, v, v)
  }

  const ZeroStat := CardStat(NoCounters, 0, 0)

  /** The seven counter slots of a card. */
  datatype AttrSlot = Power | Damage | Attack | Ability | Bonus | Pillz | Life

  /** Position of a card in its hand. */
  type CardIndex = i: int | 0 <= i < 4

  /** The catalog entry of a card (display fields left out). */
  datatype BaseCard = BaseCard(
    id: U32, clan: Clan, level: U8, levelMax: U8, power: U8, damage: U8,
    rarity: Rarity, abilityId: U32, bonusId: U32)

  /** A card in play. */
  datatype Card = Card(
    played: bool, won: bool, index: CardIndex, id: U32, level: U8,
    power: CardStat, damage: CardStat,
    abilityId: U32, ability: CardAttr, bonusId: U32, bonus: CardAttr,
    attack: CardStat, life: CardAttr, pillz: CardAttr)

  /** The counters of one slot. */
  function AttrOf(c: Card, s: AttrSlot): CardAttr
  {
    match s
    case Power => c.power.attr
    case Damage => c.damage.attr
    case Attack => c.attack.attr
    case Ability => c.ability
    case Bonus => c.bonus
    case Pillz => c.pillz
    case Life => c.life
  }

  /** The card with the counters of one slot replaced; nothing else changes. */
  function WithAttr(c: Card, s: AttrSlot, a: CardAttr): (r: Card)
    ensures AttrOf(r, s) == a
    ensures forall t :: t != s ==> AttrOf(r, t) == AttrOf(c, t)
    ensures r.played == c.played && r.won == c.won && r.index == c.index && r.id == c.id
    ensures r.level == c.level && r.abilityId == c.abilityId && r.bonusId == c.bonusId
    ensures r.power.value == c.power.value && r.power.base == c.power.base
    ensures r.damage.value == c.damage.value && r.damage.base == c.damage.base
    ensures r.attack.value == c.attack.value && r.attack.base == c.attack.base
  {
    match s
    case Power => c.(power := c.power.(attr := a))
    case Damage => c.(damage := c.damage.(attr := a))
    case Attack => c.(attack := c.attack.(attr := a))
    case Ability => c.(ability := a)
    case Bonus => c.(bonus := a)
    case Pillz => c.(pillz := a)
    case Life => c.(life := a)
  }

  /** Writing back a slot's own counters changes nothing. */
  lemma WithAttrOwn(c: Card, s: AttrSlot)
    ensures WithAttr(c, s, AttrOf(c, s)) == c
  {
  }

  /** The clan of a card, looked up in the catalog by id. */
  function ClanOf(base: U32 -> BaseCard, c: Card): Clan
  {
    base(c.id).clan
  }

  /** A fresh card from its catalog entry. */
  function CardFrom(data: BaseCard, index: CardIndex): (r: Card)
    ensures !r.played && !r.won && r.index == index && r.id == data.id && r.level == data.level
    ensures r.power == NewStat(data.power) && r.damage == NewStat(data.damage)
    ensures r.attack.value == 0 && r.attack.base == 0
    ensures r.abilityId == data.abilityId && r.bonusId == data.bonusId
    ensures r.ability == r.bonus == r.life == r.pillz == r.attack.attr == NoCounters
  {
    Card(false, false, index, data.id, data.level,
         NewStat(data.power), NewStat(data.damage),
         data.abilityId, NoCounters, data.bonusId, NoCounters,
         ZeroStat, NoCounters, NoCounters)
  }

  const BlankCard := Card(false, false, 0, 0, 0, ZeroStat, ZeroStat, 0, NoCounters, 0,
                          NoCounters, ZeroStat, NoCounters, NoCounters)

  type Cards4 = s: seq<Card> | |s| == 4 witness [BlankCard, BlankCard, BlankCard, BlankCard]
  type Counts4 = s: seq<U8> | |s| == 4 witness [0, 0, 0, 0]

  /** A hand: its four cards, the resolved clan count of each card and the
      clan the hand's Oculus card stands in for. */
  datatype Hand = Hand(cards: Cards4, clanCount: Counts4, oculusClan: Clan)

  // ---------------------------------------------------------------------
  // Specification of the clan resolver

  /** Ids of the first `n` cards. */
  function IdsOf(cs: seq<Card>, n: nat): set<U32>
    requires n <= |cs|
  {
    if n == 0 then {} else IdsOf(cs, n - 1) + {cs[n - 1].id}
  }

  /** An id among the first `n` cards is the id of one of them. */
  lemma {:induction false} IdsOfWitness(cs: seq<Card>, n: nat, x: U32) returns (j: nat)
    requires n <= |cs| && x in IdsOf(cs, n)
    ensures j < n && cs[j].id == x
  {
    if cs[n - 1].id == x {
      j := n - 1;
    } else {
      j := IdsOfWitness(cs, n - 1, x);
    }
  }

  /** Whether card `i` repeats the id of an earlier card. */
  predicate SeenBefore(cs: seq<Card>, i: nat)
    requires i < |cs|
  {
    cs[i].id in IdsOf(cs, i)
  }

  /** Clan recorded for card `i` before the Oculus rule: its own clan for the
      first card with a given id, `NoClan` for a repeated id. */
  function FirstClan(cs: seq<Card>, base: U32 -> BaseCard, i: nat): Clan
    requires i < |cs|
  {
    if SeenBefore(cs, i) then NoClan else ClanOf(base, cs[i])
  }

  /** Number of distinct-id cards of each clan among the first `n` cards. */
  function TallyOf(cs: seq<Card>, base: U32 -> BaseCard, n: nat): map<Clan, nat>
    requires n <= |cs|
  {
    if n == 0 then map[]
    else
      var m := TallyOf(cs, base, n - 1);
      if SeenBefore(cs, n - 1) then m
      else
        var c := ClanOf(base, cs[n - 1]);
        m[c := (if c in m then m[c] else 0) + 1]
  }

  /** Number of Oculus cards among the first `n` (repeated ids included). */
  function OculusCount(cs: seq<Card>, base: U32 -> BaseCard, n: nat): nat
    requires n <= |cs|
  {
    if n == 0 then 0
    else OculusCount(cs, base, n - 1) + (if ClanOf(base, cs[n - 1]) == Oculus then 1 else 0)
  }

  /** Position of the last Oculus card among the first `n`, 0 if none. */
  function OculusIndex(cs: seq<Card>, base: U32 -> BaseCard, n: nat): (r: nat)
    requires n <= |cs|
    ensures r < |cs| || (r == 0 && n == 0)
  {
    if n == 0 then 0
    else if ClanOf(base, cs[n - 1]) == Oculus then n - 1
    else OculusIndex(cs, base, n - 1)
  }

  /** First distinct-id card, from position `i` on, whose clan is not Oculus
      and is shared by no other distinct-id card. */
  function SoloFrom(cs: seq<Card>, base: U32 -> BaseCard, m: map<Clan, nat>, i: nat): Clan
    requires i <= |cs|
    decreases |cs| - i
  {
    if i == |cs| then NoClan
    else
      var c := ClanOf(base, cs[i]);
      if !SeenBefore(cs, i) && c != Oculus && c in m && m[c] == 1 then c
      else SoloFrom(cs, base, m, i + 1)
  }

  /** Whether some clan is held by exactly two distinct-id cards. */
  predicate HasPair(m: map<Clan, nat>)
  {
    exists c :: c in m && m[c] == 2
  }

  /** The clan each card records before the Oculus rule. */
  function FirstClans(cs: Cards4, base: U32 -> BaseCard): (r: seq<Clan>)
    ensures |r| == 4 && forall i :: 0 <= i < 4 ==> r[i] == FirstClan(cs, base, i)
  {
    seq(4, i requires 0 <= i < 4 => FirstClan(cs, base, i))
  }

  /** The clans recorded for the first `n` cards, `NoClan` for the rest. */
  function FirstClansUpTo(cs: Cards4, base: U32 -> BaseCard, n: nat): (r: seq<Clan>)
    requires n <= 4
    ensures |r| == 4
  {
    if n == 0 then [NoClan, NoClan, NoClan, NoClan]
    else FirstClansUpTo(cs, base, n - 1)[n - 1 := FirstClan(cs, base, n - 1)]
  }

  /** Positions from `n` on are still unrecorded. */
  lemma {:induction false} FirstClansUpToRest(cs: Cards4, base: U32 -> BaseCard, n: nat, j: nat)
    requires n <= j < 4
    ensures FirstClansUpTo(cs, base, n)[j] == NoClan
  {
    if n > 0 {
      FirstClansUpToRest(cs, base, n - 1, j);
    }
  }

  /** Positions before `n` hold their first-occurrence clan. */
  lemma {:induction false} FirstClansUpToDone(cs: Cards4, base: U32 -> BaseCard, n: nat, j: nat)
    requires j < n <= 4
    ensures FirstClansUpTo(cs, base, n)[j] == FirstClan(cs, base, j)
  {
    if j < n - 1 {
      FirstClansUpToDone(cs, base, n - 1, j);
    }
  }

  /** After all four cards the recorded clans are the first-occurrence
      clans. */
  lemma FirstClansUpToAll(cs: Cards4, base: U32 -> BaseCard)
    ensures FirstClansUpTo(cs, base, 4) == FirstClans(cs, base)
  {
    forall j | 0 <= j < 4
      ensures FirstClansUpTo(cs, base, 4)[j] == FirstClans(cs, base)[j]
    {
      FirstClansUpToDone(cs, base, 4, j);
    }
  }

  /** The resolved clan of every card: the first-occurrence clans, with the
      single Oculus card (if exactly one) standing in for another clan. */
  function ResolvedClans(cs: Cards4, base: U32 -> BaseCard): (r: seq<Clan>)
    ensures |r| == 4
  {
    var first := FirstClans(cs, base);
    var m := TallyOf(cs, base, 4);
    var oi := OculusIndex(cs, base, 4);
    if OculusCount(cs, base, 4) != 1 then first
    else if |m.Keys| == 2 then first[oi := ClanOf(base, cs[if oi == 0 then 1 else 0])]
    else if |m.Keys| == 3 && HasPair(m) then first[oi := SoloFrom(cs, base, m, 0)]
    else first
  }

  /** Number of entries among the first `n` equal to `c`. */
  function CountOf(cl: seq<Clan>, c: Clan, n: nat): (r: nat)
    requires n <= |cl|
    ensures r <= n
  {
    if n == 0 then 0 else CountOf(cl, c, n - 1) + (if cl[n - 1] == c then 1 else 0)
  }

  /** For each position, how many positions share its resolved clan. */
  function CountsOf(cl: seq<Clan>): (r: Counts4)
    requires |cl| == 4
  {
    seq(4, i requires 0 <= i < 4 => CountOf(cl, cl[i], 4))
  }

  /** Cards without a clan partner lose their bonus. */
  function ClearSoloBonuses(cs: Cards4, counts: Counts4): Cards4
  {
    seq(4, i requires 0 <= i < 4 => if counts[i] == 1 then cs[i].(bonusId := 0) else cs[i])
  }

  // ---------------------------------------------------------------------
  // The resolver itself

  /** Resolves the clan of every card, counts clan partners, clears the bonus
      of every card without a partner and returns the counts together with
      the clan the Oculus card resolved to. */
  method ClanCounts(cards: array<Card>, base: U32 -> BaseCard) returns (counts: Counts4, oculusClan: Clan)
    requires cards.Length == 4
    modifies cards
    ensures counts == CountsOf(ResolvedClans(old(cards[..]), base))
    ensures oculusClan == ResolvedClans(old(cards[..]), base)[OculusIndex(old(cards[..]), base, 4)]
    ensures cards[..] == ClearSoloBonuses(old(cards[..]), counts)
  {
    var clans, tally, oculusCount, oculusIndex := FirstOccurrences(cards[..], base);
    clans := ApplyOculusRule(cards[..], base, clans, tally, oculusCount, oculusIndex);
    counts := CountPartners(cards, clans);
    oculusClan := clans[oculusIndex];
  }

  /** First pass: the first card with each id records its clan and is
      tallied; Oculus cards are counted and the last one's position kept. */
  method FirstOccurrences(cs: Cards4, base: U32 -> BaseCard)
    returns (clans: seq<Clan>, tally: map<Clan, nat>, oculusCount: nat, oculusIndex: CardIndex)
    ensures clans == FirstClans(cs, base)
    ensures tally == TallyOf(cs, base, 4)
    ensures oculusCount == OculusCount(cs, base, 4)
    ensures oculusIndex == OculusIndex(cs, base, 4)
  {
    clans := [NoClan, NoClan, NoClan, NoClan];
    tally := map[];
    oculusCount := 0;
    oculusIndex := 0;
    var ids: set<U32> := {};
    for i := 0 to 4
      invariant ids == IdsOf(cs, i) && tally == TallyOf(cs, base, i)
      invariant oculusCount == OculusCount(cs, base, i) && oculusIndex == OculusIndex(cs, base, i)
      invariant clans == FirstClansUpTo(cs, base, i)
    {
      clans, tally, oculusCount, oculusIndex, ids := RecordCard(cs, base, i, clans, tally, oculusCount, oculusIndex, ids);
    }
    FirstClansUpToAll(cs, base);
  }

  /** One step of the first pass: card `i` is looked at. */
  method RecordCard(cs: Cards4, base: U32 -> BaseCard, i: nat, clans: seq<Clan>, tally: map<Clan, nat>,
                    oculusCount: nat, oculusIndex: CardIndex, ids: set<U32>)
    returns (clans': seq<Clan>, tally': map<Clan, nat>, oculusCount': nat, oculusIndex': CardIndex, ids': set<U32>)
    requires i < 4
    requires ids == IdsOf(cs, i) && tally == TallyOf(cs, base, i)
    requires oculusCount == OculusCount(cs, base, i) && oculusIndex == OculusIndex(cs, base, i)
    requires clans == FirstClansUpTo(cs, base, i)
    ensures ids' == IdsOf(cs, i + 1) && tally' == TallyOf(cs, base, i + 1)
    ensures oculusCount' == OculusCount(cs, base, i + 1) && oculusIndex' == OculusIndex(cs, base, i + 1)
    ensures clans' == FirstClansUpTo(cs, base, i + 1)
  {
    FirstClansUpToRest(cs, base, i, i);
    clans', tally', oculusCount', oculusIndex', ids' := clans, tally, oculusCount, oculusIndex, ids;
    var clan := ClanOf(base, cs[i]);
    if clan == Oculus {
      oculusCount' := oculusCount + 1;
      oculusIndex' := i;
    }
    if cs[i].id !in ids {
      clans' := clans[i := clan];
      if clan in tally {
        tally' := tally[clan := tally[clan] + 1];
      } else {
        tally' := tally[clan := 1];
      }
      ids' := ids + {cs[i].id};
    }
  }

  /** Second pass: with exactly one Oculus card, it takes the other clan when
      there are two clans, or the clan held by a single non-Oculus card when
      there are three clans and one of them is held twice. */
  method ApplyOculusRule(cs: Cards4, base: U32 -> BaseCard, clans: seq<Clan>,
                         tally: map<Clan, nat>, oculusCount: nat, oculusIndex: CardIndex)
    returns (resolved: seq<Clan>)
    requires clans == FirstClans(cs, base)
    requires tally == TallyOf(cs, base, 4)
    requires oculusCount == OculusCount(cs, base, 4)
    requires oculusIndex == OculusIndex(cs, base, 4)
    ensures resolved == ResolvedClans(cs, base)
  {
    resolved := clans;
    if oculusCount == 1 {
      if |tally| == 2 {
        if oculusIndex == 0 {
          resolved := clans[oculusIndex := ClanOf(base, cs[1])];
        } else {
          resolved := clans[oculusIndex := ClanOf(base, cs[0])];
        }
      } else if |tally| == 3 {
        var soloClan := NoClan;
        var hasPair := false;
        var keys := tally.Keys;
        ghost var pairCase := HasPair(tally);
        if pairCase {
          SoloUnique(cs, base);
        }
        while keys != {}
          invariant keys <= tally.Keys
          invariant hasPair <==> exists c :: c in tally.Keys - keys && tally[c] == 2
          invariant soloClan == NoClan ||
                    (soloClan in tally && tally[soloClan] == 1 && soloClan != Oculus)
          invariant pairCase ==> forall c :: c in tally.Keys - keys && tally[c] == 1 && c != Oculus ==> soloClan == c
          decreases |keys|
        {
          var clan :| clan in keys;
          keys := keys - {clan};
          var count := tally[clan];
          if count == 2 {
            hasPair := true;
          } else if count == 1 && clan != Oculus {
            soloClan := clan;
            if hasPair {
              break;
            }
          }
        }
        if hasPair {
          resolved := clans[oculusIndex := soloClan];
        }
      }
    }
  }

  /** Third pass: each card's count is the number of cards sharing its
      resolved clan; a card with no partner has its bonus cleared. */
  method CountPartners(cards: array<Card>, clans: seq<Clan>) returns (counts: Counts4)
    requires cards.Length == 4 && |clans| == 4
    modifies cards
    ensures counts == CountsOf(clans)
    ensures cards[..] == ClearSoloBonuses(old(cards[..]), counts)
  {
    ghost var cs: Cards4 := cards[..];
    counts := [0, 0, 0, 0];
    for i := 0 to 4
      invariant forall j :: 0 <= j < i ==> counts[j] == CountOf(clans, clans[j], 4)
      invariant forall j :: i <= j < 4 ==> counts[j] == 0
      invariant forall j :: 0 <= j < i ==> cards[j] == if counts[j] == 1 then cs[j].(bonusId := 0) else cs[j]
      invariant forall j :: i <= j < 4 ==> cards[j] == cs[j]
    {
      var count := 0;
      for k := 0 to 4
        invariant count == CountOf(clans, clans[i], k)
      {
        if clans[i] == clans[k] {
          count := count + 1;
        }
      }
      if count == 1 {
        cards[i] := cards[i].(bonusId := 0);
      }
      counts := counts[i := count];
    }
  }

  // ---------------------------------------------------------------------
  // Properties of the resolver

  /** The tally holds exactly the clans of distinct-id cards, and each entry
      is the number of positions holding that clan as a first occurrence. */
  lemma {:induction false} TallyCounts(cs: seq<Card>, base: U32 -> BaseCard, n: nat, c: Clan)
    requires n <= |cs|
    ensures c in TallyOf(cs, base, n) <==> FirstCount(cs, base, c, n) > 0
    ensures c in TallyOf(cs, base, n) ==> TallyOf(cs, base, n)[c] == FirstCount(cs, base, c, n)
  {
    if n > 0 {
      TallyCounts(cs, base, n - 1, c);
    }
  }

  /** A clan with a positive first-occurrence count has a first occurrence. */
  lemma {:induction false} FirstCountWitness(cs: seq<Card>, base: U32 -> BaseCard, c: Clan, n: nat) returns (k: nat)
    requires n <= |cs| && FirstCount(cs, base, c, n) > 0
    ensures k < n && !SeenBefore(cs, k) && ClanOf(base, cs[k]) == c
  {
    if !SeenBefore(cs, n - 1) && ClanOf(base, cs[n - 1]) == c {
      k := n - 1;
    } else {
      k := FirstCountWitness(cs, base, c, n - 1);
    }
  }

  /** Number of distinct-id cards of clan `c` among the first `n`. */
  function FirstCount(cs: seq<Card>, base: U32 -> BaseCard, c: Clan, n: nat): nat
    requires n <= |cs|
  {
    if n == 0 then 0
    else FirstCount(cs, base, c, n - 1) + (if !SeenBefore(cs, n - 1) && ClanOf(base, cs[n - 1]) == c then 1 else 0)
  }

  /** Two cards with one id have one clan, so a single Oculus card is never a
      repeated id and is tallied exactly once. */
  lemma {:induction false} SingleOculusTallied(cs: Cards4, base: U32 -> BaseCard)
    requires OculusCount(cs, base, 4) == 1
    ensures Oculus in TallyOf(cs, base, 4) && TallyOf(cs, base, 4)[Oculus] == 1
  {
    var oi := OculusIndex(cs, base, 4);
    OculusIndexIsOculus(cs, base, 4);
    OnlyOculus(cs, base, 4, oi);
    SingleOculusNotRepeated(cs, base);
    TallyCounts(cs, base, 4, Oculus);
    FirstCountOnly(cs, base, Oculus, 4, oi);
  }

  /** The single Oculus card of a hand does not repeat an earlier id: a
      card with the same id would have the same clan. */
  lemma SingleOculusNotRepeated(cs: Cards4, base: U32 -> BaseCard)
    requires OculusCount(cs, base, 4) == 1
    ensures !SeenBefore(cs, OculusIndex(cs, base, 4))
  {
    var oi := OculusIndex(cs, base, 4);
    OculusIndexIsOculus(cs, base, 4);
    OnlyOculus(cs, base, 4, oi);
    if SeenBefore(cs, oi) {
      var j := IdsOfWitness(cs, oi, cs[oi].id);
      assert false;
    }
  }

  lemma {:induction false} OculusIndexIsOculus(cs: seq<Card>, base: U32 -> BaseCard, n: nat)
    requires n <= |cs| && OculusCount(cs, base, n) > 0
    ensures OculusIndex(cs, base, n) < n && ClanOf(base, cs[OculusIndex(cs, base, n)]) == Oculus
  {
    if ClanOf(base, cs[n - 1]) != Oculus {
      OculusIndexIsOculus(cs, base, n - 1);
    }
  }

  /** With one Oculus card among the first `n`, it is the only one there. */
  lemma {:induction false} OnlyOculus(cs: seq<Card>, base: U32 -> BaseCard, n: nat, k: nat)
    requires n <= |cs| && OculusCount(cs, base, n) == 1
    requires k < n && ClanOf(base, cs[k]) == Oculus
    ensures forall j :: 0 <= j < n && j != k ==> ClanOf(base, cs[j]) != Oculus
  {
    if k < n - 1 {
      if ClanOf(base, cs[n - 1]) == Oculus {
        OculusCountPositive(cs, base, n - 1, k);
        assert false;
      }
      OnlyOculus(cs, base, n - 1, k);
    } else if n - 1 > 0 {
      NoOculus(cs, base, n - 1);
    }
  }

  lemma {:induction false} OculusCountPositive(cs: seq<Card>, base: U32 -> BaseCard, n: nat, k: nat)
    requires n <= |cs| && k < n && ClanOf(base, cs[k]) == Oculus
    ensures OculusCount(cs, base, n) > 0
  {
    if k < n - 1 {
      OculusCountPositive(cs, base, n - 1, k);
    }
  }

  lemma {:induction false} NoOculus(cs: seq<Card>, base: U32 -> BaseCard, n: nat)
    requires n <= |cs| && OculusCount(cs, base, n) == 0
    ensures forall j :: 0 <= j < n ==> ClanOf(base, cs[j]) != Oculus
  {
    if n > 0 {
      NoOculus(cs, base, n - 1);
    }
  }

  /** A clan held by a single card, counted once among first occurrences. */
  lemma {:induction false} FirstCountOnly(cs: seq<Card>, base: U32 -> BaseCard, c: Clan, n: nat, k: nat)
    requires n <= |cs| && k < n && !SeenBefore(cs, k) && ClanOf(base, cs[k]) == c
    requires forall j :: 0 <= j < n && j != k ==> ClanOf(base, cs[j]) != c
    ensures FirstCount(cs, base, c, n) == 1
  {
    if k < n - 1 {
      FirstCountOnly(cs, base, c, n - 1, k);
    } else {
      FirstCountNone(cs, base, c, n - 1);
    }
  }

  lemma {:induction false} FirstCountNone(cs: seq<Card>, base: U32 -> BaseCard, c: Clan, n: nat)
    requires n <= |cs| && forall j :: 0 <= j < n ==> ClanOf(base, cs[j]) != c
    ensures FirstCount(cs, base, c, n) == 0
  {
    if n > 0 {
      FirstCountNone(cs, base, c, n - 1);
    }
  }

  /** Each position is counted under at most one clan. */
  lemma {:induction false} FirstCountsDisjoint(cs: seq<Card>, base: U32 -> BaseCard, a: Clan, b: Clan, c: Clan, n: nat)
    requires n <= |cs| && a != b && b != c && a != c
    ensures FirstCount(cs, base, a, n) + FirstCount(cs, base, b, n) + FirstCount(cs, base, c, n) <= n
  {
    if n > 0 {
      FirstCountsDisjoint(cs, base, a, b, c, n - 1);
    }
  }

  /** A finite set containing three distinct elements and of size three is
      exactly those elements. */
  lemma ThreeElements<T>(s: set<T>, a: T, b: T, c: T)
    requires |s| == 3 && a in s && b in s && c in s && a != b && b != c && a != c
    ensures s == {a, b, c}
  {
    var t := s - {a, b, c};
    assert |s| == |t| + |{a, b, c}|;
    assert t == {};
  }

  /** A set of size three holding `a` and `b` has a third element. */
  lemma Third<T>(s: set<T>, a: T, b: T) returns (c: T)
    requires |s| == 3 && a in s && b in s && a != b
    ensures c in s && c != a && c != b
  {
    var t := s - {a, b};
    assert |s| == |t| + |{a, b}|;
    c :| c in t;
  }

  /** With one Oculus card, three distinct clans and one clan held twice,
      exactly one other clan is held by a single card, and the scan of the
      hand finds it. The result therefore does not depend on the order in
      which the tally is visited. */
  lemma SoloUnique(cs: Cards4, base: U32 -> BaseCard)
    requires OculusCount(cs, base, 4) == 1
    requires var m := TallyOf(cs, base, 4); |m.Keys| == 3 && HasPair(m)
    ensures var m := TallyOf(cs, base, 4);
      forall c :: c in m && m[c] == 1 && c != Oculus ==> c == SoloFrom(cs, base, m, 0)
    ensures var m := TallyOf(cs, base, 4);
      var s := SoloFrom(cs, base, m, 0); s in m && m[s] == 1 && s != Oculus
  {
    var m := TallyOf(cs, base, 4);
    SingleOculusTallied(cs, base);
    var p :| p in m && m[p] == 2;
    var s := Third(m.Keys, Oculus, p);
    ThreeElements(m.Keys, Oculus, p, s);
    TallyCounts(cs, base, 4, Oculus);
    TallyCounts(cs, base, 4, p);
    TallyCounts(cs, base, 4, s);
    FirstCountsDisjoint(cs, base, Oculus, p, s, 4);
    assert m[s] == 1;
    var k := FirstCountWitness(cs, base, s, 4);
    SoloFromFinds(cs, base, m, 0, k, s);
  }

  /** The scan from `i` stops at the first qualifying card; when only clan `s`
      qualifies and card `k >= i` has it, the scan returns `s`. */
  lemma {:induction false} SoloFromFinds(cs: seq<Card>, base: U32 -> BaseCard, m: map<Clan, nat>, i: nat, k: nat, s: Clan)
    requires i <= k < |cs| && !SeenBefore(cs, k) && ClanOf(base, cs[k]) == s
    requires s in m && m[s] == 1 && s != Oculus
    requires forall c :: c in m && m[c] == 1 && c != Oculus ==> c == s
    ensures SoloFrom(cs, base, m, i) == s
    decreases k - i
  {
    if i < k {
      SoloFromFinds(cs, base, m, i + 1, k, s);
    }
  }

  /** Every count lies in 1..4: a position always shares its own clan. */
  lemma CountsInRange(cl: seq<Clan>, i: nat)
    requires |cl| == 4 && i < 4
    ensures 1 <= CountsOf(cl)[i] <= 4
  {
    CountAtLeastOne(cl, cl[i], 4, i);
  }

  lemma {:induction false} CountAtLeastOne(cl: seq<Clan>, c: Clan, n: nat, i: nat)
    requires i < n <= |cl| && cl[i] == c
    ensures CountOf(cl, c, n) >= 1
  {
    if i < n - 1 {
      CountAtLeastOne(cl, c, n - 1, i);
    }
  }

  /** A card repeating an earlier card's id keeps `NoClan` as its resolved
      clan (the Oculus rule only rewrites the single Oculus card, which is
      never a repeated id). */
  lemma RepeatedIdHasNoClan(cs: Cards4, base: U32 -> BaseCard, i: nat)
    requires i < 4 && SeenBefore(cs, i)
    ensures ResolvedClans(cs, base)[i] == NoClan
  {
    if OculusCount(cs, base, 4) == 1 {
      SingleOculusNotRepeated(cs, base);
    }
  }

  /** Oculus rule with two distinct clans: the Oculus card takes the clan of
      card 0, or of card 1 when it is card 0 itself. */
  lemma OculusTwoClans(cs: Cards4, base: U32 -> BaseCard)
    requires OculusCount(cs, base, 4) == 1 && |TallyOf(cs, base, 4).Keys| == 2
    ensures var oi := OculusIndex(cs, base, 4);
      ResolvedClans(cs, base)[oi] == ClanOf(base, cs[if oi == 0 then 1 else 0])
  {
  }

  /** Oculus rule with three distinct clans, one of them held twice: the
      Oculus card takes the clan held by a single non-Oculus card. */
  lemma OculusThreeClans(cs: Cards4, base: U32 -> BaseCard, c: Clan)
    requires OculusCount(cs, base, 4) == 1
    requires var m := TallyOf(cs, base, 4); |m.Keys| == 3 && HasPair(m)
    requires var m := TallyOf(cs, base, 4); c in m && m[c] == 1 && c != Oculus
    ensures ResolvedClans(cs, base)[OculusIndex(cs, base, 4)] == c
  {
    SoloUnique(cs, base);
  }

  /** Without an Oculus card the returned clan is card 0's resolved clan. */
  lemma NoOculusReturnsFirst(cs: Cards4, base: U32 -> BaseCard)
    requires OculusCount(cs, base, 4) == 0
    ensures OculusIndex(cs, base, 4) == 0
  {
    NoOculus(cs, base, 4);
    NoOculusIndex(cs, base, 4);
  }

  lemma {:induction false} NoOculusIndex(cs: seq<Card>, base: U32 -> BaseCard, n: nat)
    requires n <= |cs| && forall j :: 0 <= j < n ==> ClanOf(base, cs[j]) != Oculus
    ensures OculusIndex(cs, base, n) == 0
  {
    if n > 0 {
      NoOculusIndex(cs, base, n - 1);
    }
  }

  // ---------------------------------------------------------------------
  // Hands

  /** A hand built from four catalog ids: cards at positions 0..3, then the
      clan resolver. */
  method HandFromIds(i1: U32, i2: U32, i3: U32, i4: U32, base: U32 -> BaseCard) returns (h: Hand)
    ensures var cs := [CardFrom(base(i1), 0), CardFrom(base(i2), 1), CardFrom(base(i3), 2), CardFrom(base(i4), 3)];
      var cl := ResolvedClans(cs, base);
      h == Hand(ClearSoloBonuses(cs, CountsOf(cl)), CountsOf(cl), cl[OculusIndex(cs, base, 4)])
  {
    var cards := new Card[4];
    cards[0], cards[1], cards[2], cards[3] :=
      CardFrom(base(i1), 0), CardFrom(base(i2), 1), CardFrom(base(i3), 2), CardFrom(base(i4), 3);
    ghost var cs: Cards4 := [CardFrom(base(i1), 0), CardFrom(base(i2), 1), CardFrom(base(i3), 2), CardFrom(base(i4), 3)];
    assert cards[..] == cs;
    var clanCount, oculusClan := ClanCounts(cards, base);
    h := Hand(cards[..], clanCount, oculusClan);
  }

  /** Number of Leader cards in a hand. */
  function LeaderCount(h: Hand, base: U32 -> BaseCard): nat
  {
    (if ClanOf(base, h.cards[0]) == Leader then 1 else 0) +
    (if ClanOf(base, h.cards[1]) == Leader then 1 else 0) +
    (if ClanOf(base, h.cards[2]) == Leader then 1 else 0) +
    (if ClanOf(base, h.cards[3]) == Leader then 1 else 0)
  }

  /** The hand's leader card: present exactly when one card is a Leader. */
  function GetLeader(h: Hand, base: U32 -> BaseCard): (r: Option<Card>)
    ensures r.Some? <==> LeaderCount(h, base) == 1
    ensures r.Some? ==> exists i :: 0 <= i < 4 && ClanOf(base, h.cards[i]) == Leader && r.value == h.cards[i]
  {
    var leader := (i: int) requires 0 <= i < 4 => ClanOf(base, h.cards[i]) == Leader;
    if leader(0) then
      if leader(1) || leader(2) || leader(3) then None else Some(h.cards[0])
    else if leader(1) then
      if leader(2) || leader(3) then None else Some(h.cards[1])
    else if leader(2) then
      if leader(3) then None else Some(h.cards[2])
    else if leader(3) then Some(h.cards[3])
    else None
  }
}
