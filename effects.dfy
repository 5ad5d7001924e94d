// The declarative effect definitions read from the catalog: event times,
// the six kinds of modifier, conditions and abilities, and the catalog
// lookups themselves.

module Effects {
  import opened Types
  import opened Cards

  /** A signed 32-bit value (Rust `i32`). */
  type I32 = x: int | -0x8000_0000 <= x < 0x8000_0000

  /** The ten phases of a battle, in execution order. */
  datatype EventTime = Start | Pre4 | Pre3 | Pre2 | Pre1 | Post1 | Post2 | Post3 | Post4 | End
  {
    /** The `repr(usize)` discriminant, used as a bucket index. */
    function Index(): (r: nat)
      ensures r < 10
    {
      match this
      case Start => 0 case Pre4 => 1 case Pre3 => 2 case Pre2 => 3 case Pre1 => 4
      case Post1 => 5 case Post2 => 6 case Post3 => 7 case Post4 => 8 case End => 9
    }
  }

  /** Distinct phases occupy distinct buckets. */
  lemma EventTimeIndexInjective(e1: EventTime, e2: EventTime)
    ensures e1.Index() == e2.Index() ==> e1 == e2
  {
  }

  /** The stat a basic modifier changes. */
  datatype Stat = Power | Damage | Attack | Life | Pillz

  /** Where a basic modifier's multiplier comes from. */
  datatype Per =
    | Power | Damage | Life | Pillz | Support | Brawl | Growth | Degrowth
    | Equalizer | Symmetry | Asymmetry | OppPower | OppDamage | OppLife | OppPillz

  /** What a copy modifier copies. */
  datatype CopyTarget = Power | Damage | Ability | Bonus | Infiltrate

  /** What an exchange modifier swaps or imposes. */
  datatype ExchangeKind = Power | Damage | ImposePower | ImposeDamage

  /** What a protection modifier protects. */
  datatype ProtectTarget = Power | Damage | Attack | Ability | Bonus

  /** A change of one stat, clamped to [min, max], possibly scaled. */
  datatype BasicModifier = BasicModifier(
    eventTime: EventTime, win: Option<bool>, change: I32, per: Option<Per>,
    stat: Stat, opp: bool, min: I32, max: I32, always: bool)

  /** A cancel of one slot of the opposing card; `applied` records whether
      the cancel is currently in force. The cancel targets are exactly the
      seven counter slots of a card. */
  datatype CancelModifier = CancelModifier(
    eventTime: EventTime, win: Option<bool>, cancel: AttrSlot, applied: Option<bool>)

  datatype CopyModifier = CopyModifier(eventTime: EventTime, win: Option<bool>, copy: CopyTarget)

  datatype ExchangeModifier = ExchangeModifier(eventTime: EventTime, win: Option<bool>, ex: ExchangeKind)

  datatype ProtectionModifier = ProtectionModifier(
    eventTime: EventTime, win: Option<bool>, prot: ProtectTarget, both: bool)

  /** A divisor of zero would make recovery divide by zero, so catalog
      entries carry a positive `out_of`. */
  type PositiveU8 = x: int | 1 <= x < 256 witness 1

  datatype RecoverModifier = RecoverModifier(
    eventTime: EventTime, win: Option<bool>, n: U8, outOf: PositiveU8)

  datatype Modifier =
    | BasicMod(basic: BasicModifier)
    | CancelMod(cancelMod: CancelModifier)
    | CopyMod(copyMod: CopyModifier)
    | ExchangeMod(exchange: ExchangeModifier)
    | ProtectionMod(protection: ProtectionModifier)
    | RecoverMod(recover: RecoverModifier)

  function EventTimeOf(m: Modifier): EventTime
  {
    match m
    case BasicMod(x) => x.eventTime
    case CancelMod(x) => x.eventTime
    case CopyMod(x) => x.eventTime
    case ExchangeMod(x) => x.eventTime
    case ProtectionMod(x) => x.eventTime
    case RecoverMod(x) => x.eventTime
  }

  datatype AbilityType = Global | Ability | Bonus | GlobalAbility | GlobalBonus

  /** Conditions; `Infiltrate` and `Versus` hold their clan list directly and
      `Unknown` is the catch-all for unrecognised names. */
  datatype Condition =
    | Courage | Defeat | Brawl | Growth | Confidence | Degrowth | VictoryOrDefeat
    | Equalizer | Support | Team | Symmetry | Revenge | Reprisal | Day | Night
    | Killshot | Backlash | Asymmetry | Reanimate | Stop
    | Infiltrate(clans: seq<Clan>) | Versus(clans: seq<Clan>)
    | Unknown

  /** An ability: its type, modifiers and conditions in declared order, and
      the flags it carries between executions. */
  datatype Ability = Ability(
    abilityType: AbilityType, modifiers: seq<Modifier>, conditions: seq<Condition>,
    delayed: bool, won: bool, remove: bool)

  /** The catalog: cards and abilities by id. */
  datatype Catalog = Catalog(card: U32 -> BaseCard, ability: U32 -> Ability)
}
