// Shared value types: the clan enumeration with its numeric ids and short
// display names, card rarities, fixed-width integers and an Option type.

module Types {

  datatype Option<T> = None | Some(value: T)

  /** An unsigned 8-bit value (Rust `u8`). */
  type U8 = x: int | 0 <= x < 256
  /** An unsigned 32-bit value (Rust `u32`). */
  type U32 = x: int | 0 <= x < 0x1_0000_0000
  /** A machine-word unsigned value (Rust `usize` on a 64-bit target). */
  type Usize = x: int | 0 <= x < 0x1_0000_0000_0000_0000

  /** Truncation of an integer to its low byte: release-build `u8` wrap-around
      (Dafny's `%` is Euclidean, so -1 becomes 255 as in two's complement). */
  function Wrap8(x: int): (r: U8)
    ensures 0 <= x < 256 ==> r == x
    ensures (r - x) % 256 == 0
  {
    x % 256
  }

  /** The clans. `NoClan` is the source's `Clan::None` (id 0). */
  datatype Clan =
    | AllStars | Bangers | Berzerk | Dominion | FangPiClang | Freaks | Frozn
    | Gheist | GhosTown | Hive | Huracan | Jungo | Junkz | Komboka | LaJunta
    | Leader | Montana | Nightmare | Oblivion | Oculus | Paradox | Piranas
    | Pussycats | Raptors | Rescue | Riots | Roots | Sakrohm | Sentinel
    | Skeelz | UluWatu | Uppers | Vortex | NoClan

  /** The `repr(u8)` discriminant of a clan. */
  function ClanId(c: Clan): U8
  {
    match c
    case AllStars => 38    case Bangers => 31    case Berzerk => 46
    case Dominion => 53    case FangPiClang => 25 case Freaks => 40
    case Frozn => 47       case Gheist => 32     case GhosTown => 52
    case Hive => 51        case Huracan => 48    case Jungo => 43
    case Junkz => 26       case Komboka => 54    case LaJunta => 27
    case Leader => 36      case Montana => 3     case Nightmare => 37
    case Oblivion => 57    case Oculus => 56     case Paradox => 55
    case Piranas => 42     case Pussycats => 4   case Raptors => 50
    case Rescue => 41      case Riots => 49      case Roots => 29
    case Sakrohm => 30     case Sentinel => 33   case Skeelz => 44
    case UluWatu => 10     case Uppers => 28     case Vortex => 45
    case NoClan => 0
  }

  /** Conversion from a numeric id; `None` is the panic on an unknown id
      (id 0 included: the conversion has no arm for `Clan::None`). */
  function ClanFrom(id: U8): (r: Option<Clan>)
    ensures r.Some? ==> r.value != NoClan
  {
    match id
    case 38 => Some(AllStars)    case 31 => Some(Bangers)
    case 46 => Some(Berzerk)     case 53 => Some(Dominion)
    case 25 => Some(FangPiClang) case 40 => Some(Freaks)
    case 47 => Some(Frozn)       case 32 => Some(Gheist)
    case 52 => Some(GhosTown)    case 51 => Some(Hive)
    case 48 => Some(Huracan)     case 43 => Some(Jungo)
    case 26 => Some(Junkz)       case 54 => Some(Komboka)
    case 27 => Some(LaJunta)     case 36 => Some(Leader)
    case 3 => Some(Montana)      case 37 => Some(Nightmare)
    case 57 => Some(Oblivion)    case 56 => Some(Oculus)
    case 55 => Some(Paradox)     case 42 => Some(Piranas)
    case 4 => Some(Pussycats)    case 50 => Some(Raptors)
    case 41 => Some(Rescue)      case 49 => Some(Riots)
    case 29 => Some(Roots)       case 30 => Some(Sakrohm)
    case 33 => Some(Sentinel)    case 44 => Some(Skeelz)
    case 10 => Some(UluWatu)     case 28 => Some(Uppers)
    case 45 => Some(Vortex)
    case _ => None
  }

  /** Every real clan survives the round trip through its id. */
  lemma ClanIdRoundTrip(c: Clan)
    requires c != NoClan
    ensures ClanFrom(ClanId(c)) == Some(c)
  {
  }

  /** A successful conversion returns the clan carrying that id. */
  lemma ClanFromSound(id: U8)
    ensures ClanFrom(id).Some? ==> ClanId(ClanFrom(id).value) == id
  {
  }

  /** Clan ids are pairwise distinct. */
  lemma ClanIdInjective(c1: Clan, c2: Clan)
    requires c1 != NoClan && c2 != NoClan
    ensures ClanId(c1) == ClanId(c2) ==> c1 == c2
  {
    ClanIdRoundTrip(c1);
    ClanIdRoundTrip(c2);
  }

  /** The three- or four-letter abbreviation shown between brackets. */
  function Abbreviation(c: Clan): string
    requires c != NoClan
  {
    match c
    case AllStars => "AlS"    case Bangers => "Bgr"   case Berzerk => "Bzk"
    case Dominion => "Dmn"    case FangPiClang => "Fng" case Freaks => "Frk"
    case Frozn => "Fzn"       case Gheist => "Ght"    case GhosTown => "GT"
    case Hive => "Hiv"        case Huracan => "Hcn"   case Jungo => "Jng"
    case Junkz => "Jkz"       case Komboka => "Kmb"   case LaJunta => "LaJ"
    case Leader => "Ldr"      case Montana => "Mtna"  case Nightmare => "Ntm"
    case Oblivion => "Obl"    case Oculus => "Ocu"    case Paradox => "Pdx"
    case Piranas => "Prna"    case Pussycats => "Psy" case Raptors => "Rptr"
    case Rescue => "Rsc"      case Riots => "Rio"     case Roots => "Roo"
    case Sakrohm => "Skm"     case Sentinel => "Stl"  case Skeelz => "Skl"
    case UluWatu => "Ulu"     case Uppers => "Upp"    case Vortex => "Vtx"
  }

  /** Reading an abbreviation back; the partner of `Abbreviation`. */
  function ClanOfAbbreviation(s: string): Option<Clan>
  {
    match s
    case "AlS" => Some(AllStars)   case "Bgr" => Some(Bangers)
    case "Bzk" => Some(Berzerk)    case "Dmn" => Some(Dominion)
    case "Fng" => Some(FangPiClang) case "Frk" => Some(Freaks)
    case "Fzn" => Some(Frozn)      case "Ght" => Some(Gheist)
    case "GT" => Some(GhosTown)    case "Hiv" => Some(Hive)
    case "Hcn" => Some(Huracan)    case "Jng" => Some(Jungo)
    case "Jkz" => Some(Junkz)      case "Kmb" => Some(Komboka)
    case "LaJ" => Some(LaJunta)    case "Ldr" => Some(Leader)
    case "Mtna" => Some(Montana)   case "Ntm" => Some(Nightmare)
    case "Obl" => Some(Oblivion)   case "Ocu" => Some(Oculus)
    case "Pdx" => Some(Paradox)    case "Prna" => Some(Piranas)
    case "Psy" => Some(Pussycats)  case "Rptr" => Some(Raptors)
    case "Rsc" => Some(Rescue)     case "Rio" => Some(Riots)
    case "Roo" => Some(Roots)      case "Skm" => Some(Sakrohm)
    case "Stl" => Some(Sentinel)   case "Skl" => Some(Skeelz)
    case "Ulu" => Some(UluWatu)    case "Upp" => Some(Uppers)
    case "Vtx" => Some(Vortex)
    case _ => None
  }

  /** Reading an abbreviation back gives its clan (clans with ids below 40). */
  lemma AbbreviationRoundTripLow(c: Clan)
    requires c != NoClan && ClanId(c) < 40
    ensures ClanOfAbbreviation(Abbreviation(c)) == Some(c)
  {
  }

  /** Reading an abbreviation back gives its clan (clans with ids from 40). */
  lemma AbbreviationRoundTripHigh(c: Clan)
    requires c != NoClan && ClanId(c) >= 40
    ensures ClanOfAbbreviation(Abbreviation(c)) == Some(c)
  {
  }

  /** The bracketed short name; only defined for real clans (`Clan::None`
      is `unreachable!`). */
  function ShortName(c: Clan): (r: string)
    requires c != NoClan
    ensures 4 <= |r| <= 6 && r[0] == '[' && r[|r| - 1] == ']'
    ensures ClanOfAbbreviation(r[1..|r| - 1]) == Some(c)
  {
    var a := Abbreviation(c);
    var r := "[" + a + "]";
    assert r[1..|r| - 1] == a;
    if ClanId(c) < 40 then AbbreviationRoundTripLow(c); r
    else AbbreviationRoundTripHigh(c); r
  }

  /** Distinct clans have distinct short names. */
  lemma ShortNameInjective(c1: Clan, c2: Clan)
    requires c1 != NoClan && c2 != NoClan
    ensures ShortName(c1) == ShortName(c2) ==> c1 == c2
  {
  }

  datatype Rarity = Common | Uncommon | Rare | Collector | Mythic | Legendary

  /** Rarity from its catalog code; any unknown code reads as common. */
  function RarityFrom(s: string): (r: Rarity)
    ensures s !in {"u", "r", "cr", "m", "l"} ==> r == Common
  {
    match s
    case "c" => Common
    case "u" => Uncommon
    case "r" => Rare
    case "cr" => Collector
    case "m" => Mythic
    case "l" => Legendary
    case _ => Common
  }

  /** The catalog code of each rarity. */
  function RarityCode(r: Rarity): string
  {
    match r
    case Common => "c"
    case Uncommon => "u"
    case Rare => "r"
    case Collector => "cr"
    case Mythic => "m"
    case Legendary => "l"
  }

  /** Every rarity is read back from its own code. */
  lemma RarityRoundTrip(r: Rarity)
    ensures RarityFrom(RarityCode(r)) == r
  {
  }
}
