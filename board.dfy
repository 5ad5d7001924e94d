// The state a round acts on: both players and both hands, and the
// per-side view of it (`BattleData`) that abilities and modifiers read.

module Board {
  import opened Types
  import opened Cards

  /** Outcome of the last round for one player; `Pending` is `RoundWin::NONE`. */
  datatype RoundWin = Win | Lose | Pending

  /** A player's life and pillz, with the values before the current round. */
  datatype Player = Player(
    life: U8, lifePrevious: U8, pillz: U8, pillzPrevious: U8,
    won: RoundWin, wonPrevious: RoundWin)

  /** A new player: 12 life, 12 pillz, no round played. */
  const NewPlayer := Player(12, 12, 12, 12, Pending, Pending)

  datatype Side = P1 | P2

  function Other(s: Side): Side
  {
    if s == P1 then P2 else P1
  }

  /** Both players and both hands. */
  datatype Board = Board(p1: Player, p2: Player, h1: Hand, h2: Hand)

  /** What one side's abilities see during a battle: the round, whether the
      side moved first, which side it is, the two cards fighting and the
      pillz each side spent (fury surcharge included). */
  datatype BattleData = BattleData(
    round: U8, first: bool, side: Side,
    card: CardIndex, pillzUsed: U8, oppCard: CardIndex, oppPillzUsed: U8)

  function PlayerOf(b: Board, s: Side): Player
  {
    if s == P1 then b.p1 else b.p2
  }

  function HandOf(b: Board, s: Side): Hand
  {
    if s == P1 then b.h1 else b.h2
  }

  function WithPlayer(b: Board, s: Side, p: Player): (r: Board)
    ensures PlayerOf(r, s) == p && PlayerOf(r, Other(s)) == PlayerOf(b, Other(s))
    ensures r.h1 == b.h1 && r.h2 == b.h2
  {
    if s == P1 then b.(p1 := p) else b.(p2 := p)
  }

  function WithCard(b: Board, s: Side, i: CardIndex, c: Card): (r: Board)
    ensures HandOf(r, s).cards == HandOf(b, s).cards[i := c]
    ensures HandOf(r, s).clanCount == HandOf(b, s).clanCount
    ensures HandOf(r, s).oculusClan == HandOf(b, s).oculusClan
    ensures HandOf(r, Other(s)) == HandOf(b, Other(s))
    ensures r.p1 == b.p1 && r.p2 == b.p2
  {
    if s == P1 then b.(h1 := b.h1.(cards := b.h1.cards[i := c]))
    else b.(h2 := b.h2.(cards := b.h2.cards[i := c]))
  }

  function Me(b: Board, d: BattleData): Player { PlayerOf(b, d.side) }
  function Opp(b: Board, d: BattleData): Player { PlayerOf(b, Other(d.side)) }
  function MyHand(b: Board, d: BattleData): Hand { HandOf(b, d.side) }
  function OppHand(b: Board, d: BattleData): Hand { HandOf(b, Other(d.side)) }
  function MyCard(b: Board, d: BattleData): Card { MyHand(b, d).cards[d.card] }
  function OppCard(b: Board, d: BattleData): Card { OppHand(b, d).cards[d.oppCard] }

  /** The same battle seen from the opposing side. */
  function Mirror(d: BattleData): (r: BattleData)
    ensures r.side == Other(d.side) && Other(r.side) == d.side
  {
    BattleData(d.round, !d.first, Other(d.side), d.oppCard, d.oppPillzUsed, d.card, d.pillzUsed)
  }

  /** `r` differs from `b` at most in the two fighting cards: the players,
      every other card and each hand's clan counts and Oculus clan agree. */
  predicate OnlyFightersChanged(r: Board, b: Board, d: BattleData)
  {
    r.p1 == b.p1 && r.p2 == b.p2 &&
    MyHand(r, d).clanCount == MyHand(b, d).clanCount && MyHand(r, d).oculusClan == MyHand(b, d).oculusClan &&
    OppHand(r, d).clanCount == OppHand(b, d).clanCount && OppHand(r, d).oculusClan == OppHand(b, d).oculusClan &&
    (forall j :: 0 <= j < 4 && j != d.card ==> MyHand(r, d).cards[j] == MyHand(b, d).cards[j]) &&
    (forall j :: 0 <= j < 4 && j != d.oppCard ==> OppHand(r, d).cards[j] == OppHand(b, d).cards[j])
  }

  function SetMe(b: Board, d: BattleData, p: Player): Board { WithPlayer(b, d.side, p) }
  function SetOpp(b: Board, d: BattleData, p: Player): Board { WithPlayer(b, Other(d.side), p) }
  function SetMyCard(b: Board, d: BattleData, c: Card): Board { WithCard(b, d.side, d.card, c) }
  function SetOppCard(b: Board, d: BattleData, c: Card): Board { WithCard(b, Other(d.side), d.oppCard, c) }
}
