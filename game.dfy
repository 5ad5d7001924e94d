// The match: selections and their text form, whose turn it is, the game
// status, one battle round from start to end, and the selection protocol
// that triggers it.

module Game {
  import opened Types
  import opened Cards
  import opened Board
  import opened Effects
  import opened Abilities
  import opened Battle

  /** A move: which card, how many pillz, and whether to add fury. */
  datatype Selection = Selection(index: Usize, pillz: U8, fury: bool)

  // ---------------------------------------------------------------------
  // Parsing a selection from text
  // ---------------------------------------------------------------------

  /** The pieces of `s` between single spaces, as `str::split(' ')` gives
      them: always at least one, possibly empty. */
  function Split(s: string): (r: seq<string>)
    ensures |r| >= 1
  {
    if |s| == 0 then [""]
    else
      var r := Split(s[..|s| - 1]);
      var c := s[|s| - 1];
      if c == ' ' then r + [""]
      else r[..|r| - 1] + [r[|r| - 1] + [c]]
  }

  /** No piece contains a space. */
  lemma {:induction false} SplitNoSpaces(s: string)
    ensures forall t :: t in Split(s) ==> ' ' !in t
  {
    if |s| > 0 {
      var r := Split(s[..|s| - 1]);
      SplitNoSpaces(s[..|s| - 1]);
      if s[|s| - 1] != ' ' {
        assert r[|r| - 1] in r;
        forall t | t in Split(s)
          ensures ' ' !in t
        {
          if t != r[|r| - 1] + [s[|s| - 1]] {
            assert t in r[..|r| - 1];
          }
        }
      }
    }
  }

  /** The pieces joined back with single spaces. */
  function Join(ts: seq<string>): string
    requires |ts| >= 1
  {
    if |ts| == 1 then ts[0] else Join(ts[..|ts| - 1]) + " " + ts[|ts| - 1]
  }

  /** Splitting loses nothing: joining the pieces gives the input back. */
  lemma {:induction false} JoinSplit(s: string)
    ensures Join(Split(s)) == s
  {
    if |s| > 0 {
      var init := s[..|s| - 1];
      JoinSplit(init);
      JoinSplitStep(init, s[|s| - 1]);
      assert s == init + [s[|s| - 1]];
    }
  }

  /** One more character keeps the round trip. */
  lemma JoinSplitStep(init: string, c: char)
    requires Join(Split(init)) == init
    ensures Join(Split(init + [c])) == init + [c]
  {
    var s := init + [c];
    assert s[..|s| - 1] == init;
    var r := Split(init);
    if c == ' ' {
      assert Split(s) == r + [""];
      JoinAppendEmpty(r);
    } else {
      assert Split(s) == r[..|r| - 1] + [r[|r| - 1] + [c]];
      JoinLastExtended(r, c);
    }
  }

  /** An empty last piece adds a trailing space. */
  lemma JoinAppendEmpty(r: seq<string>)
    requires |r| >= 1
    ensures Join(r + [""]) == Join(r) + " "
  {
    assert (r + [""])[..|r|] == r;
  }

  /** Extending the last piece extends the joined string. */
  lemma {:induction false} JoinLastExtended(r: seq<string>, c: char)
    requires |r| >= 1
    ensures Join(r[..|r| - 1] + [r[|r| - 1] + [c]]) == Join(r) + [c]
  {
    var r' := r[..|r| - 1] + [r[|r| - 1] + [c]];
    if |r| > 1 {
      assert r'[..|r'| - 1] == r[..|r| - 1];
    }
  }

  /** A space followed by a word starts a new piece holding that word. */
  lemma {:induction false} SplitAppendWord(s: string, t: string)
    requires ' ' !in t
    ensures Split(s + " " + t) == Split(s) + [t]
  {
    if |t| == 0 {
      assert (s + " " + t)[..|s + " " + t| - 1] == s;
    } else {
      var t' := t[..|t| - 1];
      var c := t[|t| - 1];
      assert c in t;
      assert forall x :: x in t' ==> x in t;
      SplitAppendWord(s, t');
      assert (s + " " + t)[..|s + " " + t| - 1] == s + " " + t';
      var r := Split(s + " " + t');
      assert r[..|r| - 1] == Split(s);
      assert t' + [c] == t;
    }
  }

  /** A single word splits into itself. */
  lemma {:induction false} SplitWord(t: string)
    requires ' ' !in t
    ensures Split(t) == [t]
  {
    if |t| > 0 {
      var t' := t[..|t| - 1];
      assert forall x :: x in t' ==> x in t;
      SplitWord(t');
      assert t[|t| - 1] in t;
      assert t' + [t[|t| - 1]] == t;
    }
  }

  /** Joining space-free pieces and splitting again gives the pieces back. */
  lemma {:induction false} SplitJoin(ts: seq<string>)
    requires |ts| >= 1 && forall t :: t in ts ==> ' ' !in t
    ensures Split(Join(ts)) == ts
  {
    if |ts| == 1 {
      SplitWord(ts[0]);
    } else {
      var init := ts[..|ts| - 1];
      assert forall t :: t in init ==> t in ts;
      SplitJoin(init);
      assert ts[|ts| - 1] in ts;
      SplitAppendWord(Join(init), ts[|ts| - 1]);
      assert init + [ts[|ts| - 1]] == ts;
    }
  }

  predicate IsDigit(c: char)
  {
    '0' <= c <= '9'
  }

  predicate AllDigits(t: string)
  {
    forall i :: 0 <= i < |t| ==> IsDigit(t[i])
  }

  /** The number a string of decimal digits denotes. */
  function DigitsValue(t: string): nat
    requires AllDigits(t)
  {
    if |t| == 0 then 0
    else DigitsValue(t[..|t| - 1]) * 10 + (t[|t| - 1] - '0') as nat
  }

  /** Unsigned integer parsing: an optional `+`, then at least one digit and
      nothing else; a value at or above `limit` overflows and fails. */
  function ParseUnsigned(t: string, limit: nat): (r: Option<nat>)
    ensures r.Some? ==> r.value < limit
    ensures |t| == 0 ==> r.None?
  {
    var digits := if |t| > 0 && t[0] == '+' then t[1..] else t;
    if |digits| == 0 || !AllDigits(digits) then None
    else
      var v := DigitsValue(digits);
      if v < limit then Some(v) else None
  }

  /** Boolean parsing: exactly `true` or `false`. */
  function ParseBool(t: string): (r: Option<bool>)
    ensures r.Some? <==> t == "true" || t == "false"
  {
    if t == "true" then Some(true) else if t == "false" then Some(false) else None
  }

  const UsizeLimit: nat := 0x1_0000_0000_0000_0000

  /** The selection a line of text denotes: the index from the first piece,
      the pillz from the second and fury from the third, with 0 and false for
      pieces that are absent; pieces after the third are ignored, and any
      piece that does not parse makes the whole line fail. */
  function ParseF(input: string): Option<Selection>
  {
    var ts := Split(input);
    match ParseUnsigned(ts[0], UsizeLimit)
    case None => None
    case Some(index) =>
      if |ts| == 1 then Some(Selection(index, 0, false))
      else
        match ParseUnsigned(ts[1], 256)
        case None => None
        case Some(pillz) =>
          if |ts| == 2 then Some(Selection(index, pillz, false))
          else
            match ParseBool(ts[2])
            case None => None
            case Some(fury) => Some(Selection(index, pillz, fury))
  }

  /** `Selection::parse`: a loop over the pieces that stops after the third. */
  method Parse(input: string) returns (r: Option<Selection>)
    ensures r == ParseF(input)
  {
    var tokens := Split(input);
    var index: Usize := 0;
    var pillz: U8 := 0;
    var fury := false;
    var i := 0;
    while i < |tokens|
      invariant 0 <= i <= |tokens| && i <= 2
      invariant i >= 1 ==> ParseUnsigned(tokens[0], UsizeLimit) == Some(index)
      invariant i >= 2 ==> ParseUnsigned(tokens[1], 256) == Some(pillz)
      invariant i < 2 ==> pillz == 0
      invariant !fury
    {
      if i == 0 {
        var v := ParseUnsigned(tokens[0], UsizeLimit);
        if v.None? {
          return None;
        }
        index := v.value;
      } else if i == 1 {
        var v := ParseUnsigned(tokens[1], 256);
        if v.None? {
          return None;
        }
        pillz := v.value;
      } else {
        var v := ParseBool(tokens[i]);
        if v.None? {
          return None;
        }
        fury := v.value;
        return Some(Selection(index, pillz, fury));
      }
      i := i + 1;
    }
    r := Some(Selection(index, pillz, fury));
  }

  /** The empty line is not a selection. */
  lemma ParseEmpty()
    ensures ParseF("") == None
  {
    assert Split("") == [""];
  }

  /** Only the first three pieces matter. */
  lemma ParseIgnoresTail(input: string)
    requires |Split(input)| > 3
    ensures ParseF(input) == ParseF(Join(Split(input)[..3]))
  {
    var ts := Split(input);
    SplitNoSpaces(input);
    assert forall t :: t in ts[..3] ==> t in ts;
    SplitJoin(ts[..3]);
  }

  /** The decimal form of a number. */
  function Decimal(n: nat): (r: string)
    ensures |r| >= 1 && AllDigits(r) && DigitsValue(r) == n
  {
    var last := ['0' + (n % 10) as char];
    if n < 10 then last
    else
      var r := Decimal(n / 10) + last;
      assert r[..|r| - 1] == Decimal(n / 10);
      r
  }

  /** A selection written as three decimal and boolean words is read back. */
  lemma ParseRoundTrip(s: Selection)
    ensures ParseF(Join([Decimal(s.index), Decimal(s.pillz), if s.fury then "true" else "false"])) == Some(s)
  {
    var ts := [Decimal(s.index), Decimal(s.pillz), if s.fury then "true" else "false"];
    forall t | t in ts
      ensures ' ' !in t
    {
      if t == ts[0] || t == ts[1] {
        assert AllDigits(t);
        forall i | 0 <= i < |t|
          ensures t[i] != ' '
        {
          assert IsDigit(t[i]);
        }
      }
    }
    SplitJoin(ts);
    assert Decimal(s.index)[0] != '+' by { assert IsDigit(Decimal(s.index)[0]); }
    assert Decimal(s.pillz)[0] != '+' by { assert IsDigit(Decimal(s.pillz)[0]); }
  }

  // ---------------------------------------------------------------------
  // Status and turn order
  // ---------------------------------------------------------------------

  datatype GameStatus = PlayerWins | OpponentWins | Draw | Playing

  /** The whole game as a value: round, players and hands, the pending
      selections, both sides' queues and which side moves first in even
      rounds. */
  datatype GameState = GameState(
    round: U8, board: Board, s1: Option<Selection>, s2: Option<Selection>,
    q1: Queues, q2: Queues, flip: U8)

  /** Exactly one side has committed this round. */
  predicate Pending(g: GameState)
  {
    g.s1.None? != g.s2.None?
  }

  /** The status: still playing while one selection waits; otherwise a side
      with no life loses (both: draw), and after round 4 the higher life
      wins. */
  function StatusF(g: GameState): GameStatus
  {
    var l1 := g.board.p1.life;
    var l2 := g.board.p2.life;
    if Pending(g) then Playing
    else if l1 == 0 && l2 == 0 then Draw
    else if l1 == 0 then OpponentWins
    else if l2 == 0 then PlayerWins
    else if g.round == 4 then
      if l1 == l2 then Draw else if l1 > l2 then PlayerWins else OpponentWins
    else Playing
  }

  /** The game is over exactly when no selection waits and a side is out of
      life or four rounds have been played; the first player wins exactly
      when alive and the opponent is not, or both are alive after round 4
      with more life on the first player's side. */
  lemma StatusCharacterised(g: GameState)
    ensures var l1 := g.board.p1.life; var l2 := g.board.p2.life;
      (StatusF(g) != Playing <==> !Pending(g) && (l1 == 0 || l2 == 0 || g.round == 4)) &&
      (StatusF(g) == PlayerWins <==>
        !Pending(g) && l1 > 0 && (l2 == 0 || (g.round == 4 && l1 > l2))) &&
      (StatusF(g) == OpponentWins <==>
        !Pending(g) && l2 > 0 && (l1 == 0 || (g.round == 4 && l2 > l1))) &&
      (StatusF(g) == Draw <==>
        !Pending(g) && ((l1 == 0 && l2 == 0) || (l1 > 0 && g.round == 4 && l1 == l2)))
  {
  }

  /** Exchanging the two players' lives exchanges the winner. */
  lemma StatusSymmetric(g: GameState)
    ensures var g' := g.(board := g.board.(p1 := g.board.p2, p2 := g.board.p1));
      (StatusF(g) == PlayerWins <==> StatusF(g') == OpponentWins) &&
      (StatusF(g) == Draw <==> StatusF(g') == Draw)
  {
  }

  /** The side that moves first this round. */
  function FirstTurnF(g: GameState): Side
  {
    if g.round % 2 == g.flip then P1 else P2
  }

  /** The side to move: the first mover until it has committed, then the
      other side. */
  function TurnF(g: GameState): Side
  {
    if g.round % 2 == g.flip then (if g.s1.Some? then P2 else P1)
    else (if g.s2.Some? then P1 else P2)
  }

  /** Before anyone commits the first mover moves; once the first mover has
      committed, the other side moves. */
  lemma TurnOrder(g: GameState)
    ensures g.s1.None? && g.s2.None? ==> TurnF(g) == FirstTurnF(g)
    ensures (if FirstTurnF(g) == P1 then g.s1.Some? else g.s2.Some?) ==> TurnF(g) == Other(FirstTurnF(g))
  {
  }

  // ---------------------------------------------------------------------
  // One battle
  // ---------------------------------------------------------------------

  /** The pillz a selection costs, fury surcharge included, in a byte. */
  function Cost(s: Selection): (r: U8)
    ensures s.pillz + 3 < 256 ==> r == s.pillz + (if s.fury then 3 else 0)
  {
    Wrap8(if s.fury then s.pillz + 3 else s.pillz)
  }

  /** Both selections are present and name a card of the hand. */
  predicate BattleReady(g: GameState)
  {
    g.s1.Some? && g.s2.Some? && g.s1.value.index < 4 && g.s2.value.index < 4
  }

  /** Remembering this round's life, pillz and result as the previous ones. */
  function Snapshot(p: Player): (r: Player)
    ensures r.lifePrevious == p.life && r.pillzPrevious == p.pillz && r.wonPrevious == p.won
    ensures r.life == p.life && r.pillz == p.pillz && r.won == p.won
  {
    p.(lifePrevious := p.life, pillzPrevious := p.pillz, wonPrevious := p.won)
  }

  /** What the first player's abilities see. */
  function Data1(g: GameState): BattleData
    requires BattleReady(g)
  {
    BattleData(g.round, FirstTurnF(g) == P1, P1, g.s1.value.index, Cost(g.s1.value),
               g.s2.value.index, Cost(g.s2.value))
  }

  /** What the second player's abilities see. */
  function Data2(g: GameState): BattleData
    requires BattleReady(g)
  {
    BattleData(g.round, FirstTurnF(g) == P2, P2, g.s2.value.index, Cost(g.s2.value),
               g.s1.value.index, Cost(g.s1.value))
  }

  /** Both queues and the board, threaded through a battle. */
  datatype Arena = Arena(q1: Queues, q2: Queues, b: Board)

  /** One phase on both sides, first player first. */
  function ExecBoth(a: Arena, e: EventTime, d1: BattleData, d2: BattleData, cat: Catalog): Arena
  {
    var r1 := ExecuteF(a.q1, e, d1, a.b, cat);
    var r2 := ExecuteF(a.q2, e, d2, r1.1, cat);
    Arena(r1.0, r2.0, r2.1)
  }

  /** The first `n` of the given phases on both sides, in order. */
  function ExecPhases(a: Arena, phases: seq<EventTime>, d1: BattleData, d2: BattleData, cat: Catalog, n: nat): Arena
    requires n <= |phases|
  {
    if n == 0 then a
    else ExecBoth(ExecPhases(a, phases, d1, d2, cat, n - 1), phases[n - 1], d1, d2, cat)
  }

  /** One pass of cancel re-checks on both sides; reports whether either
      changed anything. */
  function CancelPass(a: Arena, d1: BattleData, d2: BattleData): (Arena, bool)
  {
    var k := EventTime.Pre4.Index();
    var r1 := CheckCancelsF(a.q1.events[k], d1, a.b, |a.q1.events[k]|);
    var r2 := CheckCancelsF(a.q2.events[k], d2, r1.1, |a.q2.events[k]|);
    (Arena(Queues(a.q1.events[k := r1.0], a.q1.global), Queues(a.q2.events[k := r2.0], a.q2.global), r2.1),
     r1.2 || r2.2)
  }

  /** Up to `n` passes, stopping after the first pass in which neither side
      changed anything. */
  function CancelRounds(a: Arena, d1: BattleData, d2: BattleData, n: nat): Arena
    decreases n
  {
    if n == 0 then a
    else
      var p := CancelPass(a, d1, d2);
      if !p.1 then p.0 else CancelRounds(p.0, d1, d2, n - 1)
  }

  /** A pass that changes nothing leaves the board and queues as they were,
      so the passes stop at a fixed point. */
  lemma CancelPassFixedPoint(a: Arena, d1: BattleData, d2: BattleData)
    requires !CancelPass(a, d1, d2).1
    ensures CancelPass(a, d1, d2).0 == a
  {
    var k := EventTime.Pre4.Index();
    var r1 := CheckCancelsF(a.q1.events[k], d1, a.b, |a.q1.events[k]|);
    CheckCancelsChanged(a.q1.events[k], d1, a.b, |a.q1.events[k]|);
    CheckCancelsChanged(a.q2.events[k], d2, r1.1, |a.q2.events[k]|);
    assert a.q1.events[k][..|a.q1.events[k]|] == a.q1.events[k];
    assert a.q2.events[k][..|a.q2.events[k]|] == a.q2.events[k];
    assert a.q1.events[k := a.q1.events[k]] == a.q1.events;
    assert a.q2.events[k := a.q2.events[k]] == a.q2.events;
  }

  /** Queueing the chosen cards' ability and bonus on their own sides. */
  function AddCards(a: Arena, d1: BattleData, d2: BattleData, cat: Catalog): Arena
  {
    var c1 := a.b.h1.cards[d1.card];
    var c2 := a.b.h2.cards[d2.card];
    Arena(AddF(AddF(a.q1, cat.ability(c1.abilityId)), cat.ability(c1.bonusId)),
          AddF(AddF(a.q2, cat.ability(c2.abilityId)), cat.ability(c2.bonusId)), a.b)
  }

  /** The start of a battle: snapshot, queueing the chosen cards, then the
      START and PRE4 phases. */
  function EarlyPhases(g: GameState, cat: Catalog): Arena
    requires BattleReady(g)
  {
    var d1 := Data1(g);
    var d2 := Data2(g);
    var b := g.board.(p1 := Snapshot(g.board.p1), p2 := Snapshot(g.board.p2));
    var a0 := AddCards(Arena(g.q1, g.q2, b), d1, d2, cat);
    ExecPhases(a0, [Start, Pre4], d1, d2, cat, 2)
  }

  /** The PRE3, PRE2 and PRE1 phases. */
  function LatePhases(a: Arena, d1: BattleData, d2: BattleData, cat: Catalog): Arena
  {
    ExecPhases(a, [Pre3, Pre2, Pre1], d1, d2, cat, 3)
  }

  /** Everything before the strike: the early phases, the cancel
      re-checks, then the late phases. */
  function PrePhases(g: GameState, cat: Catalog): Arena
    requires BattleReady(g)
  {
    LatePhases(CancelRounds(EarlyPhases(g, cat), Data1(g), Data2(g), 3), Data1(g), Data2(g), cat)
  }

  /** The strike: fury adds two damage, and attack becomes
      `(pillz + 1) * power`, both in bytes. */
  function Strike(b: Board, i1: CardIndex, i2: CardIndex, s1: Selection, s2: Selection): (r: Board)
    ensures r.p1 == b.p1 && r.p2 == b.p2
    ensures var c1 := b.h1.cards[i1]; var r1 := r.h1.cards[i1];
      r1.attack.value == Wrap8((s1.pillz + 1) * c1.power.value) &&
      r1.damage.value == Wrap8(c1.damage.value + (if s1.fury then 2 else 0)) &&
      r1.power == c1.power && r1.level == c1.level
    ensures var c2 := b.h2.cards[i2]; var r2 := r.h2.cards[i2];
      r2.attack.value == Wrap8((s2.pillz + 1) * c2.power.value) &&
      r2.damage.value == Wrap8(c2.damage.value + (if s2.fury then 2 else 0)) &&
      r2.power == c2.power && r2.level == c2.level
  {
    var c1 := b.h1.cards[i1];
    var c2 := b.h2.cards[i2];
    var f1 := if s1.fury then c1.(damage := c1.damage.(value := Wrap8(c1.damage.value + 2))) else c1;
    var f2 := if s2.fury then c2.(damage := c2.damage.(value := Wrap8(c2.damage.value + 2))) else c2;
    var a1 := f1.(attack := f1.attack.(value := Wrap8((s1.pillz + 1) * f1.power.value)));
    var a2 := f2.(attack := f2.attack.(value := Wrap8((s2.pillz + 1) * f2.power.value)));
    b.(h1 := b.h1.(cards := b.h1.cards[i1 := a1]), h2 := b.h2.(cards := b.h2.cards[i2 := a2]))
  }

  /** The attack product wraps: three pillz on a 70-power card give an
      attack of 24, not 280. */
  lemma AttackWraps(b: Board, i1: CardIndex, i2: CardIndex, s1: Selection, s2: Selection)
    requires s1.pillz == 3 && b.h1.cards[i1].power.value == 70
    ensures Strike(b, i1, i2, s1, s2).h1.cards[i1].attack.value == 24
  {
  }

  /** Whether the first player wins the round: higher attack, then lower
      level, then moving first. */
  predicate FirstWins(c1: Card, c2: Card, first: Side)
  {
    c1.attack.value > c2.attack.value ||
    (c1.attack.value == c2.attack.value &&
      (c1.level < c2.level || (c1.level == c2.level && first == P1)))
  }

  /** The outcome: the loser loses the winner's damage, but no more life than
      it has; the winning card and the players' results are marked; both
      players pay their pillz, in bytes. */
  function Resolve(b: Board, i1: CardIndex, i2: CardIndex, first: Side, total1: U8, total2: U8): (r: Board)
  {
    var c1 := b.h1.cards[i1];
    var c2 := b.h2.cards[i2];
    if FirstWins(c1, c2, first) then
      var loss := if c1.damage.value < b.p2.life then c1.damage.value else b.p2.life;
      Board(b.p1.(won := Win, pillz := Wrap8(b.p1.pillz - total1)),
            b.p2.(life := b.p2.life - loss, won := Lose, pillz := Wrap8(b.p2.pillz - total2)),
            b.h1.(cards := b.h1.cards[i1 := c1.(won := true)]), b.h2)
    else
      var loss := if c2.damage.value < b.p1.life then c2.damage.value else b.p1.life;
      Board(b.p1.(life := b.p1.life - loss, won := Lose, pillz := Wrap8(b.p1.pillz - total1)),
            b.p2.(won := Win, pillz := Wrap8(b.p2.pillz - total2)),
            b.h1, b.h2.(cards := b.h2.cards[i2 := c2.(won := true)]))
  }

  /** Exactly one side wins, by the attack/level/first-mover rule; the
      winner keeps its life and the loser drops by the winner's damage,
      floored at zero; each side pays exactly its cost when it can afford
      it. */
  lemma ResolveOutcome(b: Board, i1: CardIndex, i2: CardIndex, first: Side, total1: U8, total2: U8)
    ensures var r := Resolve(b, i1, i2, first, total1, total2);
      var w := FirstWins(b.h1.cards[i1], b.h2.cards[i2], first);
      (r.p1.won == Win <==> w) && (r.p2.won == Win <==> !w) &&
      (r.p1.won == Lose <==> !w) && (r.p2.won == Lose <==> w) &&
      (w ==> r.p1.life == b.p1.life && r.h1.cards[i1].won &&
             r.p2.life == b.p2.life - Min(b.h1.cards[i1].damage.value, b.p2.life)) &&
      (!w ==> r.p2.life == b.p2.life && r.h2.cards[i2].won &&
              r.p1.life == b.p1.life - Min(b.h2.cards[i2].damage.value, b.p1.life)) &&
      (total1 <= b.p1.pillz ==> r.p1.pillz == b.p1.pillz - total1) &&
      (total2 <= b.p2.pillz ==> r.p2.pillz == b.p2.pillz - total2)
  {
  }

  function Min(x: int, y: int): int
  {
    if x < y then x else y
  }

  /** A damage of at least the loser's life leaves it at exactly zero. */
  lemma KnockOut(b: Board, i1: CardIndex, i2: CardIndex, first: Side, total1: U8, total2: U8)
    requires FirstWins(b.h1.cards[i1], b.h2.cards[i2], first)
    requires b.h1.cards[i1].damage.value >= b.p2.life
    ensures Resolve(b, i1, i2, first, total1, total2).p2.life == 0
  {
  }

  /** Paying more pillz than held wraps around: two pillz minus a cost of
      three leaves 255. */
  lemma PillzUnderflow(b: Board, i1: CardIndex, i2: CardIndex, first: Side, total2: U8)
    requires b.p1.pillz == 2
    ensures Resolve(b, i1, i2, first, 3, total2).p1.pillz == 255
  {
  }

  /** Marking both chosen cards as played. */
  function MarkPlayed(b: Board, i1: CardIndex, i2: CardIndex): (r: Board)
    ensures r.h1.cards[i1].played && r.h2.cards[i2].played
    ensures r.p1 == b.p1 && r.p2 == b.p2
  {
    b.(h1 := b.h1.(cards := b.h1.cards[i1 := b.h1.cards[i1].(played := true)]),
       h2 := b.h2.(cards := b.h2.cards[i2 := b.h2.cards[i2].(played := true)]))
  }

  /** The POST phases on both sides: all of the first player's, then all of
      the second player's. */
  function PostBoth(a: Arena, d1: BattleData, d2: BattleData, cat: Catalog): Arena
  {
    var r1 := ExecuteAll(a.q1, PostPhases, d1, a.b, cat, 4);
    var r2 := ExecuteAll(a.q2, PostPhases, d2, r1.1, cat, 4);
    Arena(r1.0, r2.0, r2.1)
  }

  /** The END phase on both sides, which also empties the per-round
      buckets. */
  function EndBoth(a: Arena, d1: BattleData, d2: BattleData, cat: Catalog): (r: Arena)
    ensures r.q1.events == EmptyBuckets && r.q2.events == EmptyBuckets
  {
    var r1 := ExecuteEndF(a.q1, d1, a.b, cat);
    var r2 := ExecuteEndF(a.q2, d2, r1.1, cat);
    Arena(r1.0, r2.0, r2.1)
  }

  /** The phases, the strike and the outcome of a battle, on both sides'
      queues and the board, ending with both chosen cards marked played. */
  function FightF(g: GameState, cat: Catalog): (r: Arena)
    requires BattleReady(g)
    ensures r.q1.events == EmptyBuckets && r.q2.events == EmptyBuckets
    ensures r.b.h1.cards[g.s1.value.index].played && r.b.h2.cards[g.s2.value.index].played
  {
    var d1 := Data1(g);
    var d2 := Data2(g);
    var i1 := g.s1.value.index;
    var i2 := g.s2.value.index;
    var a1 := PrePhases(g, cat);
    var a2 := PostBoth(a1.(b := Strike(a1.b, i1, i2, g.s1.value, g.s2.value)), d1, d2, cat);
    var a3 := EndBoth(a2.(b := Resolve(a2.b, i1, i2, FirstTurnF(g), Cost(g.s1.value), Cost(g.s2.value))), d1, d2, cat);
    a3.(b := MarkPlayed(a3.b, i1, i2))
  }

  /** One full battle round: the fight, then the round advances. */
  function BattleF(g: GameState, cat: Catalog): (r: GameState)
    requires BattleReady(g)
    ensures r.round == Wrap8(g.round + 1) && r.flip == g.flip && r.s1 == g.s1 && r.s2 == g.s2
  {
    AfterFight(g, FightF(g, cat))
  }

  /** After a battle both chosen cards are played and no per-round ability
      is left queued. */
  lemma BattleMarksPlayed(g: GameState, cat: Catalog)
    requires BattleReady(g)
    ensures var r := BattleF(g, cat);
      r.board.h1.cards[g.s1.value.index].played && r.board.h2.cards[g.s2.value.index].played &&
      r.q1.events == EmptyBuckets && r.q2.events == EmptyBuckets
  {
    var a := FightF(g, cat);
    assert BattleF(g, cat) == AfterFight(g, a);
  }

  /** The game after a fight: the fight's board and queues, the round
      advanced. */
  function AfterFight(g: GameState, a: Arena): (r: GameState)
    ensures r.round == Wrap8(g.round + 1) && r.flip == g.flip && r.s1 == g.s1 && r.s2 == g.s2
    ensures r.board == a.b && r.q1 == a.q1 && r.q2 == a.q2
  {
    GameState(Wrap8(g.round + 1), a.b, g.s1, g.s2, a.q1, a.q2, g.flip)
  }

  /** Queueing the chosen cards keeps both sides' queues well formed. */
  lemma AddCardsKeepQueues(a: Arena, d1: BattleData, d2: BattleData, cat: Catalog)
    requires WellFormed(a.q1) && WellFormed(a.q2)
    ensures WellFormed(AddCards(a, d1, d2, cat).q1) && WellFormed(AddCards(a, d1, d2, cat).q2)
  {
    var c1 := a.b.h1.cards[d1.card];
    var c2 := a.b.h2.cards[d2.card];
    AddPlaces(a.q1, cat.ability(c1.abilityId));
    AddPlaces(AddF(a.q1, cat.ability(c1.abilityId)), cat.ability(c1.bonusId));
    AddPlaces(a.q2, cat.ability(c2.abilityId));
    AddPlaces(AddF(a.q2, cat.ability(c2.abilityId)), cat.ability(c2.bonusId));
  }

  /** Both sides' queues are well formed. */
  predicate ArenaWellFormed(a: Arena)
  {
    WellFormed(a.q1) && WellFormed(a.q2)
  }

  /** Phases on both sides keep both sides' queues well formed. */
  lemma {:induction false} ExecPhasesKeepQueues(a: Arena, phases: seq<EventTime>, d1: BattleData, d2: BattleData, cat: Catalog, n: nat)
    requires n <= |phases| && ArenaWellFormed(a)
    ensures ArenaWellFormed(ExecPhases(a, phases, d1, d2, cat, n))
  {
    if n != 0 {
      ExecPhasesKeepQueues(a, phases, d1, d2, cat, n - 1);
      var prev := ExecPhases(a, phases, d1, d2, cat, n - 1);
      ExecBothKeepsQueues(prev, phases[n - 1], d1, d2, cat);
      assert ExecPhases(a, phases, d1, d2, cat, n) == ExecBoth(prev, phases[n - 1], d1, d2, cat);
    }
  }

  /** One phase on both sides keeps both sides' queues well formed. */
  lemma ExecBothKeepsQueues(a: Arena, e: EventTime, d1: BattleData, d2: BattleData, cat: Catalog)
    requires ArenaWellFormed(a)
    ensures ArenaWellFormed(ExecBoth(a, e, d1, d2, cat))
  {
    var r1 := ExecuteF(a.q1, e, d1, a.b, cat);
    ExecuteKeepsWellFormed(a.q1, e, d1, a.b, cat);
    ExecuteKeepsWellFormed(a.q2, e, d2, r1.1, cat);
  }

  /** Everything before the strike keeps both sides' queues well formed. */
  lemma PrePhasesKeepQueues(g: GameState, cat: Catalog)
    requires BattleReady(g) && WellFormed(g.q1) && WellFormed(g.q2)
    ensures WellFormed(PrePhases(g, cat).q1) && WellFormed(PrePhases(g, cat).q2)
  {
    var d1 := Data1(g);
    var d2 := Data2(g);
    var a := Arena(g.q1, g.q2, g.board.(p1 := Snapshot(g.board.p1), p2 := Snapshot(g.board.p2)));
    AddCardsKeepQueues(a, d1, d2, cat);
    var a0 := AddCards(a, d1, d2, cat);
    ExecPhasesKeepQueues(a0, [Start, Pre4], d1, d2, cat, 2);
    var a1 := ExecPhases(a0, [Start, Pre4], d1, d2, cat, 2);
    CancelRoundsKeepQueues(a1, d1, d2, 3);
    ExecPhasesKeepQueues(CancelRounds(a1, d1, d2, 3), [Pre3, Pre2, Pre1], d1, d2, cat, 3);
  }

  /** Battles keep both sides' queues well formed. */
  lemma BattleKeepsQueues(g: GameState, cat: Catalog)
    requires BattleReady(g) && WellFormed(g.q1) && WellFormed(g.q2)
    ensures WellFormed(BattleF(g, cat).q1) && WellFormed(BattleF(g, cat).q2)
  {
    var d1 := Data1(g);
    var d2 := Data2(g);
    var i1 := g.s1.value.index;
    var i2 := g.s2.value.index;
    PrePhasesKeepQueues(g, cat);
    var a1 := PrePhases(g, cat);
    var a1' := a1.(b := Strike(a1.b, i1, i2, g.s1.value, g.s2.value));
    var r1 := ExecuteAll(a1'.q1, PostPhases, d1, a1'.b, cat, 4);
    ExecuteAllKeepsWellFormed(a1'.q1, PostPhases, d1, a1'.b, cat, 4);
    ExecuteAllKeepsWellFormed(a1'.q2, PostPhases, d2, r1.1, cat, 4);
    var a2 := PostBoth(a1', d1, d2, cat);
    var a2' := a2.(b := Resolve(a2.b, i1, i2, FirstTurnF(g), Cost(g.s1.value), Cost(g.s2.value)));
    var e1 := ExecuteEndF(a2'.q1, d1, a2'.b, cat);
    ExecuteEndKeepsWellFormed(a2'.q1, d1, a2'.b, cat);
    ExecuteEndKeepsWellFormed(a2'.q2, d2, e1.1, cat);
  }

  lemma {:induction false} CancelRoundsKeepQueues(a: Arena, d1: BattleData, d2: BattleData, n: nat)
    requires WellFormed(a.q1) && WellFormed(a.q2)
    ensures WellFormed(CancelRounds(a, d1, d2, n).q1) && WellFormed(CancelRounds(a, d1, d2, n).q2)
    decreases n
  {
    if n > 0 {
      var k := EventTime.Pre4.Index();
      var b1 := CheckCancelsF(a.q1.events[k], d1, a.b, |a.q1.events[k]|).1;
      CheckCancelsPlaced(a.q1, d1, a.b);
      CheckCancelsPlaced(a.q2, d2, b1);
      CancelRoundsKeepQueues(CancelPass(a, d1, d2).0, d1, d2, n - 1);
    }
  }

  // ---------------------------------------------------------------------
  // Selecting
  // ---------------------------------------------------------------------

  /** Every stored selection names a card of the hand. */
  predicate SelectionsInRange(g: GameState)
  {
    (g.s1.Some? ==> g.s1.value.index < 4) && (g.s2.Some? ==> g.s2.value.index < 4)
  }

  /** Committing a selection for the side to move: the first commit of a
      round is stored in the mover's slot; once the first mover has
      committed, the other side's commit fights the round, which advances the
      round and clears both slots. */
  function SelectF(g: GameState, s: Selection, cat: Catalog): (r: (GameState, bool))
    requires SelectionsInRange(g) && s.index < 4
    ensures r.1 <==> (if FirstTurnF(g) == P1 then g.s1.Some? else g.s2.Some?)
    ensures !r.1 ==> r.0 == (if TurnF(g) == P1 then g.(s1 := Some(s)) else g.(s2 := Some(s)))
    ensures r.1 ==> r.0.s1.None? && r.0.s2.None? && r.0.round == Wrap8(g.round + 1)
  {
    if g.round % 2 == g.flip then
      if g.s1.Some? then (BattleF(g.(s2 := Some(s)), cat).(s1 := None, s2 := None), true)
      else (g.(s1 := Some(s)), false)
    else
      if g.s2.Some? then (BattleF(g.(s1 := Some(s)), cat).(s1 := None, s2 := None), true)
      else (g.(s2 := Some(s)), false)
  }

  /** A first commit makes the game wait for the other side. */
  lemma FirstCommitPends(g: GameState, s: Selection, cat: Catalog)
    requires SelectionsInRange(g) && s.index < 4 && g.s1.None? && g.s2.None?
    ensures !SelectF(g, s, cat).1 && Pending(SelectF(g, s, cat).0)
    ensures StatusF(SelectF(g, s, cat).0) == Playing
  {
  }

  /** A side's queues at the start of a game: empty but for the leader
      ability (if the hand has exactly one leader), queued as a global.
      Queueing a leader ability without a modifier is the panic (`None`). */
  function LeaderQueues(h: Hand, cat: Catalog): (r: Option<Queues>)
    ensures r.None? <==> !LeaderReady(h, cat)
    ensures r.Some? ==> WellFormed(r.value) && r.value.events == EmptyBuckets
    ensures GetLeader(h, cat.card).None? ==> r == Some(EmptyQueues)
  {
    match GetLeader(h, cat.card)
    case None => Some(EmptyQueues)
    case Some(leader) =>
      AddGlobalPlaces(EmptyQueues, cat.ability(leader.abilityId));
      AddGlobalF(EmptyQueues, cat.ability(leader.abilityId))
  }

  /** A hand's leader ability, if any, has a modifier to take its phase from. */
  predicate LeaderReady(h: Hand, cat: Catalog)
  {
    GetLeader(h, cat.card).Some? ==> |cat.ability(GetLeader(h, cat.card).value.abilityId).modifiers| > 0
  }

  /** The new game: round 0, fresh players, no selection, each side's
      leader queued, and the game in play; the panic (`None`) when a
      leader ability has no modifier. */
  function NewGameF(h1: Hand, h2: Hand, cat: Catalog): (r: Option<GameState>)
    ensures r.None? <==> !LeaderReady(h1, cat) || !LeaderReady(h2, cat)
    ensures r.Some? ==> var g := r.value;
      WellFormed(g.q1) && WellFormed(g.q2) && g.s1.None? && g.s2.None? && g.round == 0 && g.flip == 0 &&
      g.board == Board(NewPlayer, NewPlayer, h1, h2) && StatusF(g) == Playing
  {
    match (LeaderQueues(h1, cat), LeaderQueues(h2, cat))
    case (Some(q1), Some(q2)) => Some(GameState(0, Board(NewPlayer, NewPlayer, h1, h2), None, None, q1, q2, 0))
    case _ => None
  }

  /** The game, updated in place. */
  class Game {
    var round: U8
    var p1: Player
    var p2: Player
    var h1: Hand
    var h2: Hand
    var s1: Option<Selection>
    var s2: Option<Selection>
    var events1: Events
    var events2: Events
    var flip: U8

    ghost predicate Valid()
      reads this
    {
      events1 != events2
    }

    function State(): GameState
      reads this, events1, events2
    {
      GameState(round, Board(p1, p2, h1, h2), s1, s2, events1.State(), events2.State(), flip)
    }

    /** A game at round 0 with fresh players holding the two hands, no
        selection and the two given queues. */
    constructor Assemble(h1: Hand, h2: Hand, e1: Events, e2: Events)
      requires e1 != e2
      ensures Valid() && events1 == e1 && events2 == e2
      ensures round == 0 && flip == 0 && p1 == NewPlayer && p2 == NewPlayer
      ensures this.h1 == h1 && this.h2 == h2 && s1.None? && s2.None?
    {
      round := 0;
      p1 := NewPlayer;
      p2 := NewPlayer;
      this.h1 := h1;
      this.h2 := h2;
      s1 := None;
      s2 := None;
      events1 := e1;
      events2 := e2;
      flip := 0;
    }

    /** A new game with each side's leader queued as a global; `None` is
        the panic on a leader ability without a modifier. */
    static method New(h1: Hand, h2: Hand, cat: Catalog) returns (g: Option<Game>)
      ensures g.None? <==> NewGameF(h1, h2, cat).None?
      ensures g.Some? ==> fresh(g.value) && fresh(g.value.events1) && fresh(g.value.events2) && g.value.Valid()
      ensures g.Some? ==> g.value.State() == NewGameF(h1, h2, cat).value
    {
      var e1 := new Events.Default();
      var e2 := new Events.Default();
      var leader1 := GetLeader(h1, cat.card);
      if leader1.Some? {
        var panicked := e1.AddGlobal(cat.ability(leader1.value.abilityId));
        if panicked {
          return None;
        }
      }
      var leader2 := GetLeader(h2, cat.card);
      if leader2.Some? {
        var panicked := e2.AddGlobal(cat.ability(leader2.value.abilityId));
        if panicked {
          return None;
        }
      }
      var game := new Game.Assemble(h1, h2, e1, e2);
      g := Some(game);
    }

    /** One phase on both sides. */
    method ExecBothM(e: EventTime, d1: BattleData, d2: BattleData, b: Board, cat: Catalog) returns (b': Board)
      requires Valid()
      modifies events1, events2
      ensures Arena(events1.State(), events2.State(), b') ==
        ExecBoth(Arena(old(events1.State()), old(events2.State()), b), e, d1, d2, cat)
    {
      var b1 := events1.Execute(e, d1, b, cat);
      b' := events2.Execute(e, d2, b1, cat);
    }

    /** Up to three passes of cancel re-checks. */
    method CancelRoundsM(d1: BattleData, d2: BattleData, b: Board) returns (b': Board)
      requires Valid()
      modifies events1, events2
      ensures Arena(events1.State(), events2.State(), b') ==
        CancelRounds(Arena(old(events1.State()), old(events2.State()), b), d1, d2, 3)
    {
      b' := b;
      var i := 0;
      while i < 3
        invariant 0 <= i <= 3
        invariant CancelRounds(Arena(events1.State(), events2.State(), b'), d1, d2, 3 - i) ==
          CancelRounds(Arena(old(events1.State()), old(events2.State()), b), d1, d2, 3)
      {
        var changed1, changed2;
        changed1, b' := events1.CheckCancels(d1, b');
        changed2, b' := events2.CheckCancels(d2, b');
        if !changed1 && !changed2 {
          break;
        }
        i := i + 1;
      }
    }

    /** Snapshot, queueing, START and PRE4. */
    method EarlyPhasesM(d1: BattleData, d2: BattleData, cat: Catalog) returns (b: Board)
      requires Valid() && BattleReady(State()) && d1 == Data1(State()) && d2 == Data2(State())
      modifies events1, events2
      ensures Arena(events1.State(), events2.State(), b) == EarlyPhases(old(State()), cat)
    {
      b := Board(Snapshot(p1), Snapshot(p2), h1, h2);
      var c1 := b.h1.cards[d1.card];
      var c2 := b.h2.cards[d2.card];
      events1.Add(cat.ability(c1.abilityId));
      events2.Add(cat.ability(c2.abilityId));
      events1.Add(cat.ability(c1.bonusId));
      events2.Add(cat.ability(c2.bonusId));
      ghost var a0 := Arena(events1.State(), events2.State(), b);
      b := ExecBothM(Start, d1, d2, b, cat);
      assert Arena(events1.State(), events2.State(), b) == ExecPhases(a0, [Start, Pre4], d1, d2, cat, 1);
      b := ExecBothM(Pre4, d1, d2, b, cat);
    }

    /** PRE3, PRE2 and PRE1. */
    method LatePhasesM(d1: BattleData, d2: BattleData, b: Board, cat: Catalog) returns (b': Board)
      requires Valid()
      modifies events1, events2
      ensures Arena(events1.State(), events2.State(), b') ==
        LatePhases(Arena(old(events1.State()), old(events2.State()), b), d1, d2, cat)
    {
      ghost var a := Arena(events1.State(), events2.State(), b);
      ghost var phases := [Pre3, Pre2, Pre1];
      b' := ExecBothM(Pre3, d1, d2, b, cat);
      assert Arena(events1.State(), events2.State(), b') == ExecPhases(a, phases, d1, d2, cat, 1);
      b' := ExecBothM(Pre2, d1, d2, b', cat);
      assert Arena(events1.State(), events2.State(), b') == ExecPhases(a, phases, d1, d2, cat, 2);
      b' := ExecBothM(Pre1, d1, d2, b', cat);
    }

    /** Everything before the strike. */
    method PrePhasesM(d1: BattleData, d2: BattleData, cat: Catalog) returns (b: Board)
      requires Valid() && BattleReady(State()) && d1 == Data1(State()) && d2 == Data2(State())
      modifies events1, events2
      ensures Arena(events1.State(), events2.State(), b) == PrePhases(old(State()), cat)
    {
      b := EarlyPhasesM(d1, d2, cat);
      b := CancelRoundsM(d1, d2, b);
      b := LatePhasesM(d1, d2, b, cat);
    }

    /** The POST phases on both sides. */
    method PostM(d1: BattleData, d2: BattleData, b: Board, cat: Catalog) returns (b': Board)
      requires Valid()
      modifies events1, events2
      ensures Arena(events1.State(), events2.State(), b') ==
        PostBoth(Arena(old(events1.State()), old(events2.State()), b), d1, d2, cat)
    {
      b' := events1.ExecutePost(d1, b, cat);
      b' := events2.ExecutePost(d2, b', cat);
    }

    /** The END phase on both sides. */
    method EndM(d1: BattleData, d2: BattleData, b: Board, cat: Catalog) returns (b': Board)
      requires Valid()
      modifies events1, events2
      ensures Arena(events1.State(), events2.State(), b') ==
        EndBoth(Arena(old(events1.State()), old(events2.State()), b), d1, d2, cat)
    {
      b' := events1.ExecuteEnd(d1, b, cat);
      b' := events2.ExecuteEnd(d2, b', cat);
    }

    /** The phases, the strike and the outcome, on the queues; returns the
        board with both chosen cards played. */
    method Fight(ghost g: GameState, cat: Catalog) returns (b: Board)
      requires Valid() && g == State() && BattleReady(g)
      modifies events1, events2
      ensures Arena(events1.State(), events2.State(), b) == FightF(g, cat)
    {
      var sel1 := s1.value;
      var sel2 := s2.value;
      var d1 := Data1(State());
      var d2 := Data2(State());
      var first := FirstTurnF(State());
      b := PrePhasesM(d1, d2, cat);
      b := Strike(b, sel1.index, sel2.index, sel1, sel2);
      b := PostM(d1, d2, b, cat);
      b := Resolve(b, sel1.index, sel2.index, first, Cost(sel1), Cost(sel2));
      b := EndM(d1, d2, b, cat);
      b := MarkPlayed(b, sel1.index, sel2.index);
    }

    /** One full battle round, updating the game in place. */
    method Battle(cat: Catalog)
      requires Valid() && BattleReady(State())
      modifies this, events1, events2
      ensures events1 == old(events1) && events2 == old(events2) && Valid()
      ensures State() == BattleF(old(State()), cat)
    {
      ghost var g := State();
      var b := Fight(g, cat);
      Commit(g, FightF(g, cat), b);
    }

    /** Stores the board after a battle and advances the round. */
    method Commit(ghost g: GameState, ghost a: Arena, b: Board)
      requires Valid() && g.round == round && g.flip == flip && g.s1 == s1 && g.s2 == s2
      requires events1.State() == a.q1 && events2.State() == a.q2 && b == a.b
      modifies this
      ensures events1 == old(events1) && events2 == old(events2) && Valid()
      ensures State() == AfterFight(g, a)
    {
      p1, p2, h1, h2 := b.p1, b.p2, b.h1, b.h2;
      round := Wrap8(round + 1);
    }

    /** Commits a selection for the side to move; returns whether a battle
        was fought. */
    method Select(index: Usize, pillz: U8, fury: bool, cat: Catalog) returns (battled: bool)
      requires Valid() && SelectionsInRange(State()) && index < 4
      modifies this, events1, events2
      ensures events1 == old(events1) && events2 == old(events2) && Valid()
      ensures (State(), battled) == SelectF(old(State()), Selection(index, pillz, fury), cat)
    {
      var s := Some(Selection(index, pillz, fury));
      if round % 2 == flip {
        if s1.Some? {
          s2 := s;
          Battle(cat);
          s1 := None;
          s2 := None;
          battled := true;
        } else {
          s1 := s;
          battled := false;
        }
      } else {
        if s2.Some? {
          s1 := s;
          Battle(cat);
          s1 := None;
          s2 := None;
          battled := true;
        } else {
          s2 := s;
          battled := false;
        }
      }
    }

    /** Forgets both pending selections. */
    method ClearSelection()
      modifies this
      ensures State() == old(State()).(s1 := None, s2 := None)
    {
      s1 := None;
      s2 := None;
    }
  }
}
