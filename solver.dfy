// The exhaustive search: the precomputed move-range tables, the early-exit
// search for the side that moves first in a round, the worst-case search for
// the side that answers a hidden commit, and the dispatch between them.

module Solver {
  import opened Types
  import opened Cards
  import opened Board
  import opened Effects
  import opened Game
  import G = Game

  // ---------------------------------------------------------------------
  // Move-range tables
  // ---------------------------------------------------------------------

  /** A pillz amount and whether fury is added. */
  type Move = (U8, bool)

  /** The tables have one row per pool size below 32. */
  const N: nat := 32

  /** `(0, false), …, (k - 1, false)`. */
  function Plain(k: nat): (r: seq<Move>)
    requires k <= 256
    ensures |r| == k && forall i :: 0 <= i < k ==> r[i] == (i as U8, false)
  {
    seq(k, i requires 0 <= i < k => (i as U8, false))
  }

  /** `(0, true), …, (k - 1, true)`. */
  function Fury(k: nat): (r: seq<Move>)
    requires k <= 256
    ensures |r| == k && forall i :: 0 <= i < k ==> r[i] == (i as U8, true)
  {
    seq(k, i requires 0 <= i < k => (i as U8, true))
  }

  /** Row `n` of the split table: every plain amount up to `n`, then every
      amount that leaves room for the fury surcharge. */
  function SplitRow(n: nat): seq<Move>
    requires n < N
  {
    Plain(n + 1) + (if n >= 3 then Fury(n - 2) else [])
  }

  /** Row `n` of the split-shift table: the whole pool first, then the plain
      amounts from `n - 3` down, then the fury amounts. */
  function SplitShiftRow(n: nat): seq<Move>
    requires n < N
  {
    if n < 3 then [(n as U8, false)] + Plain(n)
    else [(n as U8, false), ((n - 3) as U8, false)] + Plain(n - 3)
         + [((n - 2) as U8, false), ((n - 1) as U8, false), ((n - 3) as U8, true)] + Fury(n - 3)
  }

  /** Row `n` of the shift-false table: the whole pool first, then every
      smaller plain amount. */
  function ShiftFalseRow(n: nat): seq<Move>
    requires n < N
  {
    [(n as U8, false)] + Plain(n)
  }

  /** A move is in the split row of `n` exactly when it spends at most `n`,
      fury surcharge included. */
  predicate Affordable(n: nat, m: Move)
  {
    m.0 <= n && (m.1 ==> m.0 + 3 <= n)
  }

  /** No move appears twice. */
  predicate Distinct(s: seq<Move>)
  {
    forall i, j :: 0 <= i < j < |s| ==> s[i] != s[j]
  }

  /** The split row holds exactly the affordable moves, each once. */
  lemma SplitRowMembers(n: nat)
    requires n < N
    ensures forall m :: m in SplitRow(n) <==> Affordable(n, m)
    ensures Distinct(SplitRow(n))
  {
    var r := SplitRow(n);
    forall m: Move | Affordable(n, m)
      ensures m in r
    {
      if m.1 {
        assert r[n + 1 + m.0] == m;
      } else {
        assert r[m.0] == m;
      }
    }
  }

  /** The split-shift row starts with the whole pool and holds exactly the
      affordable moves, each once. */
  lemma SplitShiftRowMembers(n: nat)
    requires n < N
    ensures SplitShiftRow(n)[0] == (n as U8, false)
    ensures forall m :: m in SplitShiftRow(n) <==> Affordable(n, m)
    ensures Distinct(SplitShiftRow(n))
  {
    var r := SplitShiftRow(n);
    if n < 3 {
      forall m: Move | Affordable(n, m)
        ensures m in r
      {
        if m.0 < n {
          assert r[1 + m.0] == m;
        }
      }
    } else {
      SplitShiftRowHolds(n);
      SplitShiftRowAffordable(n);
      SplitShiftRowDistinct(n);
    }
  }

  /** Where each move sits in a split-shift row of a pool of three or more:
      the whole pool, the pool less three, the plain moves below it, the two
      plain moves just under the pool, then the fury moves. */
  lemma SplitShiftRowAt(n: nat, k: nat)
    requires 3 <= n < N && k < |SplitShiftRow(n)|
    ensures |SplitShiftRow(n)| == 2 * n - 1
    ensures SplitShiftRow(n)[k] ==
      if k == 0 then (n as U8, false)
      else if k == 1 then ((n - 3) as U8, false)
      else if k < n - 1 then ((k - 2) as U8, false)
      else if k == n - 1 then ((n - 2) as U8, false)
      else if k == n then ((n - 1) as U8, false)
      else if k == n + 1 then ((n - 3) as U8, true)
      else ((k - n - 2) as U8, true)
  {
  }

  /** Every affordable move is in the split-shift row. */
  lemma SplitShiftRowHolds(n: nat)
    requires 3 <= n < N
    ensures forall m :: Affordable(n, m) ==> m in SplitShiftRow(n)
  {
    var r := SplitShiftRow(n);
    forall m: Move | Affordable(n, m)
      ensures m in r
    {
      var k := if m.1 then (if m.0 < n - 3 then n + 2 + m.0 else n + 1)
        else if m.0 < n - 3 then 2 + m.0
        else if m.0 == n - 3 then 1
        else if m.0 == n - 2 then n - 1
        else if m.0 == n - 1 then n
        else 0;
      SplitShiftRowAt(n, k as nat);
    }
  }

  /** Every move of the split-shift row is affordable. */
  lemma SplitShiftRowAffordable(n: nat)
    requires 3 <= n < N
    ensures forall m :: m in SplitShiftRow(n) ==> Affordable(n, m)
  {
    var r := SplitShiftRow(n);
    forall m | m in r
      ensures Affordable(n, m)
    {
      var k :| 0 <= k < |r| && r[k] == m;
      SplitShiftRowAt(n, k);
    }
  }

  /** No move of the split-shift row appears twice. */
  lemma SplitShiftRowDistinct(n: nat)
    requires 3 <= n < N
    ensures Distinct(SplitShiftRow(n))
  {
    var r := SplitShiftRow(n);
    forall i, j | 0 <= i < j < |r|
      ensures r[i] != r[j]
    {
      SplitShiftRowAt(n, i);
      SplitShiftRowAt(n, j);
    }
  }

  /** In a repeat-free sequence every member occurs once. */
  lemma {:induction false} DistinctOnce(s: seq<Move>, m: Move)
    requires Distinct(s)
    ensures multiset(s)[m] == if m in s then 1 else 0
  {
    if |s| > 0 {
      var t := s[..|s| - 1];
      assert s == t + [s[|s| - 1]];
      assert Distinct(t);
      DistinctOnce(t, m);
      if m == s[|s| - 1] {
        assert m !in t;
      }
    }
  }

  /** Two repeat-free sequences with the same members are reorderings of
      each other. */
  lemma SameMembersReorder(a: seq<Move>, b: seq<Move>)
    requires Distinct(a) && Distinct(b)
    requires forall m :: m in a <==> m in b
    ensures multiset(a) == multiset(b)
  {
    forall m
      ensures multiset(a)[m] == multiset(b)[m]
    {
      DistinctOnce(a, m);
      DistinctOnce(b, m);
    }
  }

  /** The split-shift row is a reordering of the split row that tries the
      whole pool first. */
  lemma SplitShiftReordersSplit(n: nat)
    requires n < N
    ensures SplitShiftRow(n)[0] == (n as U8, false)
    ensures multiset(SplitShiftRow(n)) == multiset(SplitRow(n))
  {
    SplitRowMembers(n);
    SplitShiftRowMembers(n);
    SameMembersReorder(SplitShiftRow(n), SplitRow(n));
  }

  /** The shift-false row is a repeat-free reordering of the plain amounts
      `0..=n`, the whole pool first, with no fury move. */
  lemma ShiftFalseRowMembers(n: nat)
    requires n < N
    ensures ShiftFalseRow(n)[0] == (n as U8, false)
    ensures Distinct(ShiftFalseRow(n))
    ensures multiset(ShiftFalseRow(n)) == multiset(Plain(n + 1))
    ensures forall m :: m in ShiftFalseRow(n) ==> !m.1
  {
    var r := ShiftFalseRow(n);
    var p := Plain(n + 1);
    forall i, j | 0 <= i < j < |r|
      ensures r[i] != r[j]
    {
    }
    forall m | m in p
      ensures m in r
    {
      if m.0 < n {
        assert r[1 + m.0] == m;
      }
    }
    forall k | 0 <= k < |r|
      ensures r[k] in p
    {
      if k == 0 {
        assert p[n] == r[k];
      } else {
        assert p[k - 1] == r[k];
      }
    }
    SameMembersReorder(r, p);
  }

  // The tables are built once, row by row, by pushing moves.

  /** Builds the split table. */
  method BuildSplitRanges() returns (ranges: seq<seq<Move>>)
    ensures |ranges| == N && forall n :: 0 <= n < N ==> ranges[n] == SplitRow(n)
  {
    ranges := [];
    for n := 0 to N
      invariant |ranges| == n && forall m :: 0 <= m < n ==> ranges[m] == SplitRow(m)
    {
      var range := BuildSplitRow(n);
      ranges := ranges + [range];
    }
  }

  /** One row of the split table. */
  method BuildSplitRow(n: nat) returns (range: seq<Move>)
    requires n < N
    ensures range == SplitRow(n)
  {
    range := [];
    for i := 0 to n + 1
      invariant range == Plain(i)
    {
      range := range + [(i as U8, false)];
    }
    if n >= 3 {
      for i := 0 to n - 2
        invariant range == Plain(n + 1) + Fury(i)
      {
        range := range + [(i as U8, true)];
      }
    }
  }

  /** Builds the split-shift table. */
  method BuildSplitShiftRanges() returns (ranges: seq<seq<Move>>)
    ensures |ranges| == N && forall n :: 0 <= n < N ==> ranges[n] == SplitShiftRow(n)
  {
    ranges := [];
    for n := 0 to N
      invariant |ranges| == n && forall m :: 0 <= m < n ==> ranges[m] == SplitShiftRow(m)
    {
      var range := BuildSplitShiftRow(n);
      ranges := ranges + [range];
    }
  }

  /** One row of the split-shift table. */
  method BuildSplitShiftRow(n: nat) returns (range: seq<Move>)
    requires n < N
    ensures range == SplitShiftRow(n)
  {
    range := [(n as U8, false)];
    if n < 3 {
      for i := 0 to n
        invariant range == [(n as U8, false)] + Plain(i)
      {
        range := range + [(i as U8, false)];
      }
    } else {
      range := range + [((n - 3) as U8, false)];
      ghost var head := range;
      for i := 0 to n - 3
        invariant range == head + Plain(i)
      {
        range := range + [(i as U8, false)];
      }
      range := range + [((n - 2) as U8, false)];
      range := range + [((n - 1) as U8, false)];
      range := range + [((n - 3) as U8, true)];
      ghost var middle := range;
      for i := 0 to n - 3
        invariant range == middle + Fury(i)
      {
        range := range + [(i as U8, true)];
      }
    }
  }

  /** Builds the shift-false table. */
  method BuildShiftFalseRanges() returns (ranges: seq<seq<Move>>)
    ensures |ranges| == N && forall n :: 0 <= n < N ==> ranges[n] == ShiftFalseRow(n)
  {
    ranges := [];
    for n := 0 to N
      invariant |ranges| == n && forall m :: 0 <= m < n ==> ranges[m] == ShiftFalseRow(m)
    {
      var range := BuildShiftFalseRow(n);
      ranges := ranges + [range];
    }
  }

  /** One row of the shift-false table. */
  method BuildShiftFalseRow(n: nat) returns (range: seq<Move>)
    requires n < N
    ensures range == ShiftFalseRow(n)
  {
    range := [(n as U8, false)];
    if n < 3 {
      for i := 0 to n
        invariant range == [(n as U8, false)] + Plain(i)
      {
        range := range + [(i as U8, false)];
      }
    } else {
      for i := 0 to n - 2
        invariant range == [(n as U8, false)] + Plain(i)
      {
        range := range + [(i as U8, false)];
      }
      range := range + [((n - 2) as U8, false)];
      range := range + [((n - 1) as U8, false)];
      assert range == [(n as U8, false)] + Plain(n);
    }
  }

  // Table lookups: indexing a row past the table panics (`None`).

  /** `split_range(n)`. */
  function SplitRange(n: U8): (r: Option<seq<Move>>)
    ensures r.Some? <==> n < N
    ensures r.Some? ==> forall m :: m in r.value <==> Affordable(n, m)
  {
    if n < N then SplitRowMembers(n); Some(SplitRow(n)) else None
  }

  /** `split_shift_range(n)`. */
  function SplitShiftRange(n: U8): (r: Option<seq<Move>>)
    ensures r.Some? <==> n < N
    ensures r.Some? ==> |r.value| > 0 && r.value[0] == (n, false) && forall m :: m in r.value <==> Affordable(n, m)
  {
    if n < N then SplitShiftRowMembers(n); Some(SplitShiftRow(n)) else None
  }

  /** `shift_false_range(n, round)`: plain moves only in round 0, the
      split-shift row afterwards. */
  function ShiftFalseRange(n: U8, round: U8): (r: Option<seq<Move>>)
    ensures r.Some? <==> n < N
    ensures r.Some? && round == 0 ==> forall m :: m in r.value <==> m.0 <= n && !m.1
    ensures round > 0 ==> r == SplitShiftRange(n)
  {
    if n >= N then None
    else if round == 0 then
      ShiftFalseRowMembers(n);
      assert forall m :: m in Plain(n + 1) <==> m.0 <= n && !m.1 by {
        forall m: Move | m.0 <= n && !m.1
          ensures m in Plain(n + 1)
        {
          assert Plain(n + 1)[m.0] == m;
        }
      }
      assert forall m :: m in ShiftFalseRow(n) <==> m in multiset(Plain(n + 1));
      Some(ShiftFalseRow(n))
    else SplitShiftRange(n)
  }

  // ---------------------------------------------------------------------
  // Search state
  // ---------------------------------------------------------------------

  /** The result of a game for the side to move. */
  datatype GameResult = Win | Draw | Lose

  /** A recommended selection, tagged by who wins (or a draw) when both
      sides play it out perfectly. */
  datatype SelectionResult =
    | PlayerResult(selection: Selection)
    | DrawResult(selection: Selection)
    | OpponentResult(selection: Selection)

  /** The selection a result carries, whatever its tag. */
  function SelectionOf(r: SelectionResult): (s: Selection)
    ensures r == PlayerResult(s) || r == DrawResult(s) || r == OpponentResult(s)
  {
    match r
    case PlayerResult(s) => s
    case DrawResult(s) => s
    case OpponentResult(s) => s
  }

  /** The player whose turn it is, and the other one. */
  function TurnPlayer(g: GameState): Player
  {
    if TurnF(g) == P1 then g.board.p1 else g.board.p2
  }

  function TurnOpponent(g: GameState): Player
  {
    if TurnF(g) == P1 then g.board.p2 else g.board.p1
  }

  /** The hand of the side to move, and the other hand. */
  function TurnHand(g: GameState): Hand
  {
    if TurnF(g) == P1 then g.board.h1 else g.board.h2
  }

  function TurnOpponentHand(g: GameState): Hand
  {
    if TurnF(g) == P1 then g.board.h2 else g.board.h1
  }

  /** Tagging a selection with a result for `turn`. */
  function Verdict(k: GameResult, turn: Side, s: Selection): (r: SelectionResult)
    ensures SelectionOf(r) == s
  {
    match k
    case Win => if turn == P1 then PlayerResult(s) else OpponentResult(s)
    case Draw => DrawResult(s)
    case Lose => if turn == P1 then OpponentResult(s) else PlayerResult(s)
  }

  /** What a finished game means for `turn`. */
  function StatusResult(st: GameStatus, turn: Side): GameResult
  {
    match st
    case Draw => GameResult.Draw
    case PlayerWins => if turn == P1 then GameResult.Win else GameResult.Lose
    case OpponentWins => if turn == P2 then GameResult.Win else GameResult.Lose
    case Playing => GameResult.Draw
  }

  /** What a search result means for `turn`. */
  function SearchResult(r: SelectionResult, turn: Side): (k: GameResult)
    ensures Verdict(k, turn, SelectionOf(r)) == r
  {
    match r
    case DrawResult(_) => GameResult.Draw
    case PlayerResult(_) => if turn == P1 then GameResult.Win else GameResult.Lose
    case OpponentResult(_) => if turn == P2 then GameResult.Win else GameResult.Lose
  }

  /** The searches start from a game still within its four rounds whose
      stored selections name cards of the hand. */
  predicate SolverReady(g: GameState)
  {
    g.round < 4 && SelectionsInRange(g)
  }

  /** Three steps per remaining round, less one per stored selection: every
      selection either stores one or fights the round. */
  function Measure(g: GameState): int
  {
    3 * (4 - g.round) - (if g.s1.Some? then 1 else 0) - (if g.s2.Some? then 1 else 0)
  }

  /** A transition of the game by one selection, returning whether a battle
      was fought. The searches are written for any transition with the laws
      below; `Selector` is the game's own `select`. */
  type Play = (GameState, Selection) -> (GameState, bool)

  /** The game's `select` as a transition (games and selections outside its
      precondition are left unchanged; the searches never pass them). */
  function Selector(cat: Catalog): Play
  {
    (g: GameState, s: Selection) =>
      if SelectionsInRange(g) && s.index < 4 then SelectF(g, s, cat) else (g, false)
  }

  /** The laws the searches rely on: a selection that only stores a commit,
      or fights a round the game survives, leaves a game the searches may
      continue from, closer to the end; and the first commit of a round never
      fights. */
  ghost predicate Advances(play: Play)
  {
    (forall g: GameState, s: Selection ::
       (SolverReady(g) && s.index < 4 && (!play(g, s).1 || StatusF(play(g, s).0) == Playing)) ==>
       SolverReady(play(g, s).0) && 0 <= Measure(play(g, s).0) < Measure(g)) &&
    (forall g: GameState, s: Selection :: SolverReady(g) && s.index < 4 && g.s1.None? && g.s2.None? ==>
       !play(g, s).1)
  }

  /** The game's `select` obeys the laws. */
  lemma SelectorAdvances(cat: Catalog)
    ensures Advances(Selector(cat))
  {
    var play := Selector(cat);
    forall g: GameState, s: Selection | SolverReady(g) && s.index < 4 &&
      (!play(g, s).1 || StatusF(play(g, s).0) == Playing)
      ensures SolverReady(play(g, s).0) && 0 <= Measure(play(g, s).0) < Measure(g)
    {
      SelectAdvances(g, s, cat);
    }
  }

  /** A selection that stores a commit, or fights a round the game survives,
      leaves a game the searches may continue from, closer to the end. */
  lemma SelectAdvances(g: GameState, s: Selection, cat: Catalog)
    requires SolverReady(g) && s.index < 4
    requires !SelectF(g, s, cat).1 || StatusF(SelectF(g, s, cat).0) == Playing
    ensures SolverReady(SelectF(g, s, cat).0)
    ensures 0 <= Measure(SelectF(g, s, cat).0) < Measure(g)
  {
    CommitAdvances(g, s, SelectF(g, s, cat));
  }

  /** The same, for any result of a commit that has the shape `select`
      promises. */
  lemma CommitAdvances(g: GameState, s: Selection, r: (GameState, bool))
    requires SolverReady(g) && s.index < 4
    requires r.1 <==> (if FirstTurnF(g) == P1 then g.s1.Some? else g.s2.Some?)
    requires !r.1 ==> r.0 == (if TurnF(g) == P1 then g.(s1 := Some(s)) else g.(s2 := Some(s)))
    requires r.1 ==> r.0.s1.None? && r.0.s2.None? && r.0.round == Wrap8(g.round + 1)
    requires !r.1 || StatusF(r.0) == Playing
    ensures SolverReady(r.0) && 0 <= Measure(r.0) < Measure(g)
  {
    if r.1 {
      assert r.0.round == g.round + 1;
      assert r.0.round != 4 by {
        StatusCharacterised(r.0);
      }
    }
  }


  /** Every candidate names a card of the hand. */
  predicate Indexed(cs: seq<Selection>)
  {
    Below(cs, 4)
  }

  /** Concatenated candidate lists name cards of the hand. */
  lemma IndexedConcat(c: seq<Selection>, d: seq<Selection>)
    requires Indexed(c) && Indexed(d)
    ensures Indexed(c + d)
  {
    forall j | 0 <= j < |c + d|
      ensures (c + d)[j].index < 4
    {
      if j >= |c| {
        assert (c + d)[j] == d[j - |c|];
      }
    }
  }

  /** Candidate selections: every move of `row` for card `index`. */
  function Moves(index: nat, row: seq<Move>): (r: seq<Selection>)
    requires index < 4
    ensures |r| == |row| && Below(r, index + 1)
    ensures forall j :: 0 <= j < |row| ==> r[j] == Selection(index, row[j].0, row[j].1)
  {
    seq(|row|, j requires 0 <= j < |row| => Selection(index, row[j].0, row[j].1))
  }

  /** Every candidate names a card below `k`. */
  predicate Below(cs: seq<Selection>, k: nat)
  {
    forall j :: 0 <= j < |cs| ==> cs[j].index < k
  }

  /** The moves of card `k` if it is unplayed. */
  function CardMoves(hand: Hand, row: seq<Move>, k: nat): (r: seq<Selection>)
    requires k < 4
    ensures Below(r, k + 1)
  {
    if hand.cards[k].played then [] else Moves(k, row)
  }

  /** The candidates of the first `k` cards, in search order. */
  function CandidatesUpTo(hand: Hand, row: seq<Move>, k: nat): (r: seq<Selection>)
    requires k <= 4
    ensures Below(r, k)
  {
    if k == 0 then []
    else
      var prev := CandidatesUpTo(hand, row, k - 1);
      var next := CardMoves(hand, row, k - 1);
      assert Below(prev + next, k) by {
        forall j | 0 <= j < |prev + next|
          ensures (prev + next)[j].index < k
        {
          if j >= |prev| {
            assert (prev + next)[j] == next[j - |prev|];
          }
        }
      }
      prev + next
  }

  /** The candidates of cards `k..4`. */
  function CandidatesFrom(hand: Hand, row: seq<Move>, k: nat): (r: seq<Selection>)
    requires k <= 4
    ensures Indexed(r)
    decreases 4 - k
  {
    if k == 4 then []
    else
      var rest := CandidatesFrom(hand, row, k + 1);
      IndexedConcat(CardMoves(hand, row, k), rest);
      CardMoves(hand, row, k) + rest
  }

  /** All candidates: each unplayed card with each move of the row. */
  function Candidates(hand: Hand, row: seq<Move>): seq<Selection>
  {
    CandidatesUpTo(hand, row, 4)
  }

  /** The candidates split at any card. */
  lemma {:induction false} CandidatesSplit(hand: Hand, row: seq<Move>, k: nat)
    requires k <= 4
    ensures Candidates(hand, row) == CandidatesUpTo(hand, row, k) + CandidatesFrom(hand, row, k)
    decreases 4 - k
  {
    if k < 4 {
      CandidatesSplit(hand, row, k + 1);
      assert CandidatesFrom(hand, row, k) == CardMoves(hand, row, k) + CandidatesFrom(hand, row, k + 1);
    }
  }

  /** A selection is a candidate exactly when it names an unplayed card and
      a move of the row. */
  lemma CandidateMembers(hand: Hand, row: seq<Move>, s: Selection)
    ensures s in Candidates(hand, row) <==>
      s.index < 4 && !hand.cards[s.index].played && (s.pillz, s.fury) in row
  {
    CandidatesUpToMembers(hand, row, 4, s);
  }

  lemma {:induction false} CandidatesUpToMembers(hand: Hand, row: seq<Move>, k: nat, s: Selection)
    requires k <= 4
    ensures s in CandidatesUpTo(hand, row, k) <==>
      s.index < k && !hand.cards[s.index].played && (s.pillz, s.fury) in row
  {
    if k > 0 {
      CandidatesUpToMembers(hand, row, k - 1, s);
      var ms := CardMoves(hand, row, k - 1);
      if s.index == k - 1 && !hand.cards[s.index].played && (s.pillz, s.fury) in row {
        var j :| 0 <= j < |row| && row[j] == (s.pillz, s.fury);
        assert ms[j] == s;
      }
    }
  }

  /** Without an unplayed card there is no candidate. */
  lemma {:induction false} NoUnplayedNoCandidates(hand: Hand, row: seq<Move>, k: nat)
    requires k <= 4
    requires forall i :: 0 <= i < k ==> hand.cards[i].played
    ensures CandidatesUpTo(hand, row, k) == []
  {
    if k > 0 {
      NoUnplayedNoCandidates(hand, row, k - 1);
    }
  }

  /** Progress of a scan over candidates: still going with the result
      stored so far, stopped on a win, or stopped by a panic. */
  datatype Scan = Continue(stored: Option<SelectionResult>) | Done(found: SelectionResult) | Panic

  /** The value a finished scan returns; `None` is a panic, including
      unwrapping an empty stored result. */
  function Finish(sc: Scan): Option<SelectionResult>
  {
    match sc
    case Continue(s) => s
    case Done(r) => Some(r)
    case Panic => None
  }

  // ---------------------------------------------------------------------
  // solve_first
  // ---------------------------------------------------------------------

  /** What one candidate of the first search gives the side to move, and
      whether the battle it fought ended the game; `None` is a panic in the
      search below it. */
  datatype Outcome = Outcome(result: GameResult, terminal: bool)

  /** One candidate of the first search: a battle that ends the game gives
      its result, anything else is searched further. */
  function FirstOutcome(play: Play, g: GameState, s: Selection): Option<Outcome>
    requires Advances(play) && SolverReady(g) && s.index < 4
    decreases Measure(g), 0, 0
  {
    var next := play(g, s);
    if next.1 && StatusF(next.0) != Playing then
      Some(Outcome(StatusResult(StatusF(next.0), TurnF(g)), true))
    else
      match SolveFirstF(play, next.0)
      case None => None
      case Some(best) => Some(Outcome(SearchResult(best, TurnF(g)), false))
  }

  /** Taking one candidate into the first search: a win stops the search; a
      game-ending draw replaces anything but an earlier draw; a searched draw
      and a loss are kept only when nothing is stored yet. */
  function FirstStep(sc: Scan, o: Option<Outcome>, s: Selection, turn: Side): Scan
  {
    match sc
    case Continue(stored) =>
      (match o
       case None => Panic
       case Some(out) =>
         if out.result == GameResult.Win then Done(Verdict(GameResult.Win, turn, s))
         else if out.result == GameResult.Draw && out.terminal then
           if stored.Some? && stored.value.DrawResult? then sc else Continue(Some(DrawResult(s)))
         else if stored.None? then Continue(Some(Verdict(out.result, turn, s)))
         else sc)
    case _ => sc
  }

  /** The first search over a list of candidates, in order. */
  function FirstScan(play: Play, g: GameState, cs: seq<Selection>): Scan
    requires Advances(play) && SolverReady(g) && Indexed(cs)
    decreases Measure(g), 1, |cs|
  {
    if cs == [] then Continue(None)
    else
      var last := cs[|cs| - 1];
      FirstStep(FirstScan(play, g, cs[..|cs| - 1]), FirstOutcome(play, g, last), last, TurnF(g))
  }

  /** `solve_first`: every unplayed card of the side to move with every move
      of the split-shift row of its pool. */
  function SolveFirstF(play: Play, g: GameState): Option<SelectionResult>
    requires Advances(play) && SolverReady(g)
    decreases Measure(g), 2, 0
  {
    var pool := TurnPlayer(g).pillz;
    if pool >= N then None
    else Finish(FirstScan(play, g, Candidates(TurnHand(g), SplitShiftRow(pool))))
  }

  /** Taking one more candidate into the first search is one step. */
  lemma FirstScanAppend(play: Play, g: GameState, c: seq<Selection>, x: Selection)
    requires Advances(play) && SolverReady(g) && Indexed(c) && x.index < 4
    ensures Indexed(c + [x])
    ensures FirstScan(play, g, c + [x]) == FirstStep(FirstScan(play, g, c), FirstOutcome(play, g, x), x, TurnF(g))
  {
    IndexedConcat(c, [x]);
    assert (c + [x])[..|c|] == c;
  }

  /** Once the first search has stopped, later candidates change nothing. */
  lemma {:induction false} FirstScanStopped(play: Play, g: GameState, c: seq<Selection>, d: seq<Selection>)
    requires Advances(play) && SolverReady(g) && Indexed(c) && Indexed(d)
    requires !FirstScan(play, g, c).Continue?
    ensures Indexed(c + d) && FirstScan(play, g, c + d) == FirstScan(play, g, c)
    decreases |d|
  {
    IndexedConcat(c, d);
    if d != [] {
      var d', x := d[..|d| - 1], d[|d| - 1];
      assert Indexed(d');
      assert c + d == (c + d') + [x];
      FirstScanStopped(play, g, c, d');
      FirstScanAppend(play, g, c + d', x);
      var sc := FirstScan(play, g, c + d');
      assert sc == FirstScan(play, g, c);
      assert FirstStep(sc, FirstOutcome(play, g, x), x, TurnF(g)) == sc;
    } else {
      assert c + d == c;
    }
  }

  /** Once the first search has stopped within a list, the rest of the list
      changes nothing. */
  lemma FirstScanStoppedWithin(play: Play, g: GameState, a: seq<Selection>, m: seq<Selection>, k: nat)
    requires Advances(play) && SolverReady(g) && Indexed(a + m) && k <= |m|
    requires Indexed(a + m[..k]) && !FirstScan(play, g, a + m[..k]).Continue?
    ensures FirstScan(play, g, a + m) == FirstScan(play, g, a + m[..k])
  {
    SuffixSplit(a, m, k);
    FirstScanStopped(play, g, a + m[..k], m[k..]);
  }

  /** A list of candidates cut within its second part. */
  lemma SuffixSplit(a: seq<Selection>, m: seq<Selection>, k: nat)
    requires Indexed(a + m) && k <= |m|
    ensures Indexed(m[k..]) && a + m == (a + m[..k]) + m[k..]
  {
    assert a + m == (a + m[..k]) + m[k..];
    forall j | 0 <= j < |m[k..]|
      ensures m[k..][j].index < 4
    {
      assert m[k..][j] == (a + m)[|a| + k + j];
    }
  }

  /** One more move of a card's list. */
  lemma CardPrefixStep(before: seq<Selection>, moves: seq<Selection>, j: nat)
    requires j < |moves|
    ensures before + moves[..j + 1] == (before + moves[..j]) + [moves[j]]
  {
    assert moves[..j + 1] == moves[..j] + [moves[j]];
  }

  /** A search stopped by the first `k` cards stops there. */
  lemma FirstScanStopsAfter(play: Play, g: GameState, hand: Hand, row: seq<Move>, k: nat)
    requires Advances(play) && SolverReady(g) && k <= 4
    requires !FirstScan(play, g, CandidatesUpTo(hand, row, k)).Continue?
    ensures FirstScan(play, g, Candidates(hand, row)) == FirstScan(play, g, CandidatesUpTo(hand, row, k))
  {
    CandidatesSplit(hand, row, k);
    FirstScanStopped(play, g, CandidatesUpTo(hand, row, k), CandidatesFrom(hand, row, k));
  }

  /** `solve_first`, as the source runs it: a loop over the cards of the side
      to move, each unplayed one searched over the moves its pool allows,
      stopping at the first win or panic. */
  method SolveFirst(play: Play, g: GameState) returns (r: Option<SelectionResult>)
    requires Advances(play) && SolverReady(g)
    ensures r == SolveFirstF(play, g)
    decreases Measure(g), 2
  {
    var hand := TurnHand(g);
    var pool := TurnPlayer(g).pillz;
    ghost var row := if pool < N then SplitShiftRow(pool) else [];
    var result: Option<SelectionResult> := None;
    for index := 0 to 4
      invariant FirstScan(play, g, CandidatesUpTo(hand, row, index)) == Continue(result)
      invariant pool >= N ==> CandidatesUpTo(hand, row, index) == []
    {
      if !hand.cards[index].played {
        var range := SplitShiftRange(pool);
        if range.None? {
          return None;
        }
        assert range.value == row;
        var sc := SolveFirstCard(play, g, CandidatesUpTo(hand, row, index), index, range.value, result);
        assert CandidatesUpTo(hand, row, index + 1) == CandidatesUpTo(hand, row, index) + Moves(index, row);
        if !sc.Continue? {
          FirstScanStopsAfter(play, g, hand, row, index + 1);
          return Finish(sc);
        }
        result := sc.stored;
      } else {
        assert CandidatesUpTo(hand, row, index + 1) == CandidatesUpTo(hand, row, index);
      }
    }
    r := result;
  }

  /** The inner loop of `solve_first`: the moves of one card, after the
      candidates `before` left `result` stored; a win or a panic returns at
      once. */
  method SolveFirstCard(play: Play, g: GameState, ghost before: seq<Selection>, index: nat,
                        range: seq<Move>, result: Option<SelectionResult>) returns (sc: Scan)
    requires Advances(play) && SolverReady(g) && index < 4 && Indexed(before)
    requires FirstScan(play, g, before) == Continue(result)
    ensures Indexed(before + Moves(index, range))
    ensures sc == FirstScan(play, g, before + Moves(index, range))
    decreases Measure(g), 1
  {
    ghost var moves := Moves(index, range);
    IndexedConcat(before, moves);
    var stored := result;
    assert before + moves[..0] == before;
    for j := 0 to |range|
      invariant Indexed(before + moves[..j])
      invariant FirstScan(play, g, before + moves[..j]) == Continue(stored)
    {
      var sel := Selection(index, range[j].0, range[j].1);
      CardPrefixStep(before, moves, j);
      FirstScanAppend(play, g, before + moves[..j], sel);
      var step := SolveFirstCandidate(play, g, stored, sel);
      if !step.Continue? {
        FirstScanStoppedWithin(play, g, before, moves, j + 1);
        return step;
      }
      stored := step.stored;
    }
    assert moves[..|range|] == moves;
    sc := Continue(stored);
  }

  /** One candidate of `solve_first`, taken into what is stored so far: a
      battle that ends the game is judged by its status, any other selection
      is searched further; a win stops the search, a panic ends everything. */
  method SolveFirstCandidate(play: Play, g: GameState, stored: Option<SelectionResult>, sel: Selection)
    returns (sc: Scan)
    requires Advances(play) && SolverReady(g) && sel.index < 4
    ensures sc == FirstStep(Continue(stored), FirstOutcome(play, g, sel), sel, TurnF(g))
    decreases Measure(g), 0
  {
    var turn := TurnF(g);
    var next := play(g, sel);
    var status := StatusF(next.0);
    sc := Continue(stored);
    if next.1 && status != Playing {
      if status == GameStatus.Draw {
        if stored.None? || !stored.value.DrawResult? {
          sc := Continue(Some(DrawResult(sel)));
        }
      } else if status == OpponentWins && turn == P2 {
        sc := Done(OpponentResult(sel));
      } else if status == PlayerWins && turn == P1 {
        sc := Done(PlayerResult(sel));
      } else if stored.None? {
        sc := Continue(Some(if status == PlayerWins then PlayerResult(sel) else OpponentResult(sel)));
      }
    } else {
      var best := SolveFirst(play, next.0);
      if best.None? {
        return Panic;
      }
      match best.value
      case DrawResult(_) =>
        if stored.None? {
          sc := Continue(Some(DrawResult(sel)));
        }
      case OpponentResult(_) =>
        if turn == P2 {
          sc := Done(OpponentResult(sel));
        } else if stored.None? {
          sc := Continue(Some(OpponentResult(sel)));
        }
      case PlayerResult(_) =>
        if turn == P1 {
          sc := Done(PlayerResult(sel));
        } else if stored.None? {
          sc := Continue(Some(PlayerResult(sel)));
        }
    }
  }

  /** An outcome of the first search that wins for the side to move. */
  predicate Wins(o: Option<Outcome>)
  {
    o.Some? && o.value.result == GameResult.Win
  }

  /** An outcome searched to the end without a win for the side to move. */
  predicate Holds(o: Option<Outcome>)
  {
    o.Some? && o.value.result != GameResult.Win
  }

  /** Tagging and reading back a result agree. */
  lemma VerdictResult(k: GameResult, turn: Side, s: Selection)
    ensures SearchResult(Verdict(k, turn, s), turn) == k
  {
  }

  /** The outcome of every candidate, in order. */
  function Outcomes(play: Play, g: GameState, cs: seq<Selection>): (os: seq<Option<Outcome>>)
    requires Advances(play) && SolverReady(g) && Indexed(cs)
    ensures |os| == |cs|
    ensures forall k :: 0 <= k < |cs| ==> os[k] == FirstOutcome(play, g, cs[k])
  {
    seq(|cs|, k requires 0 <= k < |cs| => FirstOutcome(play, g, cs[k]))
  }

  /** The first search's bookkeeping over outcomes already known: the same
      steps as `FirstScan`, with the searching below each candidate done. */
  function FirstFold(os: seq<Option<Outcome>>, cs: seq<Selection>, turn: Side): Scan
    requires |os| == |cs|
    decreases |cs|
  {
    if cs == [] then Continue(None)
    else FirstStep(FirstFold(os[..|os| - 1], cs[..|cs| - 1], turn), os[|os| - 1], cs[|cs| - 1], turn)
  }

  /** The first search is its bookkeeping over the candidates' outcomes. */
  lemma {:induction false} FirstScanFold(play: Play, g: GameState, cs: seq<Selection>)
    requires Advances(play) && SolverReady(g) && Indexed(cs)
    ensures FirstScan(play, g, cs) == FirstFold(Outcomes(play, g, cs), cs, TurnF(g))
    decreases |cs|
  {
    if cs != [] {
      var c := cs[..|cs| - 1];
      assert Indexed(c);
      FirstScanFold(play, g, c);
      var os := Outcomes(play, g, cs);
      assert os[..|os| - 1] == Outcomes(play, g, c) by {
        forall k | 0 <= k < |c|
          ensures os[k] == Outcomes(play, g, c)[k]
        {
          assert c[k] == cs[k];
        }
      }
    }
  }

  /** The bookkeeping runs through exactly when no outcome is a win or a
      panic. */
  lemma {:induction false} FirstFoldRuns(os: seq<Option<Outcome>>, cs: seq<Selection>, turn: Side)
    requires |os| == |cs|
    ensures FirstFold(os, cs, turn).Continue? <==> forall k :: 0 <= k < |os| ==> Holds(os[k])
    decreases |cs|
  {
    if cs != [] {
      var os' := os[..|os| - 1];
      FirstFoldRuns(os', cs[..|cs| - 1], turn);
      if forall k :: 0 <= k < |os| ==> Holds(os[k]) {
        assert Holds(os[|os'|]);
        assert forall k :: 0 <= k < |os'| ==> os'[k] == os[k];
      } else if FirstFold(os', cs[..|cs| - 1], turn).Continue? && Holds(os[|os'|]) {
        forall k | 0 <= k < |os|
          ensures Holds(os[k])
        {
          if k < |os'| {
            assert os[k] == os'[k];
          }
        }
      }
    }
  }

  /** The bookkeeping stops on a win only at a winning outcome all of whose
      predecessors were searched without a win, and returns its candidate. */
  lemma {:induction false} FirstFoldWins(os: seq<Option<Outcome>>, cs: seq<Selection>, turn: Side)
    requires |os| == |cs|
    ensures FirstFold(os, cs, turn).Done? ==>
      exists k :: 0 <= k < |cs| && Wins(os[k]) &&
        FirstFold(os, cs, turn).found == Verdict(GameResult.Win, turn, cs[k]) &&
        forall j :: 0 <= j < k ==> Holds(os[j])
    decreases |cs|
  {
    if cs != [] {
      var os', c := os[..|os| - 1], cs[..|cs| - 1];
      FirstFoldWins(os', c, turn);
      var sc := FirstFold(os', c, turn);
      if sc.Done? {
        var k :| 0 <= k < |c| && Wins(os'[k]) &&
          sc.found == Verdict(GameResult.Win, turn, c[k]) &&
          forall j :: 0 <= j < k ==> Holds(os'[j]);
        assert os[k] == os'[k] && cs[k] == c[k];
        assert forall j :: 0 <= j < k ==> os[j] == os'[j];
      } else if sc.Continue? && Wins(os[|c|]) {
        FirstFoldRuns(os', c, turn);
        assert forall j :: 0 <= j < |c| ==> os[j] == os'[j];
      }
    }
  }

  /** What the bookkeeping keeps while running is never a win for the side
      to move, and names one of the candidates. */
  lemma {:induction false} FirstFoldKeeps(os: seq<Option<Outcome>>, cs: seq<Selection>, turn: Side)
    requires |os| == |cs|
    ensures FirstFold(os, cs, turn).Continue? && FirstFold(os, cs, turn).stored.Some? ==>
      var r := FirstFold(os, cs, turn).stored.value;
      SearchResult(r, turn) != GameResult.Win && SelectionOf(r) in cs
    ensures FirstFold(os, cs, turn) == Continue(None) ==> cs == []
    decreases |cs|
  {
    if cs != [] {
      var os', c := os[..|os| - 1], cs[..|cs| - 1];
      FirstFoldKeeps(os', c, turn);
      var o := os[|c|];
      if FirstFold(os', c, turn).Continue? && o.Some? {
        VerdictResult(o.value.result, turn, cs[|c|]);
      }
      assert forall s :: s in c ==> s in cs;
    }
  }

  /** `solve_first` is sound and complete for the side to move: a win it
      reports is a winning candidate, and any other answer means no
      candidate wins (all were searched to the end), with the answer one of
      the candidates. */
  lemma SolveFirstCharacterised(play: Play, g: GameState)
    requires Advances(play) && SolverReady(g)
    requires SolveFirstF(play, g).Some?
    ensures TurnPlayer(g).pillz < N
    ensures var r := SolveFirstF(play, g).value;
      var cs := Candidates(TurnHand(g), SplitShiftRow(TurnPlayer(g).pillz));
      SelectionOf(r) in cs &&
      (SearchResult(r, TurnF(g)) == GameResult.Win <==> Wins(FirstOutcome(play, g, SelectionOf(r)))) &&
      (SearchResult(r, TurnF(g)) != GameResult.Win ==> forall k :: 0 <= k < |cs| ==> Holds(FirstOutcome(play, g, cs[k])))
  {
    var cs := Candidates(TurnHand(g), SplitShiftRow(TurnPlayer(g).pillz));
    var os := Outcomes(play, g, cs);
    var turn := TurnF(g);
    FirstScanFold(play, g, cs);
    FirstFoldRuns(os, cs, turn);
    FirstFoldWins(os, cs, turn);
    FirstFoldKeeps(os, cs, turn);
    var sc := FirstScan(play, g, cs);
    if sc.Done? {
      var k :| 0 <= k < |cs| && Wins(os[k]) &&
        sc.found == Verdict(GameResult.Win, turn, cs[k]) &&
        forall j :: 0 <= j < k ==> Holds(os[j]);
      VerdictResult(GameResult.Win, turn, cs[k]);
    } else {
      var r := sc.stored.value;
      var k :| 0 <= k < |cs| && cs[k] == SelectionOf(r);
      assert Holds(os[k]);
    }
  }

  /** With no unplayed card left, `solve_first` has nothing to return and
      panics on the empty result. */
  lemma SolveFirstNoCards(play: Play, g: GameState)
    requires Advances(play) && SolverReady(g)
    requires forall i :: 0 <= i < 4 ==> TurnHand(g).cards[i].played
    ensures SolveFirstF(play, g).None?
  {
    var pool := TurnPlayer(g).pillz;
    if pool < N {
      NoUnplayedNoCandidates(TurnHand(g), SplitShiftRow(pool), 4);
    }
  }

  // ---------------------------------------------------------------------
  // solve_second
  // ---------------------------------------------------------------------

  /** The game `solve_second` replays from: the stored commit taken back. */
  function Cleared(g: GameState): GameState
  {
    g.(s1 := None, s2 := None)
  }

  /** The card of the commit already stored. */
  function CommittedIndex(g: GameState): Usize
    requires G.Pending(g)
  {
    if g.s1.None? then g.s2.value.index else g.s1.value.index
  }

  /** The game after the first mover commits `reply` on its stored card and
      the side to move commits `sel`; when it is still being played the
      searches may go on from it. */
  function ReplyGame(play: Play, g: GameState, sel: Selection, reply: Move): (r: GameState)
    requires Advances(play) && SolverReady(g) && G.Pending(g) && sel.index < 4
    ensures StatusF(r) == Playing ==> SolverReady(r)
  {
    var g0 := Cleared(g);
    var s := Selection(CommittedIndex(g), reply.0, reply.1);
    assert SolverReady(g0) && !play(g0, s).1;
    play(play(g0, s).0, sel).0
  }

  /** What one reply of the first mover means for the side to move: a game
      the two commits end is judged by its status, any other is searched by
      `solve_first`; `None` is a panic below. */
  function ReplyOutcome(play: Play, g: GameState, sel: Selection, reply: Move): Option<GameResult>
    requires Advances(play) && SolverReady(g) && G.Pending(g) && sel.index < 4
  {
    var next := ReplyGame(play, g, sel, reply);
    var st := StatusF(next);
    if st != Playing then Some(StatusResult(st, TurnF(g)))
    else
      match SolveFirstF(play, next)
      case None => None
      case Some(best) => Some(SearchResult(best, TurnF(g)))
  }

  /** The outcome of every reply, in order. */
  function ReplyOutcomes(play: Play, g: GameState, sel: Selection, replies: seq<Move>): (os: seq<Option<GameResult>>)
    requires Advances(play) && SolverReady(g) && G.Pending(g) && sel.index < 4
    ensures |os| == |replies|
    ensures forall k :: 0 <= k < |replies| ==> os[k] == ReplyOutcome(play, g, sel, replies[k])
  {
    seq(|replies|, k requires 0 <= k < |replies| => ReplyOutcome(play, g, sel, replies[k]))
  }

  /** Folding one reply into the worst result so far: a loss ends the
      replies (the source breaks out of them), a panic ends everything, a
      draw lowers a win, a win changes nothing. */
  function WorstStep(w: Option<GameResult>, o: Option<GameResult>): Option<GameResult>
  {
    if w.None? || w == Some(GameResult.Lose) then w
    else if o.None? || o.value != GameResult.Win then o
    else w
  }

  /** The worst result over the replies' outcomes, in order, from a win. */
  function WorstFold(os: seq<Option<GameResult>>): Option<GameResult>
  {
    if os == [] then Some(GameResult.Win)
    else WorstStep(WorstFold(os[..|os| - 1]), os[|os| - 1])
  }

  /** The worst the first mover can do to the candidate `sel`, over the
      replies in order. */
  function Worst(play: Play, g: GameState, sel: Selection, replies: seq<Move>): Option<GameResult>
    requires Advances(play) && SolverReady(g) && G.Pending(g) && sel.index < 4
    decreases |replies|
  {
    if replies == [] then Some(GameResult.Win)
    else
      WorstStep(Worst(play, g, sel, replies[..|replies| - 1]),
                ReplyOutcome(play, g, sel, replies[|replies| - 1]))
  }

  /** The worst result is the fold over the replies' outcomes. */
  lemma {:induction false} WorstIsFold(play: Play, g: GameState, sel: Selection, replies: seq<Move>)
    requires Advances(play) && SolverReady(g) && G.Pending(g) && sel.index < 4
    ensures Worst(play, g, sel, replies) == WorstFold(ReplyOutcomes(play, g, sel, replies))
    decreases |replies|
  {
    if replies != [] {
      var rs := replies[..|replies| - 1];
      WorstIsFold(play, g, sel, rs);
      var os := ReplyOutcomes(play, g, sel, replies);
      assert os[..|os| - 1] == ReplyOutcomes(play, g, sel, rs) by {
        forall k | 0 <= k < |rs|
          ensures os[k] == ReplyOutcomes(play, g, sel, rs)[k]
        {
          assert rs[k] == replies[k];
        }
      }
    }
  }

  /** Once a loss or a panic is the worst result, later replies change
      nothing. */
  lemma {:induction false} WorstStopped(play: Play, g: GameState, sel: Selection, replies: seq<Move>, k: nat)
    requires Advances(play) && SolverReady(g) && G.Pending(g) && sel.index < 4 && k <= |replies|
    requires Worst(play, g, sel, replies[..k]).None? || Worst(play, g, sel, replies[..k]) == Some(GameResult.Lose)
    ensures Worst(play, g, sel, replies) == Worst(play, g, sel, replies[..k])
    decreases |replies| - k
  {
    if k < |replies| {
      assert replies[..k + 1][..k] == replies[..k];
      WorstStopped(play, g, sel, replies, k + 1);
    } else {
      assert replies[..k] == replies;
    }
  }

  /** The worst result is a win exactly when every reply is a win. */
  lemma {:induction false} WorstFoldWins(os: seq<Option<GameResult>>)
    ensures WorstFold(os) == Some(GameResult.Win) <==> forall k :: 0 <= k < |os| ==> os[k] == Some(GameResult.Win)
  {
    if os != [] {
      var os' := os[..|os| - 1];
      WorstFoldWins(os');
      assert forall k :: 0 <= k < |os'| ==> os'[k] == os[k];
    }
  }

  /** No reply was a panic or a loss. */
  predicate NoLoss(os: seq<Option<GameResult>>)
  {
    forall k :: 0 <= k < |os| ==> os[k].Some? && os[k].value != GameResult.Lose
  }

  /** Some reply was a draw. */
  predicate SomeDraw(os: seq<Option<GameResult>>)
  {
    exists k :: 0 <= k < |os| && os[k] == Some(GameResult.Draw)
  }

  /** Both predicates split at the last reply. */
  lemma ReplySplit(os: seq<Option<GameResult>>)
    requires os != []
    ensures var os', o := os[..|os| - 1], os[|os| - 1];
      (NoLoss(os) <==> NoLoss(os') && o.Some? && o.value != GameResult.Lose) &&
      (SomeDraw(os) <==> SomeDraw(os') || o == Some(GameResult.Draw))
  {
    var os', o := os[..|os| - 1], os[|os| - 1];
    assert forall k :: 0 <= k < |os'| ==> os'[k] == os[k];
    if SomeDraw(os) {
      var k :| 0 <= k < |os| && os[k] == Some(GameResult.Draw);
      if k < |os'| {
        assert os'[k] == Some(GameResult.Draw);
      }
    }
    if SomeDraw(os') {
      var k :| 0 <= k < |os'| && os'[k] == Some(GameResult.Draw);
      assert os[k] == Some(GameResult.Draw);
    }
    if NoLoss(os') && o.Some? && o.value != GameResult.Lose {
      forall k | 0 <= k < |os|
        ensures os[k].Some? && os[k].value != GameResult.Lose
      {
        if k < |os'| {
          assert os[k] == os'[k];
        }
      }
    }
  }

  /** The worst result is a draw exactly when no reply was a panic or a
      loss and one of them is a draw. */
  lemma {:induction false} WorstFoldDraws(os: seq<Option<GameResult>>)
    ensures WorstFold(os) == Some(GameResult.Draw) <==> NoLoss(os) && SomeDraw(os)
  {
    if os != [] {
      var os' := os[..|os| - 1];
      WorstFoldDraws(os');
      WorstFoldWins(os');
      WorstFoldSettled(os');
      ReplySplit(os);
      match WorstFold(os')
      case Some(Win) =>
        assert NoLoss(os') && !SomeDraw(os');
      case Some(Lose) =>
        var k :| 0 <= k < |os'| && os'[k] == Some(GameResult.Lose) && NoLoss(os'[..k]);
        assert !NoLoss(os');
      case None =>
        var k :| 0 <= k < |os'| && os'[k].None?;
        assert !NoLoss(os');
      case Some(Draw) =>
    }
  }

  /** A loss is found only after replies searched without a loss or a panic;
      a panic only at a reply that panicked. */
  lemma {:induction false} WorstFoldSettled(os: seq<Option<GameResult>>)
    ensures WorstFold(os) == Some(GameResult.Lose) ==>
      exists k :: 0 <= k < |os| && os[k] == Some(GameResult.Lose) && NoLoss(os[..k])
    ensures WorstFold(os).None? ==> exists k :: 0 <= k < |os| && os[k].None?
  {
    if os != [] {
      var os', o := os[..|os| - 1], os[|os| - 1];
      WorstFoldSettled(os');
      assert forall k :: 0 <= k < |os'| ==> os'[k] == os[k];
      match WorstFold(os')
      case Some(Lose) =>
        var k :| 0 <= k < |os'| && os'[k] == Some(GameResult.Lose) && NoLoss(os'[..k]);
        assert os[..k] == os'[..k];
      case None =>
        var k :| 0 <= k < |os'| && os'[k].None?;
        assert os[k].None?;
      case Some(w) =>
        if o == Some(GameResult.Lose) {
          WorstFoldDraws(os');
          WorstFoldWins(os');
          if w == GameResult.Win {
            assert NoLoss(os');
          }
          assert os[..|os'|] == os';
        }
    }
  }

  /** Taking one candidate of the side to move into `solve_second`: a win
      against every reply stops the search; a draw replaces anything stored;
      a loss is kept only when nothing is stored yet; a panic ends it. */
  function SecondStep(sc: Scan, w: Option<GameResult>, s: Selection, turn: Side): Scan
  {
    match sc
    case Continue(stored) =>
      (match w
       case None => Panic
       case Some(k) =>
         if k == GameResult.Win then Done(Verdict(GameResult.Win, turn, s))
         else if k == GameResult.Draw then Continue(Some(DrawResult(s)))
         else if stored.None? then Continue(Some(Verdict(GameResult.Lose, turn, s)))
         else sc)
    case _ => sc
  }

  /** The worst result of the candidate `sel` against every move of the
      first mover's split-shift row on its stored card; `None` is a panic,
      including a pool outside the tables. */
  function Against(play: Play, g: GameState, sel: Selection): Option<GameResult>
    requires Advances(play) && SolverReady(g) && G.Pending(g) && sel.index < 4
  {
    var pool2 := TurnOpponent(g).pillz;
    if pool2 >= N then None else Worst(play, g, sel, SplitShiftRow(pool2))
  }

  /** `solve_second` over a list of candidates, in order. */
  function SecondScan(play: Play, g: GameState, cs: seq<Selection>): Scan
    requires Advances(play) && SolverReady(g) && G.Pending(g) && Indexed(cs)
    decreases |cs|
  {
    if cs == [] then Continue(None)
    else
      var last := cs[|cs| - 1];
      SecondStep(SecondScan(play, g, cs[..|cs| - 1]), Against(play, g, last), last, TurnF(g))
  }

  /** `solve_second`: the stored commit is taken back, and every unplayed
      card of the side to move with every move of its pool's split-shift row
      is met by every move of the first mover's row on the stored card. */
  function SolveSecondF(play: Play, g: GameState): Option<SelectionResult>
    requires Advances(play) && SolverReady(g) && G.Pending(g)
  {
    var pool1 := TurnPlayer(g).pillz;
    if pool1 >= N then None
    else Finish(SecondScan(play, g, Candidates(TurnOpponentHand(Cleared(g)), SplitShiftRow(pool1))))
  }

  /** The worst result of every candidate, in order. */
  function Worsts(play: Play, g: GameState, cs: seq<Selection>): (ws: seq<Option<GameResult>>)
    requires Advances(play) && SolverReady(g) && G.Pending(g) && Indexed(cs)
    ensures |ws| == |cs|
    ensures forall k :: 0 <= k < |cs| ==> ws[k] == Against(play, g, cs[k])
  {
    seq(|cs|, k requires 0 <= k < |cs| => Against(play, g, cs[k]))
  }

  /** `solve_second`'s bookkeeping over worst results already known. */
  function SecondFold(ws: seq<Option<GameResult>>, cs: seq<Selection>, turn: Side): Scan
    requires |ws| == |cs|
    decreases |cs|
  {
    if cs == [] then Continue(None)
    else SecondStep(SecondFold(ws[..|ws| - 1], cs[..|cs| - 1], turn), ws[|ws| - 1], cs[|cs| - 1], turn)
  }

  /** `solve_second` is its bookkeeping over the candidates' worst results. */
  lemma {:induction false} SecondScanFold(play: Play, g: GameState, cs: seq<Selection>)
    requires Advances(play) && SolverReady(g) && G.Pending(g) && Indexed(cs)
    ensures SecondScan(play, g, cs) == SecondFold(Worsts(play, g, cs), cs, TurnF(g))
    decreases |cs|
  {
    if cs != [] {
      var c := cs[..|cs| - 1];
      assert Indexed(c);
      SecondScanFold(play, g, c);
      var ws := Worsts(play, g, cs);
      assert ws[..|ws| - 1] == Worsts(play, g, c) by {
        forall k | 0 <= k < |c|
          ensures ws[k] == Worsts(play, g, c)[k]
        {
          assert c[k] == cs[k];
        }
      }
    }
  }

  /** A worst result that lets the search go on: searched, and not a win. */
  predicate Survives(w: Option<GameResult>)
  {
    w.Some? && w.value != GameResult.Win
  }

  /** The bookkeeping runs through exactly when no candidate wins against
      every reply and none panics. */
  lemma {:induction false} SecondFoldRuns(ws: seq<Option<GameResult>>, cs: seq<Selection>, turn: Side)
    requires |ws| == |cs|
    ensures SecondFold(ws, cs, turn).Continue? <==> forall k :: 0 <= k < |ws| ==> Survives(ws[k])
    decreases |cs|
  {
    if cs != [] {
      var ws' := ws[..|ws| - 1];
      SecondFoldRuns(ws', cs[..|cs| - 1], turn);
      if forall k :: 0 <= k < |ws| ==> Survives(ws[k]) {
        assert Survives(ws[|ws'|]);
        assert forall k :: 0 <= k < |ws'| ==> ws'[k] == ws[k];
      } else if SecondFold(ws', cs[..|cs| - 1], turn).Continue? && Survives(ws[|ws'|]) {
        forall k | 0 <= k < |ws|
          ensures Survives(ws[k])
        {
          if k < |ws'| {
            assert ws[k] == ws'[k];
          }
        }
      }
    }
  }

  /** The bookkeeping stops on a win only at a candidate that wins against
      every reply, all of whose predecessors were searched, and returns it. */
  lemma {:induction false} SecondFoldWins(ws: seq<Option<GameResult>>, cs: seq<Selection>, turn: Side)
    requires |ws| == |cs|
    ensures SecondFold(ws, cs, turn).Done? ==>
      exists k :: 0 <= k < |cs| && ws[k] == Some(GameResult.Win) &&
        SecondFold(ws, cs, turn).found == Verdict(GameResult.Win, turn, cs[k]) &&
        forall j :: 0 <= j < k ==> Survives(ws[j])
    decreases |cs|
  {
    if cs != [] {
      var ws', c := ws[..|ws| - 1], cs[..|cs| - 1];
      SecondFoldWins(ws', c, turn);
      var sc := SecondFold(ws', c, turn);
      if sc.Done? {
        var k :| 0 <= k < |c| && ws'[k] == Some(GameResult.Win) &&
          sc.found == Verdict(GameResult.Win, turn, c[k]) &&
          forall j :: 0 <= j < k ==> Survives(ws'[j]);
        assert ws[k] == ws'[k] && cs[k] == c[k];
        assert forall j :: 0 <= j < k ==> ws[j] == ws'[j];
      } else if sc.Continue? && ws[|c|] == Some(GameResult.Win) {
        SecondFoldRuns(ws', c, turn);
        assert forall j :: 0 <= j < |c| ==> ws[j] == ws'[j];
      }
    }
  }

  /** What the bookkeeping keeps while running names a candidate with that
      worst result, never a win; it is a loss only when every candidate
      loses; and nothing is kept only when there was no candidate. */
  lemma {:induction false} SecondFoldKeeps(ws: seq<Option<GameResult>>, cs: seq<Selection>, turn: Side)
    requires |ws| == |cs|
    ensures SecondFold(ws, cs, turn).Continue? && SecondFold(ws, cs, turn).stored.Some? ==>
      var r := SecondFold(ws, cs, turn).stored.value;
      SearchResult(r, turn) != GameResult.Win &&
      (exists k :: 0 <= k < |cs| && cs[k] == SelectionOf(r) && ws[k] == Some(SearchResult(r, turn))) &&
      (SearchResult(r, turn) == GameResult.Lose ==> forall k :: 0 <= k < |ws| ==> ws[k] == Some(GameResult.Lose))
    ensures SecondFold(ws, cs, turn) == Continue(None) ==> cs == []
    decreases |cs|
  {
    if cs != [] {
      var ws', c := ws[..|ws| - 1], cs[..|cs| - 1];
      SecondFoldKeeps(ws', c, turn);
      var sc := SecondFold(ws', c, turn);
      var w, x := ws[|c|], cs[|c|];
      assert forall k :: 0 <= k < |c| ==> ws[k] == ws'[k] && cs[k] == c[k];
      if sc.Continue? && w.Some? && w.value != GameResult.Win {
        VerdictResult(w.value, turn, x);
        if sc.stored.Some? {
          var r := sc.stored.value;
          var k :| 0 <= k < |c| && c[k] == SelectionOf(r) && ws'[k] == Some(SearchResult(r, turn));
          assert cs[k] == SelectionOf(r) && ws[k] == ws'[k];
        }
      }
    }
  }

  /** Taking one more candidate into `solve_second` is one step. */
  lemma SecondScanAppend(play: Play, g: GameState, c: seq<Selection>, x: Selection)
    requires Advances(play) && SolverReady(g) && G.Pending(g) && Indexed(c) && x.index < 4
    ensures Indexed(c + [x])
    ensures SecondScan(play, g, c + [x]) ==
      SecondStep(SecondScan(play, g, c), Against(play, g, x), x, TurnF(g))
  {
    IndexedConcat(c, [x]);
    assert (c + [x])[..|c|] == c;
  }

  /** Once `solve_second` has stopped, later candidates change nothing. */
  lemma {:induction false} SecondScanStopped(play: Play, g: GameState, c: seq<Selection>, d: seq<Selection>)
    requires Advances(play) && SolverReady(g) && G.Pending(g) && Indexed(c) && Indexed(d)
    requires !SecondScan(play, g, c).Continue?
    ensures Indexed(c + d) && SecondScan(play, g, c + d) == SecondScan(play, g, c)
    decreases |d|
  {
    IndexedConcat(c, d);
    if d != [] {
      var d', x := d[..|d| - 1], d[|d| - 1];
      assert Indexed(d');
      assert c + d == (c + d') + [x];
      SecondScanStopped(play, g, c, d');
      SecondScanAppend(play, g, c + d', x);
    } else {
      assert c + d == c;
    }
  }

  /** Once `solve_second` has stopped within a list, the rest of the list
      changes nothing. */
  lemma SecondScanStoppedWithin(play: Play, g: GameState, a: seq<Selection>, m: seq<Selection>, k: nat)
    requires Advances(play) && SolverReady(g) && G.Pending(g) && Indexed(a + m) && k <= |m|
    requires Indexed(a + m[..k]) && !SecondScan(play, g, a + m[..k]).Continue?
    ensures SecondScan(play, g, a + m) == SecondScan(play, g, a + m[..k])
  {
    SuffixSplit(a, m, k);
    SecondScanStopped(play, g, a + m[..k], m[k..]);
  }

  /** `solve_second` stopped by the first `k` cards stops there. */
  lemma SecondScanStopsAfter(play: Play, g: GameState, hand: Hand, row: seq<Move>, k: nat)
    requires Advances(play) && SolverReady(g) && G.Pending(g) && k <= 4
    requires !SecondScan(play, g, CandidatesUpTo(hand, row, k)).Continue?
    ensures SecondScan(play, g, Candidates(hand, row)) == SecondScan(play, g, CandidatesUpTo(hand, row, k))
  {
    CandidatesSplit(hand, row, k);
    SecondScanStopped(play, g, CandidatesUpTo(hand, row, k), CandidatesFrom(hand, row, k));
  }

  /** `solve_second`, as the source runs it: the stored commit is taken
      back, then a loop over the cards of the side to move, each unplayed one
      tried with every move its pool allows against every reply. */
  method SolveSecond(play: Play, g: GameState) returns (r: Option<SelectionResult>)
    requires Advances(play) && SolverReady(g) && G.Pending(g)
    ensures r == SolveSecondF(play, g)
  {
    var i := if g.s1.None? then g.s2.value.index else g.s1.value.index;
    var pool1 := TurnPlayer(g).pillz;
    var pool2 := TurnOpponent(g).pillz;
    var game := Cleared(g);
    var hand := TurnOpponentHand(game);
    ghost var row := if pool1 < N then SplitShiftRow(pool1) else [];
    var worstResult: Option<SelectionResult> := None;
    for index := 0 to 4
      invariant SecondScan(play, g, CandidatesUpTo(hand, row, index)) == Continue(worstResult)
      invariant pool1 >= N ==> CandidatesUpTo(hand, row, index) == []
    {
      if !hand.cards[index].played {
        var range := SplitShiftRange(pool1);
        if range.None? {
          return None;
        }
        assert range.value == row;
        var sc := SolveSecondCard(play, g, game, i, pool2, CandidatesUpTo(hand, row, index), index, range.value, worstResult);
        assert CandidatesUpTo(hand, row, index + 1) == CandidatesUpTo(hand, row, index) + Moves(index, row);
        if !sc.Continue? {
          SecondScanStopsAfter(play, g, hand, row, index + 1);
          return Finish(sc);
        }
        worstResult := sc.stored;
      } else {
        assert CandidatesUpTo(hand, row, index + 1) == CandidatesUpTo(hand, row, index);
      }
    }
    r := worstResult;
  }

  /** The moves of one card of the side to move, after the candidates
      `before` left `result` stored; a win or a panic returns at once. */
  method SolveSecondCard(play: Play, g: GameState, game: GameState, i: Usize, pool2: U8,
                         ghost before: seq<Selection>, index: nat, range: seq<Move>,
                         result: Option<SelectionResult>) returns (sc: Scan)
    requires Advances(play) && SolverReady(g) && G.Pending(g) && index < 4 && Indexed(before)
    requires game == Cleared(g) && i == CommittedIndex(g) && pool2 == TurnOpponent(g).pillz
    requires SecondScan(play, g, before) == Continue(result)
    ensures Indexed(before + Moves(index, range))
    ensures sc == SecondScan(play, g, before + Moves(index, range))
  {
    ghost var moves := Moves(index, range);
    IndexedConcat(before, moves);
    var stored := result;
    assert before + moves[..0] == before;
    for j := 0 to |range|
      invariant Indexed(before + moves[..j])
      invariant SecondScan(play, g, before + moves[..j]) == Continue(stored)
    {
      var sel := Selection(index, range[j].0, range[j].1);
      CardPrefixStep(before, moves, j);
      SecondScanAppend(play, g, before + moves[..j], sel);
      var step := SolveSecondCandidate(play, g, game, i, pool2, stored, sel);
      if !step.Continue? {
        SecondScanStoppedWithin(play, g, before, moves, j + 1);
        return step;
      }
      stored := step.stored;
    }
    assert moves[..|range|] == moves;
    sc := Continue(stored);
  }

  /** One candidate `sel` of the side to move, met by every reply, and taken
      into what is stored so far. */
  method SolveSecondCandidate(play: Play, g: GameState, game: GameState, i: Usize, pool2: U8,
                              stored: Option<SelectionResult>, sel: Selection) returns (sc: Scan)
    requires Advances(play) && SolverReady(g) && G.Pending(g) && sel.index < 4
    requires game == Cleared(g) && i == CommittedIndex(g) && pool2 == TurnOpponent(g).pillz
    ensures sc == SecondStep(Continue(stored), Against(play, g, sel), sel, TurnF(g))
  {
    var turn := TurnF(g);
    var range := SplitShiftRange(pool2);
    if range.None? {
      return Panic;
    }
    var worst := WorstReplies(play, g, game, i, sel, range.value);
    match worst
    case None =>
      sc := Panic;
    case Some(k) =>
      if k == GameResult.Win {
        sc := Done(if turn == P1 then PlayerResult(sel) else OpponentResult(sel));
      } else if k == GameResult.Draw {
        sc := Continue(Some(DrawResult(sel)));
      } else if stored.None? {
        sc := Continue(Some(if turn == P1 then OpponentResult(sel) else PlayerResult(sel)));
      } else {
        sc := Continue(stored);
      }
  }

  /** The replies of the first mover to `sel`, in order: each replays both
      commits on the cleared game; a loss for the side to move ends the
      replies, a panic below ends everything. */
  method WorstReplies(play: Play, g: GameState, game: GameState, i: Usize, sel: Selection,
                      replies: seq<Move>) returns (w: Option<GameResult>)
    requires Advances(play) && SolverReady(g) && G.Pending(g) && sel.index < 4
    requires game == Cleared(g) && i == CommittedIndex(g)
    ensures w == Worst(play, g, sel, replies)
  {
    w := Some(GameResult.Win);
    for j := 0 to |replies|
      invariant w == Worst(play, g, sel, replies[..j]) && w.Some? && w.value != GameResult.Lose
    {
      assert replies[..j + 1][..j] == replies[..j];
      var o := ReplyResult(play, g, game, i, sel, replies[j]);
      if o.None? {
        w := None;
        WorstStopped(play, g, sel, replies, j + 1);
        return;
      } else if o.value == GameResult.Lose {
        w := o;
        WorstStopped(play, g, sel, replies, j + 1);
        return;
      } else if o.value == GameResult.Draw {
        w := o;
      }
    }
    assert replies[..|replies|] == replies;
  }

  /** One reply of the first mover to `sel`: both commits replayed on the
      cleared game; a game they end is judged by its status, any other is
      searched by `solve_first`. */
  method ReplyResult(play: Play, g: GameState, game: GameState, i: Usize, sel: Selection, reply: Move)
    returns (o: Option<GameResult>)
    requires Advances(play) && SolverReady(g) && G.Pending(g) && sel.index < 4
    requires game == Cleared(g) && i == CommittedIndex(g)
    ensures o == ReplyOutcome(play, g, sel, reply)
  {
    var turn := TurnF(g);
    var first := play(game, Selection(i, reply.0, reply.1));
    var next := play(first.0, sel);
    assert next.0 == ReplyGame(play, g, sel, reply);
    var status := StatusF(next.0);
    if (status == PlayerWins && turn == P2) || (status == OpponentWins && turn == P1) {
      return Some(GameResult.Lose);
    } else if status == GameStatus.Draw {
      return Some(GameResult.Draw);
    } else if status != Playing {
      return Some(GameResult.Win);
    }
    var best := SolveFirst(play, next.0);
    if best.None? {
      return None;
    }
    match best.value
    case DrawResult(_) =>
      o := Some(GameResult.Draw);
    case OpponentResult(_) =>
      o := Some(if turn == P1 then GameResult.Lose else GameResult.Win);
    case PlayerResult(_) =>
      o := Some(if turn == P2 then GameResult.Lose else GameResult.Win);
  }

  /** A candidate's worst result is a win exactly when the first mover's
      pool is within the tables and the candidate wins against every reply;
      a draw exactly when no reply panics or beats it and one draws; a loss
      only at a reply that beats it after replies that did not. */
  lemma AgainstCharacterised(play: Play, g: GameState, sel: Selection)
    requires Advances(play) && SolverReady(g) && G.Pending(g) && sel.index < 4
    ensures var pool2 := TurnOpponent(g).pillz;
      var os := if pool2 < N then ReplyOutcomes(play, g, sel, SplitShiftRow(pool2)) else [];
      (Against(play, g, sel) == Some(GameResult.Win) <==>
        pool2 < N && forall k :: 0 <= k < |os| ==> os[k] == Some(GameResult.Win)) &&
      (Against(play, g, sel) == Some(GameResult.Draw) <==>
        pool2 < N && NoLoss(os) && SomeDraw(os)) &&
      (Against(play, g, sel) == Some(GameResult.Lose) ==>
        exists k :: 0 <= k < |os| && os[k] == Some(GameResult.Lose) && NoLoss(os[..k]))
  {
    var pool2 := TurnOpponent(g).pillz;
    if pool2 < N {
      var os := ReplyOutcomes(play, g, sel, SplitShiftRow(pool2));
      WorstIsFold(play, g, sel, SplitShiftRow(pool2));
      WorstFoldWins(os);
      WorstFoldDraws(os);
      WorstFoldSettled(os);
    }
  }

  /** `solve_second` for the side to move: the answer names a candidate and
      carries that candidate's worst result; an answer other than a win means
      no candidate wins against every reply, and a loss means every
      candidate loses to some reply. */
  lemma SolveSecondCharacterised(play: Play, g: GameState)
    requires Advances(play) && SolverReady(g) && G.Pending(g)
    requires SolveSecondF(play, g).Some?
    ensures TurnPlayer(g).pillz < N && TurnOpponent(g).pillz < N
    ensures var r := SolveSecondF(play, g).value;
      var cs := Candidates(TurnOpponentHand(Cleared(g)), SplitShiftRow(TurnPlayer(g).pillz));
      SelectionOf(r) in cs &&
      Against(play, g, SelectionOf(r)) == Some(SearchResult(r, TurnF(g))) &&
      (SearchResult(r, TurnF(g)) != GameResult.Win ==>
        forall k :: 0 <= k < |cs| ==> Survives(Against(play, g, cs[k]))) &&
      (SearchResult(r, TurnF(g)) == GameResult.Lose ==>
        forall k :: 0 <= k < |cs| ==> Against(play, g, cs[k]) == Some(GameResult.Lose))
  {
    var cs := Candidates(TurnOpponentHand(Cleared(g)), SplitShiftRow(TurnPlayer(g).pillz));
    var ws := Worsts(play, g, cs);
    var turn := TurnF(g);
    SecondScanFold(play, g, cs);
    SecondFoldRuns(ws, cs, turn);
    SecondFoldWins(ws, cs, turn);
    SecondFoldKeeps(ws, cs, turn);
    var sc := SecondScan(play, g, cs);
    if sc.Done? {
      var k :| 0 <= k < |cs| && ws[k] == Some(GameResult.Win) &&
        sc.found == Verdict(GameResult.Win, turn, cs[k]) &&
        forall j :: 0 <= j < k ==> Survives(ws[j]);
      VerdictResult(GameResult.Win, turn, cs[k]);
    } else {
      var r := sc.stored.value;
      var k :| 0 <= k < |cs| && cs[k] == SelectionOf(r) && ws[k] == Some(SearchResult(r, turn));
    }
  }

  /** In a game where the stored commit is the first mover's, `solve_second`
      searches the hand of the side to move. */
  lemma ClearedHand(g: GameState)
    requires G.Pending(g) && (g.s1.Some? <==> g.round % 2 == g.flip)
    ensures TurnOpponentHand(Cleared(g)) == TurnHand(g)
  {
  }

  // ---------------------------------------------------------------------
  // solve
  // ---------------------------------------------------------------------

  /** `solve`: with one commit of the round stored the second search
      answers it, otherwise the first search opens the round; both run on
      the game's own `select`. */
  method Solve(g: GameState, cat: Catalog) returns (r: Option<SelectionResult>)
    requires SolverReady(g)
    ensures Advances(Selector(cat))
    ensures G.Pending(g) ==> r == SolveSecondF(Selector(cat), g)
    ensures !G.Pending(g) ==> r == SolveFirstF(Selector(cat), g)
  {
    SelectorAdvances(cat);
    if g.s1.None? != g.s2.None? {
      r := SolveSecond(Selector(cat), g);
    } else {
      r := SolveFirst(Selector(cat), g);
    }
  }
}
