// The exhaustive results tree of the second solver: every selection of the
// side to move (`fill_tree`), or every pair of selections fought at once
// (`fill_tree_abab`), down to the end of the game, and the worst score a
// tree guarantees. The move tables and `solve*` searches it shares with the
// first solver are modelled once, in module Solver.

module Solver2 {
  import opened Types
  import opened Cards
  import opened Board
  import opened Effects
  import G = Game
  import S = Solver

  /** The results of every line of play from a game: a finished game's
      status, or the results under each selection. */
  datatype ResultsTree = PlayerWin | OpponentWin | Draw | Map(children: map<G.Selection, ResultsTree>)

  type Tree = map<G.Selection, ResultsTree>

  // ---------------------------------------------------------------------
  // Collecting subtrees into a map
  // ---------------------------------------------------------------------

  /** Inserting one more subtree; a panic (`None`) anywhere ends it. */
  function Extend(acc: Option<Tree>, t: Option<ResultsTree>, s: G.Selection): Option<Tree>
  {
    match acc
    case None => None
    case Some(m) =>
      match t
      case None => None
      case Some(v) => Some(m[s := v])
  }

  /** Inserting subtree `ts[k]` under key `cs[k]`, in order. */
  function Collect(ts: seq<Option<ResultsTree>>, cs: seq<G.Selection>): Option<Tree>
    requires |ts| == |cs|
  {
    if cs == [] then Some(map[])
    else Extend(Collect(ts[..|ts| - 1], cs[..|cs| - 1]), ts[|ts| - 1], cs[|cs| - 1])
  }

  /** The collected map panics exactly when a subtree does; otherwise its
      keys are the selections and each one holds a subtree inserted under
      it. */
  lemma {:induction false} CollectShape(ts: seq<Option<ResultsTree>>, cs: seq<G.Selection>)
    requires |ts| == |cs|
    ensures Collect(ts, cs).None? <==> exists k :: 0 <= k < |ts| && ts[k].None?
    ensures Collect(ts, cs).Some? ==> forall s :: s in Collect(ts, cs).value <==> s in cs
    ensures Collect(ts, cs).Some? ==> forall s :: s in Collect(ts, cs).value ==>
      exists k :: 0 <= k < |cs| && cs[k] == s && ts[k] == Some(Collect(ts, cs).value[s])
  {
    if cs != [] {
      var n := |cs| - 1;
      var ts', cs' := ts[..n], cs[..n];
      CollectShape(ts', cs');
      assert cs == cs' + [cs[n]];
      assert forall k :: 0 <= k < n ==> ts'[k] == ts[k] && cs'[k] == cs[k];
      var r := Collect(ts, cs);
      if r.Some? {
        var m := Collect(ts', cs').value;
        assert r.value == m[cs[n] := ts[n].value];
        forall s | s in r.value
          ensures exists k :: 0 <= k < |cs| && cs[k] == s && ts[k] == Some(r.value[s])
        {
          if s == cs[n] {
            assert cs[n] == s && ts[n] == Some(r.value[s]);
          } else {
            var k :| 0 <= k < n && cs'[k] == s && ts'[k] == Some(m[s]);
            assert cs[k] == s && ts[k] == Some(r.value[s]);
          }
        }
      }
    }
  }

  // ---------------------------------------------------------------------
  // fill_tree
  // ---------------------------------------------------------------------

  /** The leaf recording a finished game's status. */
  function Leaf(st: G.GameStatus): ResultsTree
    requires st != G.GameStatus.Playing
  {
    if st == G.GameStatus.PlayerWins then PlayerWin
    else if st == G.GameStatus.OpponentWins then OpponentWin
    else Draw
  }

  /** A node mirrors the status of the game it was reached in: a map while
      the game goes on, otherwise the leaf of the same kind. */
  predicate Mirrors(t: ResultsTree, st: G.GameStatus)
  {
    (t.Map? <==> st == G.GameStatus.Playing) &&
    (t == PlayerWin <==> st == G.GameStatus.PlayerWins) &&
    (t == OpponentWin <==> st == G.GameStatus.OpponentWins) &&
    (t == Draw <==> st == G.GameStatus.Draw)
  }

  /** Every card of the hand has been played. */
  predicate AllPlayed(hand: Hand)
  {
    forall i :: 0 <= i < 4 ==> hand.cards[i].played
  }

  /** `fill_tree`: for every unplayed card of the side to move and every move
      of the split-shift row of its pool, the subtree after selecting it;
      `None` is a panic (a pool outside the tables, or one below). */
  function FillTreeF(play: S.Play, g: G.GameState): Option<Tree>
    requires S.Advances(play) && S.SolverReady(g)
    decreases S.Measure(g), 2, 0
  {
    var pool := S.TurnPlayer(g).pillz;
    if pool < S.N then TreeScan(play, g, S.Candidates(S.TurnHand(g), S.SplitShiftRow(pool)))
    else if AllPlayed(S.TurnHand(g)) then Some(map[])
    else None
  }

  /** The tree of a list of selections, inserted in order. */
  function TreeScan(play: S.Play, g: G.GameState, cs: seq<G.Selection>): Option<Tree>
    requires S.Advances(play) && S.SolverReady(g) && S.Indexed(cs)
    decreases S.Measure(g), 1, |cs|
  {
    if cs == [] then Some(map[])
    else
      var last := cs[|cs| - 1];
      Extend(TreeScan(play, g, cs[..|cs| - 1]), SubTree(play, g, last), last)
  }

  /** The subtree after one selection: the whole tree below while the game
      goes on, its status once it is over. */
  function SubTree(play: S.Play, g: G.GameState, s: G.Selection): Option<ResultsTree>
    requires S.Advances(play) && S.SolverReady(g) && s.index < 4
    decreases S.Measure(g), 0
  {
    var next := play(g, s).0;
    var st := G.StatusF(next);
    if st == G.GameStatus.Playing then
      match FillTreeF(play, next)
      case None => None
      case Some(c) => Some(Map(c))
    else Some(Leaf(st))
  }

  /** The subtrees of a list of selections. */
  function SubTrees(play: S.Play, g: G.GameState, cs: seq<G.Selection>): (ts: seq<Option<ResultsTree>>)
    requires S.Advances(play) && S.SolverReady(g) && S.Indexed(cs)
    ensures |ts| == |cs| && forall k :: 0 <= k < |cs| ==> ts[k] == SubTree(play, g, cs[k])
  {
    seq(|cs|, k requires 0 <= k < |cs| => SubTree(play, g, cs[k]))
  }

  /** Building the tree selection by selection collects the subtrees. */
  lemma {:induction false} TreeScanCollects(play: S.Play, g: G.GameState, cs: seq<G.Selection>)
    requires S.Advances(play) && S.SolverReady(g) && S.Indexed(cs)
    ensures TreeScan(play, g, cs) == Collect(SubTrees(play, g, cs), cs)
    decreases |cs|
  {
    if cs != [] {
      var n := |cs| - 1;
      TreeScanCollects(play, g, cs[..n]);
      SubTreesPrefix(play, g, cs, n);
    }
  }

  lemma SubTreesPrefix(play: S.Play, g: G.GameState, cs: seq<G.Selection>, n: nat)
    requires S.Advances(play) && S.SolverReady(g) && S.Indexed(cs) && n <= |cs|
    ensures S.Indexed(cs[..n]) && SubTrees(play, g, cs)[..n] == SubTrees(play, g, cs[..n])
  {
    assert S.Indexed(cs[..n]);
    var a, b := SubTrees(play, g, cs)[..n], SubTrees(play, g, cs[..n]);
    assert |a| == |b|;
    forall k | 0 <= k < n
      ensures a[k] == b[k]
    {
      assert cs[..n][k] == cs[k];
    }
  }

  /** Taking one more selection into the tree is one insertion. */
  lemma TreeScanAppend(play: S.Play, g: G.GameState, c: seq<G.Selection>, x: G.Selection)
    requires S.Advances(play) && S.SolverReady(g) && S.Indexed(c) && x.index < 4
    ensures S.Indexed(c + [x])
    ensures TreeScan(play, g, c + [x]) == Extend(TreeScan(play, g, c), SubTree(play, g, x), x)
  {
    S.IndexedConcat(c, [x]);
    assert (c + [x])[..|c|] == c;
  }

  /** Once the tree has panicked, later selections change nothing. */
  lemma {:induction false} TreeScanPanicked(play: S.Play, g: G.GameState, c: seq<G.Selection>, d: seq<G.Selection>)
    requires S.Advances(play) && S.SolverReady(g) && S.Indexed(c) && S.Indexed(d)
    requires TreeScan(play, g, c).None?
    ensures S.Indexed(c + d) && TreeScan(play, g, c + d).None?
    decreases |d|
  {
    S.IndexedConcat(c, d);
    if d != [] {
      var d', x := d[..|d| - 1], d[|d| - 1];
      assert c + d == (c + d') + [x];
      TreeScanPanicked(play, g, c, d');
      TreeScanAppend(play, g, c + d', x);
    } else {
      assert c + d == c;
    }
  }

  /** A panic within a card's moves is a panic of the whole list. */
  lemma TreeScanPanickedWithin(play: S.Play, g: G.GameState, a: seq<G.Selection>, m: seq<G.Selection>, k: nat)
    requires S.Advances(play) && S.SolverReady(g) && S.Indexed(a + m) && k <= |m|
    requires S.Indexed(a + m[..k]) && TreeScan(play, g, a + m[..k]).None?
    ensures TreeScan(play, g, a + m).None?
  {
    S.SuffixSplit(a, m, k);
    TreeScanPanicked(play, g, a + m[..k], m[k..]);
  }

  /** A tree panicked by the first `k` cards panics. */
  lemma TreeScanPanicsAfter(play: S.Play, g: G.GameState, hand: Hand, row: seq<S.Move>, k: nat)
    requires S.Advances(play) && S.SolverReady(g) && k <= 4
    requires TreeScan(play, g, S.CandidatesUpTo(hand, row, k)).None?
    ensures TreeScan(play, g, S.Candidates(hand, row)).None?
  {
    S.CandidatesSplit(hand, row, k);
    TreeScanPanicked(play, g, S.CandidatesUpTo(hand, row, k), S.CandidatesFrom(hand, row, k));
  }

  /** `fill_tree`, as the source runs it: a loop over the cards of the side
      to move, each unplayed one over the moves its pool allows. */
  method FillTree(play: S.Play, g: G.GameState) returns (r: Option<Tree>)
    requires S.Advances(play) && S.SolverReady(g)
    ensures r == FillTreeF(play, g)
    decreases S.Measure(g), 2, 1
  {
    var hand := S.TurnHand(g);
    var pool := S.TurnPlayer(g).pillz;
    ghost var row := if pool < S.N then S.SplitShiftRow(pool) else [];
    var tree: Tree := map[];
    for index := 0 to 4
      invariant TreeScan(play, g, S.CandidatesUpTo(hand, row, index)) == Some(tree)
      invariant pool >= S.N ==> tree == map[] && forall i :: 0 <= i < index ==> hand.cards[i].played
    {
      var t := FillTreeAt(play, g, index, row, tree);
      if t.None? {
        return None;
      }
      if pool >= S.N {
        forall i | 0 <= i < index + 1
          ensures hand.cards[i].played
        {
        }
      }
      tree := t.value;
    }
    r := Some(tree);
  }

  /** One card in the loop of `FillTree`: skipped when played, otherwise
      each of its moves inserted. */
  method FillTreeAt(play: S.Play, g: G.GameState, index: nat, ghost row: seq<S.Move>, tree: Tree)
    returns (r: Option<Tree>)
    requires S.Advances(play) && S.SolverReady(g) && index < 4
    requires row == (if S.TurnPlayer(g).pillz < S.N then S.SplitShiftRow(S.TurnPlayer(g).pillz) else [])
    requires TreeScan(play, g, S.CandidatesUpTo(S.TurnHand(g), row, index)) == Some(tree)
    ensures r.None? ==> FillTreeF(play, g).None?
    ensures r.Some? ==> TreeScan(play, g, S.CandidatesUpTo(S.TurnHand(g), row, index + 1)) == r
    ensures r.Some? && S.TurnPlayer(g).pillz >= S.N ==> S.TurnHand(g).cards[index].played && r == Some(tree)
    decreases S.Measure(g), 2, 0
  {
    var hand := S.TurnHand(g);
    if hand.cards[index].played {
      assert S.CandidatesUpTo(hand, row, index + 1) == S.CandidatesUpTo(hand, row, index);
      return Some(tree);
    }
    var range := S.SplitShiftRange(S.TurnPlayer(g).pillz);
    if range.None? {
      assert !AllPlayed(hand);
      return None;
    }
    assert range.value == row;
    var before := S.CandidatesUpTo(hand, row, index);
    assert S.CardMoves(hand, row, index) == S.Moves(index, row);
    r := FillTreeCard(play, g, before, index, range.value, tree);
    if r.None? {
      TreeScanPanicsAfter(play, g, hand, row, index + 1);
    }
  }

  /** The inner loop of `fill_tree`: the moves of one card inserted after
      the selections `before` built `tree`. */
  method FillTreeCard(play: S.Play, g: G.GameState, ghost before: seq<G.Selection>, index: nat,
                      range: seq<S.Move>, tree: Tree) returns (r: Option<Tree>)
    requires S.Advances(play) && S.SolverReady(g) && index < 4 && S.Indexed(before)
    requires TreeScan(play, g, before) == Some(tree)
    ensures S.Indexed(before + S.Moves(index, range))
    ensures r == TreeScan(play, g, before + S.Moves(index, range))
    decreases S.Measure(g), 1
  {
    ghost var moves := S.Moves(index, range);
    S.IndexedConcat(before, moves);
    var acc := tree;
    assert before + moves[..0] == before;
    for j := 0 to |range|
      invariant S.Indexed(before + moves[..j])
      invariant TreeScan(play, g, before + moves[..j]) == Some(acc)
    {
      var sel := G.Selection(index, range[j].0, range[j].1);
      S.CardPrefixStep(before, moves, j);
      TreeScanAppend(play, g, before + moves[..j], sel);
      var t := FillTreeLeaf(play, g, sel);
      if t.None? {
        TreeScanPanickedWithin(play, g, before, moves, j + 1);
        return None;
      }
      acc := acc[sel := t.value];
    }
    assert moves[..|range|] == moves;
    r := Some(acc);
  }

  /** One selection of `fill_tree`: select on a copy of the game, then
      record its status, or the tree below while it goes on. */
  method FillTreeLeaf(play: S.Play, g: G.GameState, sel: G.Selection) returns (t: Option<ResultsTree>)
    requires S.Advances(play) && S.SolverReady(g) && sel.index < 4
    ensures t == SubTree(play, g, sel)
    decreases S.Measure(g), 0
  {
    var next := play(g, sel).0;
    var status := G.StatusF(next);
    if status == G.GameStatus.Playing {
      var below := FillTree(play, next);
      if below.None? {
        return None;
      }
      t := Some(Map(below.value));
    } else if status == G.GameStatus.Draw {
      t := Some(Draw);
    } else if status == G.GameStatus.OpponentWins {
      t := Some(OpponentWin);
    } else {
      t := Some(PlayerWin);
    }
  }

  /** The keys of a tree `fill_tree` builds are exactly the selections of
      an unplayed card with moves the pool of the side to move affords. */
  lemma FillTreeKeys(play: S.Play, g: G.GameState)
    requires S.Advances(play) && S.SolverReady(g) && FillTreeF(play, g).Some?
    ensures var m := FillTreeF(play, g).value; var hand := S.TurnHand(g); var pool := S.TurnPlayer(g).pillz;
      forall s :: s in m <==> s.index < 4 && !hand.cards[s.index].played && S.Affordable(pool, (s.pillz, s.fury))
  {
    var m := FillTreeF(play, g).value;
    var hand := S.TurnHand(g);
    var pool := S.TurnPlayer(g).pillz;
    if pool < S.N {
      var row := S.SplitShiftRow(pool);
      var cs := S.Candidates(hand, row);
      TreeScanCollects(play, g, cs);
      CollectShape(SubTrees(play, g, cs), cs);
      S.SplitShiftRowMembers(pool);
      forall s
        ensures s in m <==> s.index < 4 && !hand.cards[s.index].played && S.Affordable(pool, (s.pillz, s.fury))
      {
        S.CandidateMembers(hand, row, s);
      }
    }
  }

  /** Each node of a tree `fill_tree` builds mirrors the status after its
      selection, and below a node still in play lies the tree of the game
      after it. */
  lemma FillTreeNodes(play: S.Play, g: G.GameState)
    requires S.Advances(play) && S.SolverReady(g) && FillTreeF(play, g).Some?
    ensures var m := FillTreeF(play, g).value;
      forall s :: s in m ==> (s.index < 4 && Mirrors(m[s], G.StatusF(play(g, s).0)) &&
        (m[s].Map? ==> S.SolverReady(play(g, s).0) && FillTreeF(play, play(g, s).0) == Some(m[s].children)))
  {
    var m := FillTreeF(play, g).value;
    var pool := S.TurnPlayer(g).pillz;
    if pool < S.N {
      var cs := S.Candidates(S.TurnHand(g), S.SplitShiftRow(pool));
      TreeScanCollects(play, g, cs);
      CollectShape(SubTrees(play, g, cs), cs);
      forall s | s in m
        ensures s.index < 4 && Mirrors(m[s], G.StatusF(play(g, s).0)) &&
          (m[s].Map? ==> S.SolverReady(play(g, s).0) && FillTreeF(play, play(g, s).0) == Some(m[s].children))
      {
        var k :| 0 <= k < |cs| && cs[k] == s && SubTrees(play, g, cs)[k] == Some(m[s]);
        assert SubTree(play, g, s) == Some(m[s]);
      }
    }
  }

  /** `fill_tree` panics exactly when the pool is outside the tables while a
      card is left, or the tree after some selection panics. */
  lemma FillTreePanics(play: S.Play, g: G.GameState)
    requires S.Advances(play) && S.SolverReady(g)
    ensures var hand := S.TurnHand(g); var pool := S.TurnPlayer(g).pillz;
      FillTreeF(play, g).None? <==>
        (pool >= S.N && !AllPlayed(hand)) ||
        (pool < S.N && exists s: G.Selection :: (s.index < 4 && !hand.cards[s.index].played &&
           S.Affordable(pool, (s.pillz, s.fury)) && SubTree(play, g, s).None?))
  {
    var hand := S.TurnHand(g);
    var pool := S.TurnPlayer(g).pillz;
    if pool < S.N {
      var row := S.SplitShiftRow(pool);
      var cs := S.Candidates(hand, row);
      var ts := SubTrees(play, g, cs);
      TreeScanCollects(play, g, cs);
      CollectShape(ts, cs);
      S.SplitShiftRowMembers(pool);
      if Collect(ts, cs).None? {
        var k :| 0 <= k < |ts| && ts[k].None?;
        S.CandidateMembers(hand, row, cs[k]);
      }
      forall s: G.Selection | s.index < 4 && !hand.cards[s.index].played &&
          S.Affordable(pool, (s.pillz, s.fury)) && SubTree(play, g, s).None?
        ensures Collect(ts, cs).None?
      {
        S.CandidateMembers(hand, row, s);
        var k :| 0 <= k < |cs| && cs[k] == s;
        assert ts[k].None?;
      }
    }
  }

  // ---------------------------------------------------------------------
  // The worst score of a tree
  // ---------------------------------------------------------------------

  /** The worst component of `get_score`: a win scores 2, a draw 1, a loss
      -2, and a map the least of 1 and its children's scores, so a map
      scores -2 exactly when a child does and 1 otherwise. */
  function WorstScore(t: ResultsTree): int
  {
    match t
    case PlayerWin => 2
    case OpponentWin => -2
    case Draw => 1
    case Map(m) => if exists s :: s in m && WorstScore(m[s]) == -2 then -2 else 1
  }

  /** `get_score`'s worst component, as the source runs it: a loop over the
      map keeping the least of 1 and the children's scores. */
  method GetScore(t: ResultsTree) returns (worst: int)
    ensures worst == WorstScore(t)
    decreases t
  {
    match t {
      case PlayerWin => worst := 2;
      case OpponentWin => worst := -2;
      case Draw => worst := 1;
      case Map(m) =>
        worst := 1;
        var rest := m.Keys;
        while rest != {}
          invariant rest <= m.Keys
          invariant worst == (if exists s :: s in m && s !in rest && WorstScore(m[s]) == -2 then -2 else 1)
          decreases rest
        {
          var s :| s in rest;
          var score := GetScore(m[s]);
          worst := if score < worst then score else worst;
          rest := rest - {s};
        }
    }
  }

  /** A map's score is the least of 1 and its children's scores. */
  lemma WorstIsMinimum(m: Tree)
    ensures var w := WorstScore(Map(m));
      w <= 1 && (forall s :: s in m ==> w <= WorstScore(m[s])) &&
      (w == 1 || exists s :: s in m && WorstScore(m[s]) == w)
  {
    forall s | s in m
      ensures WorstScore(m[s]) >= -2
    {
    }
  }

  /** Only a win scores 2: a map never does, however its lines end. */
  lemma WorstTwoOnlyWin(t: ResultsTree)
    ensures WorstScore(t) == 2 <==> t == PlayerWin
  {
  }

  /** The node reached from `t` by following the selections of `path`. */
  function Follow(t: ResultsTree, path: seq<G.Selection>): Option<ResultsTree>
    decreases |path|
  {
    if path == [] then Some(t)
    else if t.Map? && path[0] in t.children then Follow(t.children[path[0]], path[1..])
    else None
  }

  /** A tree scores -2 exactly when some line of play in it ends in a loss
      for the first player. */
  lemma WorstLosesIffReachable(t: ResultsTree)
    ensures WorstScore(t) == -2 <==> exists path :: Follow(t, path) == Some(OpponentWin)
  {
    if WorstScore(t) == -2 {
      var path := LossPath(t);
    }
    if exists path :: Follow(t, path) == Some(OpponentWin) {
      var path :| Follow(t, path) == Some(OpponentWin);
      PathLoses(t, path);
    }
  }

  /** A line of play to a loss in a tree scoring -2. */
  lemma {:induction false} LossPath(t: ResultsTree) returns (path: seq<G.Selection>)
    requires WorstScore(t) == -2
    ensures Follow(t, path) == Some(OpponentWin)
    decreases t
  {
    if t == OpponentWin {
      path := [];
    } else {
      var m := t.children;
      var s :| s in m && WorstScore(m[s]) == -2;
      var rest := LossPath(m[s]);
      path := [s] + rest;
      assert path[1..] == rest;
    }
  }

  /** A tree with a line of play to a loss scores -2. */
  lemma {:induction false} PathLoses(t: ResultsTree, path: seq<G.Selection>)
    requires Follow(t, path) == Some(OpponentWin)
    ensures WorstScore(t) == -2
    decreases |path|
  {
    if path != [] {
      var s := path[0];
      PathLoses(t.children[s], path[1..]);
      assert t.Map? && s in t.children && WorstScore(t.children[s]) == -2;
      assert exists s' :: s' in t.children && WorstScore(t.children[s']) == -2;
    }
  }

  // ---------------------------------------------------------------------
  // fill_tree_abab
  // ---------------------------------------------------------------------

  /** Fighting a round with both sides' selections at once. `select_both` is
      not defined in the repository; the tree is written for any transition
      whose surviving games stay in range and come closer to the end. */
  type Both = (G.GameState, G.Selection, G.Selection) -> G.GameState

  /** The law the tree relies on: a round the game survives leaves a game
      the tree may continue from, closer to the end. */
  ghost predicate BothAdvances(both: Both)
  {
    forall g: G.GameState, s1: G.Selection, s2: G.Selection ::
      S.SolverReady(g) && s1.index < 4 && s2.index < 4 && G.StatusF(both(g, s1, s2)) == G.GameStatus.Playing ==>
      S.SolverReady(both(g, s1, s2)) && 0 <= S.Measure(both(g, s1, s2)) < S.Measure(g)
  }

  /** Player 2's cards the inner loop takes: unplayed ones, and only the
      committed card once player 2 has committed. */
  predicate Answers(g: G.GameState, i: nat)
    requires i < 4
  {
    (g.s2.Some? ==> g.s2.value.index == i) && !g.board.h2.cards[i].played
  }

  /** No card of player 2 is taken. */
  predicate NoAnswers(g: G.GameState)
  {
    forall i :: 0 <= i < 4 ==> !Answers(g, i)
  }

  /** Player 2's selections from the first `k` cards, in search order. */
  function AnswersUpTo(g: G.GameState, row: seq<S.Move>, k: nat): (r: seq<G.Selection>)
    requires k <= 4
    ensures S.Below(r, k)
  {
    if k == 0 then []
    else
      var prev := AnswersUpTo(g, row, k - 1);
      var next := if Answers(g, k - 1) then S.Moves(k - 1, row) else [];
      assert S.Below(prev + next, k) by {
        forall j | 0 <= j < |prev + next|
          ensures (prev + next)[j].index < k
        {
          if j >= |prev| {
            assert (prev + next)[j] == next[j - |prev|];
          }
        }
      }
      prev + next
  }

  /** A selection is an answer exactly when it names a card player 2 may
      take and a move of the row. */
  lemma {:induction false} AnswersUpToMembers(g: G.GameState, row: seq<S.Move>, k: nat, s: G.Selection)
    requires k <= 4
    ensures s in AnswersUpTo(g, row, k) <==> s.index < k && Answers(g, s.index) && (s.pillz, s.fury) in row
  {
    if k > 0 {
      AnswersUpToMembers(g, row, k - 1, s);
      if s.index == k - 1 && Answers(g, s.index) && (s.pillz, s.fury) in row {
        var j :| 0 <= j < |row| && row[j] == (s.pillz, s.fury);
        assert S.Moves(k - 1, row)[j] == s;
      }
    }
  }

  /** Player 2's selections from cards `k..4`. */
  function AnswersFrom(g: G.GameState, row: seq<S.Move>, k: nat): (r: seq<G.Selection>)
    requires k <= 4
    ensures S.Indexed(r)
    decreases 4 - k
  {
    if k == 4 then []
    else
      var next := if Answers(g, k) then S.Moves(k, row) else [];
      var rest := AnswersFrom(g, row, k + 1);
      S.IndexedConcat(next, rest);
      next + rest
  }

  /** The answers split at any card. */
  lemma {:induction false} AnswersSplit(g: G.GameState, row: seq<S.Move>, k: nat)
    requires k <= 4
    ensures AnswersUpTo(g, row, 4) == AnswersUpTo(g, row, k) + AnswersFrom(g, row, k)
    decreases 4 - k
  {
    if k < 4 {
      AnswersSplit(g, row, k + 1);
      var next := if Answers(g, k) then S.Moves(k, row) else [];
      assert AnswersFrom(g, row, k) == next + AnswersFrom(g, row, k + 1);
      assert AnswersUpTo(g, row, k + 1) == AnswersUpTo(g, row, k) + next;
    }
  }

  /** Without a card player 2 may take there is no answer. */
  lemma {:induction false} NoAnswersEmpty(g: G.GameState, row: seq<S.Move>, k: nat)
    requires k <= 4 && NoAnswers(g)
    ensures AnswersUpTo(g, row, k) == []
  {
    if k > 0 {
      NoAnswersEmpty(g, row, k - 1);
    }
  }

  /** `fill_tree_abab`: for every unplayed card of player 1 and every move
      its pool affords, the map of player 2's answers; `None` is a panic. */
  function AbabF(both: Both, g: G.GameState): Option<Tree>
    requires BothAdvances(both) && S.SolverReady(g)
    decreases S.Measure(g), 4, 0
  {
    var pool1 := g.board.p1.pillz;
    if pool1 < S.N then BranchScan(both, g, S.Candidates(g.board.h1, S.SplitShiftRow(pool1)))
    else if AllPlayed(g.board.h1) then Some(map[])
    else None
  }

  /** Player 1's selections inserted in order, each over its answers. */
  function BranchScan(both: Both, g: G.GameState, cs: seq<G.Selection>): Option<Tree>
    requires BothAdvances(both) && S.SolverReady(g) && S.Indexed(cs)
    decreases S.Measure(g), 3, |cs|
  {
    if cs == [] then Some(map[])
    else
      var last := cs[|cs| - 1];
      Extend(BranchScan(both, g, cs[..|cs| - 1]), Branch(both, g, last), last)
  }

  /** The node under one selection of player 1: the map of the answers. */
  function Branch(both: Both, g: G.GameState, s1: G.Selection): Option<ResultsTree>
    requires BothAdvances(both) && S.SolverReady(g) && s1.index < 4
    decreases S.Measure(g), 2
  {
    match Replies(both, g, s1)
    case None => None
    case Some(r) => Some(Map(r))
  }

  /** The answers to `s1`: every move player 2's pool affords on every card
      player 2 may take. */
  function Replies(both: Both, g: G.GameState, s1: G.Selection): Option<Tree>
    requires BothAdvances(both) && S.SolverReady(g) && s1.index < 4
    decreases S.Measure(g), 1, 1
  {
    var pool2 := g.board.p2.pillz;
    if pool2 < S.N then ReplyScan(both, g, s1, AnswersUpTo(g, S.SplitShiftRow(pool2), 4))
    else if NoAnswers(g) then Some(map[])
    else None
  }

  /** Player 2's answers inserted in order. */
  function ReplyScan(both: Both, g: G.GameState, s1: G.Selection, cs: seq<G.Selection>): Option<Tree>
    requires BothAdvances(both) && S.SolverReady(g) && s1.index < 4 && S.Indexed(cs)
    decreases S.Measure(g), 1, 0, |cs|
  {
    if cs == [] then Some(map[])
    else
      var last := cs[|cs| - 1];
      Extend(ReplyScan(both, g, s1, cs[..|cs| - 1]), BothTree(both, g, s1, last), last)
  }

  /** The node after fighting the round with `s1` and `s2`. */
  function BothTree(both: Both, g: G.GameState, s1: G.Selection, s2: G.Selection): Option<ResultsTree>
    requires BothAdvances(both) && S.SolverReady(g) && s1.index < 4 && s2.index < 4
    decreases S.Measure(g), 0
  {
    var next := both(g, s1, s2);
    var st := G.StatusF(next);
    if st == G.GameStatus.Playing then
      match AbabF(both, next)
      case None => None
      case Some(c) => Some(Map(c))
    else Some(Leaf(st))
  }

  /** The branches of a list of player 1's selections. */
  function Branches(both: Both, g: G.GameState, cs: seq<G.Selection>): (ts: seq<Option<ResultsTree>>)
    requires BothAdvances(both) && S.SolverReady(g) && S.Indexed(cs)
    ensures |ts| == |cs| && forall k :: 0 <= k < |cs| ==> ts[k] == Branch(both, g, cs[k])
  {
    seq(|cs|, k requires 0 <= k < |cs| => Branch(both, g, cs[k]))
  }

  /** The nodes of a list of player 2's answers. */
  function BothTrees(both: Both, g: G.GameState, s1: G.Selection, cs: seq<G.Selection>): (ts: seq<Option<ResultsTree>>)
    requires BothAdvances(both) && S.SolverReady(g) && s1.index < 4 && S.Indexed(cs)
    ensures |ts| == |cs| && forall k :: 0 <= k < |cs| ==> ts[k] == BothTree(both, g, s1, cs[k])
  {
    seq(|cs|, k requires 0 <= k < |cs| => BothTree(both, g, s1, cs[k]))
  }

  lemma {:induction false} BranchScanCollects(both: Both, g: G.GameState, cs: seq<G.Selection>)
    requires BothAdvances(both) && S.SolverReady(g) && S.Indexed(cs)
    ensures BranchScan(both, g, cs) == Collect(Branches(both, g, cs), cs)
    decreases |cs|
  {
    if cs != [] {
      var n := |cs| - 1;
      BranchScanCollects(both, g, cs[..n]);
      BranchesPrefix(both, g, cs, n);
    }
  }

  lemma BranchesPrefix(both: Both, g: G.GameState, cs: seq<G.Selection>, n: nat)
    requires BothAdvances(both) && S.SolverReady(g) && S.Indexed(cs) && n <= |cs|
    ensures S.Indexed(cs[..n]) && Branches(both, g, cs)[..n] == Branches(both, g, cs[..n])
  {
    assert S.Indexed(cs[..n]);
    var a, b := Branches(both, g, cs)[..n], Branches(both, g, cs[..n]);
    forall k | 0 <= k < n
      ensures a[k] == b[k]
    {
      assert cs[..n][k] == cs[k];
    }
  }

  lemma {:induction false} ReplyScanCollects(both: Both, g: G.GameState, s1: G.Selection, cs: seq<G.Selection>)
    requires BothAdvances(both) && S.SolverReady(g) && s1.index < 4 && S.Indexed(cs)
    ensures ReplyScan(both, g, s1, cs) == Collect(BothTrees(both, g, s1, cs), cs)
    decreases |cs|
  {
    if cs != [] {
      var n := |cs| - 1;
      ReplyScanCollects(both, g, s1, cs[..n]);
      BothTreesPrefix(both, g, s1, cs, n);
    }
  }

  lemma BothTreesPrefix(both: Both, g: G.GameState, s1: G.Selection, cs: seq<G.Selection>, n: nat)
    requires BothAdvances(both) && S.SolverReady(g) && s1.index < 4 && S.Indexed(cs) && n <= |cs|
    ensures S.Indexed(cs[..n]) && BothTrees(both, g, s1, cs)[..n] == BothTrees(both, g, s1, cs[..n])
  {
    assert S.Indexed(cs[..n]);
    var a, b := BothTrees(both, g, s1, cs)[..n], BothTrees(both, g, s1, cs[..n]);
    forall k | 0 <= k < n
      ensures a[k] == b[k]
    {
      assert cs[..n][k] == cs[k];
    }
  }

  lemma BranchScanAppend(both: Both, g: G.GameState, c: seq<G.Selection>, x: G.Selection)
    requires BothAdvances(both) && S.SolverReady(g) && S.Indexed(c) && x.index < 4
    ensures S.Indexed(c + [x])
    ensures BranchScan(both, g, c + [x]) == Extend(BranchScan(both, g, c), Branch(both, g, x), x)
  {
    S.IndexedConcat(c, [x]);
    assert (c + [x])[..|c|] == c;
  }

  lemma ReplyScanAppend(both: Both, g: G.GameState, s1: G.Selection, c: seq<G.Selection>, x: G.Selection)
    requires BothAdvances(both) && S.SolverReady(g) && s1.index < 4 && S.Indexed(c) && x.index < 4
    ensures S.Indexed(c + [x])
    ensures ReplyScan(both, g, s1, c + [x]) == Extend(ReplyScan(both, g, s1, c), BothTree(both, g, s1, x), x)
  {
    S.IndexedConcat(c, [x]);
    assert (c + [x])[..|c|] == c;
  }

  lemma {:induction false} BranchScanPanicked(both: Both, g: G.GameState, c: seq<G.Selection>, d: seq<G.Selection>)
    requires BothAdvances(both) && S.SolverReady(g) && S.Indexed(c) && S.Indexed(d)
    requires BranchScan(both, g, c).None?
    ensures S.Indexed(c + d) && BranchScan(both, g, c + d).None?
    decreases |d|
  {
    S.IndexedConcat(c, d);
    if d != [] {
      var d', x := d[..|d| - 1], d[|d| - 1];
      assert c + d == (c + d') + [x];
      BranchScanPanicked(both, g, c, d');
      BranchScanAppend(both, g, c + d', x);
    } else {
      assert c + d == c;
    }
  }

  lemma {:induction false} ReplyScanPanicked(both: Both, g: G.GameState, s1: G.Selection, c: seq<G.Selection>, d: seq<G.Selection>)
    requires BothAdvances(both) && S.SolverReady(g) && s1.index < 4 && S.Indexed(c) && S.Indexed(d)
    requires ReplyScan(both, g, s1, c).None?
    ensures S.Indexed(c + d) && ReplyScan(both, g, s1, c + d).None?
    decreases |d|
  {
    S.IndexedConcat(c, d);
    if d != [] {
      var d', x := d[..|d| - 1], d[|d| - 1];
      assert c + d == (c + d') + [x];
      ReplyScanPanicked(both, g, s1, c, d');
      ReplyScanAppend(both, g, s1, c + d', x);
    } else {
      assert c + d == c;
    }
  }

  lemma BranchScanPanickedWithin(both: Both, g: G.GameState, a: seq<G.Selection>, m: seq<G.Selection>, k: nat)
    requires BothAdvances(both) && S.SolverReady(g) && S.Indexed(a + m) && k <= |m|
    requires S.Indexed(a + m[..k]) && BranchScan(both, g, a + m[..k]).None?
    ensures BranchScan(both, g, a + m).None?
  {
    S.SuffixSplit(a, m, k);
    BranchScanPanicked(both, g, a + m[..k], m[k..]);
  }

  lemma ReplyScanPanickedWithin(both: Both, g: G.GameState, s1: G.Selection, a: seq<G.Selection>, m: seq<G.Selection>, k: nat)
    requires BothAdvances(both) && S.SolverReady(g) && s1.index < 4 && S.Indexed(a + m) && k <= |m|
    requires S.Indexed(a + m[..k]) && ReplyScan(both, g, s1, a + m[..k]).None?
    ensures ReplyScan(both, g, s1, a + m).None?
  {
    S.SuffixSplit(a, m, k);
    ReplyScanPanicked(both, g, s1, a + m[..k], m[k..]);
  }

  lemma BranchScanPanicsAfter(both: Both, g: G.GameState, hand: Hand, row: seq<S.Move>, k: nat)
    requires BothAdvances(both) && S.SolverReady(g) && k <= 4
    requires BranchScan(both, g, S.CandidatesUpTo(hand, row, k)).None?
    ensures BranchScan(both, g, S.Candidates(hand, row)).None?
  {
    S.CandidatesSplit(hand, row, k);
    BranchScanPanicked(both, g, S.CandidatesUpTo(hand, row, k), S.CandidatesFrom(hand, row, k));
  }

  lemma ReplyScanPanicsAfter(both: Both, g: G.GameState, s1: G.Selection, row: seq<S.Move>, k: nat)
    requires BothAdvances(both) && S.SolverReady(g) && s1.index < 4 && k <= 4
    requires ReplyScan(both, g, s1, AnswersUpTo(g, row, k)).None?
    ensures ReplyScan(both, g, s1, AnswersUpTo(g, row, 4)).None?
  {
    AnswersSplit(g, row, k);
    ReplyScanPanicked(both, g, s1, AnswersUpTo(g, row, k), AnswersFrom(g, row, k));
  }

  /** `fill_tree_abab`, as the source runs it: a loop over player 1's cards,
      each unplayed one over the moves its pool allows. */
  method FillTreeAbab(both: Both, g: G.GameState) returns (r: Option<Tree>)
    requires BothAdvances(both) && S.SolverReady(g)
    ensures r == AbabF(both, g)
    decreases S.Measure(g), 4, 2
  {
    var hand := g.board.h1;
    var pool1 := g.board.p1.pillz;
    ghost var row := if pool1 < S.N then S.SplitShiftRow(pool1) else [];
    var tree: Tree := map[];
    for i1 := 0 to 4
      invariant BranchScan(both, g, S.CandidatesUpTo(hand, row, i1)) == Some(tree)
      invariant pool1 >= S.N ==> tree == map[] && forall i :: 0 <= i < i1 ==> hand.cards[i].played
    {
      var t := AbabAt(both, g, i1, row, tree);
      if t.None? {
        return None;
      }
      if pool1 >= S.N {
        forall i | 0 <= i < i1 + 1
          ensures hand.cards[i].played
        {
        }
      }
      tree := t.value;
    }
    r := Some(tree);
  }

  /** One card of player 1 in the loop of `FillTreeAbab`: skipped when
      played, otherwise each of its moves inserted over its answers. */
  method AbabAt(both: Both, g: G.GameState, i1: nat, ghost row: seq<S.Move>, tree: Tree) returns (r: Option<Tree>)
    requires BothAdvances(both) && S.SolverReady(g) && i1 < 4
    requires row == (if g.board.p1.pillz < S.N then S.SplitShiftRow(g.board.p1.pillz) else [])
    requires BranchScan(both, g, S.CandidatesUpTo(g.board.h1, row, i1)) == Some(tree)
    ensures r.None? ==> AbabF(both, g).None?
    ensures r.Some? ==> BranchScan(both, g, S.CandidatesUpTo(g.board.h1, row, i1 + 1)) == r
    ensures r.Some? && g.board.p1.pillz >= S.N ==> g.board.h1.cards[i1].played && r == Some(tree)
    decreases S.Measure(g), 4, 1
  {
    var hand := g.board.h1;
    if hand.cards[i1].played {
      assert S.CandidatesUpTo(hand, row, i1 + 1) == S.CandidatesUpTo(hand, row, i1);
      return Some(tree);
    }
    var range := S.SplitShiftRange(g.board.p1.pillz);
    if range.None? {
      assert !AllPlayed(hand);
      return None;
    }
    assert range.value == row;
    r := AbabMoves(both, g, i1, range.value, tree);
  }

  /** The moves of an unplayed card of player 1, inserted after the cards
      before it. */
  method AbabMoves(both: Both, g: G.GameState, i1: nat, row: seq<S.Move>, tree: Tree) returns (r: Option<Tree>)
    requires BothAdvances(both) && S.SolverReady(g) && i1 < 4 && !g.board.h1.cards[i1].played
    requires g.board.p1.pillz < S.N && row == S.SplitShiftRow(g.board.p1.pillz)
    requires BranchScan(both, g, S.CandidatesUpTo(g.board.h1, row, i1)) == Some(tree)
    ensures r.None? ==> BranchScan(both, g, S.Candidates(g.board.h1, row)).None?
    ensures r.Some? ==> BranchScan(both, g, S.CandidatesUpTo(g.board.h1, row, i1 + 1)) == r
    decreases S.Measure(g), 4, 0
  {
    var hand := g.board.h1;
    var before := S.CandidatesUpTo(hand, row, i1);
    assert S.CardMoves(hand, row, i1) == S.Moves(i1, row);
    r := AbabCard(both, g, before, i1, row, tree);
    if r.None? {
      BranchScanPanicsAfter(both, g, hand, row, i1 + 1);
    }
  }

  /** The moves of one card of player 1, each inserted as the map of its
      answers. */
  method AbabCard(both: Both, g: G.GameState, ghost before: seq<G.Selection>, i1: nat,
                  range: seq<S.Move>, tree: Tree) returns (r: Option<Tree>)
    requires BothAdvances(both) && S.SolverReady(g) && i1 < 4 && S.Indexed(before)
    requires BranchScan(both, g, before) == Some(tree)
    ensures S.Indexed(before + S.Moves(i1, range))
    ensures r == BranchScan(both, g, before + S.Moves(i1, range))
    decreases S.Measure(g), 3
  {
    ghost var moves := S.Moves(i1, range);
    S.IndexedConcat(before, moves);
    var acc := tree;
    assert before + moves[..0] == before;
    for j := 0 to |range|
      invariant S.Indexed(before + moves[..j])
      invariant BranchScan(both, g, before + moves[..j]) == Some(acc)
    {
      var s1 := G.Selection(i1, range[j].0, range[j].1);
      S.CardPrefixStep(before, moves, j);
      BranchScanAppend(both, g, before + moves[..j], s1);
      var tree1 := AbabReplies(both, g, s1);
      if tree1.None? {
        BranchScanPanickedWithin(both, g, before, moves, j + 1);
        return None;
      }
      acc := acc[s1 := Map(tree1.value)];
    }
    assert moves[..|range|] == moves;
    r := Some(acc);
  }

  /** The answers to `s1`: a loop over player 2's cards, skipping all but
      the committed one once player 2 has committed, and played ones. */
  method AbabReplies(both: Both, g: G.GameState, s1: G.Selection) returns (r: Option<Tree>)
    requires BothAdvances(both) && S.SolverReady(g) && s1.index < 4
    ensures r == Replies(both, g, s1)
    decreases S.Measure(g), 2
  {
    var p2Index := if g.s2.Some? then Some(g.s2.value.index) else None;
    var pool2 := g.board.p2.pillz;
    ghost var row := if pool2 < S.N then S.SplitShiftRow(pool2) else [];
    var tree1: Tree := map[];
    for i2 := 0 to 4
      invariant ReplyScan(both, g, s1, AnswersUpTo(g, row, i2)) == Some(tree1)
      invariant pool2 >= S.N ==> tree1 == map[] && forall i :: 0 <= i < i2 ==> !Answers(g, i)
    {
      var t := AbabAnswerCard(both, g, s1, p2Index, i2, row, tree1);
      if t.None? {
        return None;
      }
      if pool2 >= S.N {
        forall i | 0 <= i < i2 + 1
          ensures !Answers(g, i)
        {
        }
      }
      tree1 := t.value;
    }
    r := Some(tree1);
  }

  /** One card of player 2 in the loop of `AbabReplies`: skipped, or each
      of its moves fought against `s1`. */
  method AbabAnswerCard(both: Both, g: G.GameState, s1: G.Selection, p2Index: Option<Usize>, i2: nat,
                        ghost row: seq<S.Move>, tree1: Tree) returns (r: Option<Tree>)
    requires BothAdvances(both) && S.SolverReady(g) && s1.index < 4 && i2 < 4
    requires p2Index == (if g.s2.Some? then Some(g.s2.value.index) else None)
    requires row == (if g.board.p2.pillz < S.N then S.SplitShiftRow(g.board.p2.pillz) else [])
    requires ReplyScan(both, g, s1, AnswersUpTo(g, row, i2)) == Some(tree1)
    ensures r.None? ==> Replies(both, g, s1).None?
    ensures r.Some? ==> ReplyScan(both, g, s1, AnswersUpTo(g, row, i2 + 1)) == r
    ensures r.Some? && g.board.p2.pillz >= S.N ==> !Answers(g, i2) && r == Some(tree1)
    decreases S.Measure(g), 1, 2
  {
    if (p2Index.Some? && i2 != p2Index.value) || g.board.h2.cards[i2].played {
      assert !Answers(g, i2);
      assert AnswersUpTo(g, row, i2 + 1) == AnswersUpTo(g, row, i2);
      return Some(tree1);
    }
    assert Answers(g, i2);
    var range := S.SplitShiftRange(g.board.p2.pillz);
    if range.None? {
      assert !NoAnswers(g);
      return None;
    }
    assert range.value == row;
    r := AbabAnswerMoves(both, g, s1, i2, range.value, tree1);
  }

  /** The moves of a card player 2 may answer with, inserted after the
      answers before it. */
  method AbabAnswerMoves(both: Both, g: G.GameState, s1: G.Selection, i2: nat, row: seq<S.Move>, tree1: Tree)
    returns (r: Option<Tree>)
    requires BothAdvances(both) && S.SolverReady(g) && s1.index < 4 && i2 < 4 && Answers(g, i2)
    requires g.board.p2.pillz < S.N && row == S.SplitShiftRow(g.board.p2.pillz)
    requires ReplyScan(both, g, s1, AnswersUpTo(g, row, i2)) == Some(tree1)
    ensures r.None? ==> ReplyScan(both, g, s1, AnswersUpTo(g, row, 4)).None?
    ensures r.Some? ==> ReplyScan(both, g, s1, AnswersUpTo(g, row, i2 + 1)) == r
    decreases S.Measure(g), 1, 1
  {
    var before := AnswersUpTo(g, row, i2);
    r := AbabReplyCard(both, g, s1, before, i2, row, tree1);
    assert AnswersUpTo(g, row, i2 + 1) == before + S.Moves(i2, row);
    if r.None? {
      ReplyScanPanicsAfter(both, g, s1, row, i2 + 1);
    }
  }

  /** The moves of one card of player 2, each fought against `s1`. */
  method AbabReplyCard(both: Both, g: G.GameState, s1: G.Selection, ghost before: seq<G.Selection>, i2: nat,
                       range: seq<S.Move>, tree1: Tree) returns (r: Option<Tree>)
    requires BothAdvances(both) && S.SolverReady(g) && s1.index < 4 && i2 < 4 && S.Indexed(before)
    requires ReplyScan(both, g, s1, before) == Some(tree1)
    ensures S.Indexed(before + S.Moves(i2, range))
    ensures r == ReplyScan(both, g, s1, before + S.Moves(i2, range))
    decreases S.Measure(g), 1, 0
  {
    ghost var moves := S.Moves(i2, range);
    S.IndexedConcat(before, moves);
    var acc := tree1;
    assert before + moves[..0] == before;
    for j := 0 to |range|
      invariant S.Indexed(before + moves[..j])
      invariant ReplyScan(both, g, s1, before + moves[..j]) == Some(acc)
    {
      var s2 := G.Selection(i2, range[j].0, range[j].1);
      S.CardPrefixStep(before, moves, j);
      ReplyScanAppend(both, g, s1, before + moves[..j], s2);
      var t := AbabLeaf(both, g, s1, s2);
      if t.None? {
        ReplyScanPanickedWithin(both, g, s1, before, moves, j + 1);
        return None;
      }
      acc := acc[s2 := t.value];
    }
    assert moves[..|range|] == moves;
    r := Some(acc);
  }

  /** One pair of selections: fight the round on a copy of the game, then
      record its status, or the tree below while it goes on. */
  method AbabLeaf(both: Both, g: G.GameState, s1: G.Selection, s2: G.Selection) returns (t: Option<ResultsTree>)
    requires BothAdvances(both) && S.SolverReady(g) && s1.index < 4 && s2.index < 4
    ensures t == BothTree(both, g, s1, s2)
    decreases S.Measure(g), 0
  {
    var next := both(g, s1, s2);
    var status := G.StatusF(next);
    if status == G.GameStatus.PlayerWins {
      t := Some(PlayerWin);
    } else if status == G.GameStatus.OpponentWins {
      t := Some(OpponentWin);
    } else if status == G.GameStatus.Draw {
      t := Some(Draw);
    } else {
      var below := FillTreeAbab(both, next);
      if below.None? {
        return None;
      }
      t := Some(Map(below.value));
    }
  }

  /** The tree has one key per unplayed card of player 1 and move its pool
      affords, each holding the map of player 2's answers. */
  lemma AbabShape(both: Both, g: G.GameState)
    requires BothAdvances(both) && S.SolverReady(g) && AbabF(both, g).Some?
    ensures var m := AbabF(both, g).value; var pool1 := g.board.p1.pillz;
      forall s1 :: s1 in m <==>
        s1.index < 4 && !g.board.h1.cards[s1.index].played && S.Affordable(pool1, (s1.pillz, s1.fury))
    ensures var m := AbabF(both, g).value;
      forall s1 :: s1 in m ==> (s1.index < 4 && m[s1].Map? && Replies(both, g, s1) == Some(m[s1].children))
  {
    var m := AbabF(both, g).value;
    var hand := g.board.h1;
    var pool1 := g.board.p1.pillz;
    if pool1 < S.N {
      var row := S.SplitShiftRow(pool1);
      var cs := S.Candidates(hand, row);
      BranchScanCollects(both, g, cs);
      CollectShape(Branches(both, g, cs), cs);
      S.SplitShiftRowMembers(pool1);
      forall s1
        ensures s1 in m <==> s1.index < 4 && !hand.cards[s1.index].played && S.Affordable(pool1, (s1.pillz, s1.fury))
      {
        S.CandidateMembers(hand, row, s1);
      }
      forall s1 | s1 in m
        ensures s1.index < 4 && m[s1].Map? && Replies(both, g, s1) == Some(m[s1].children)
      {
        var k :| 0 <= k < |cs| && cs[k] == s1 && Branches(both, g, cs)[k] == Some(m[s1]);
        assert Branch(both, g, s1) == Some(m[s1]);
      }
    }
  }

  /** The answers to `s1` have one key per move player 2's pool affords on a
      card player 2 may take: unplayed, and the committed one when player 2
      has committed. */
  lemma RepliesKeys(both: Both, g: G.GameState, s1: G.Selection)
    requires BothAdvances(both) && S.SolverReady(g) && s1.index < 4 && Replies(both, g, s1).Some?
    ensures var r := Replies(both, g, s1); var pool2 := g.board.p2.pillz;
      forall s2 :: s2 in r.value <==>
        s2.index < 4 && !g.board.h2.cards[s2.index].played && (g.s2.Some? ==> s2.index == g.s2.value.index) &&
        S.Affordable(pool2, (s2.pillz, s2.fury))
  {
    var r := Replies(both, g, s1).value;
    var pool2 := g.board.p2.pillz;
    if pool2 < S.N {
      var row := S.SplitShiftRow(pool2);
      var cs := AnswersUpTo(g, row, 4);
      ReplyScanCollects(both, g, s1, cs);
      CollectShape(BothTrees(both, g, s1, cs), cs);
      S.SplitShiftRowMembers(pool2);
      forall s2
        ensures s2 in r <==>
          s2.index < 4 && !g.board.h2.cards[s2.index].played && (g.s2.Some? ==> s2.index == g.s2.value.index) &&
          S.Affordable(pool2, (s2.pillz, s2.fury))
      {
        AnswersUpToMembers(g, row, 4, s2);
      }
    } else {
      forall s2: G.Selection | s2.index < 4
        ensures !Answers(g, s2.index)
      {
      }
    }
  }

  /** Each answer holds the node mirroring the status after the round, with
      the tree of that game below a map. */
  lemma RepliesNodes(both: Both, g: G.GameState, s1: G.Selection)
    requires BothAdvances(both) && S.SolverReady(g) && s1.index < 4 && Replies(both, g, s1).Some?
    ensures var r := Replies(both, g, s1).value;
      forall s2 :: s2 in r ==> (s2.index < 4 && Mirrors(r[s2], G.StatusF(both(g, s1, s2))) &&
        (r[s2].Map? ==> S.SolverReady(both(g, s1, s2)) && AbabF(both, both(g, s1, s2)) == Some(r[s2].children)))
  {
    var r := Replies(both, g, s1).value;
    var pool2 := g.board.p2.pillz;
    if pool2 < S.N {
      var cs := AnswersUpTo(g, S.SplitShiftRow(pool2), 4);
      ReplyScanCollects(both, g, s1, cs);
      CollectShape(BothTrees(both, g, s1, cs), cs);
      forall s2 | s2 in r
        ensures s2.index < 4 && Mirrors(r[s2], G.StatusF(both(g, s1, s2))) &&
          (r[s2].Map? ==> S.SolverReady(both(g, s1, s2)) && AbabF(both, both(g, s1, s2)) == Some(r[s2].children))
      {
        var k :| 0 <= k < |cs| && cs[k] == s2 && BothTrees(both, g, s1, cs)[k] == Some(r[s2]);
        assert BothTree(both, g, s1, s2) == Some(r[s2]);
      }
    }
  }
}
