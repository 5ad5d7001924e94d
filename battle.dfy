// The event queues of one side: ten per-round buckets (one per phase) that
// are emptied at the end of every round, and ten global buckets that
// persist for the whole game.

module Battle {
  import opened Types
  import opened Cards
  import opened Board
  import opened Effects
  import opened Modifiers
  import opened Abilities

  /** Ten buckets, indexed by `EventTime::Index`. */
  type Buckets = s: seq<seq<Effects.Ability>> | |s| == 10 witness [[], [], [], [], [], [], [], [], [], []]

  datatype Queues = Queues(events: Buckets, global: Buckets)

  const EmptyBuckets: Buckets := [[], [], [], [], [], [], [], [], [], []]
  const EmptyQueues := Queues(EmptyBuckets, EmptyBuckets)

  /** An ability sits in bucket `k` when it has a modifier and its phase has
      index `k`. */
  predicate Placed(ab: Effects.Ability, k: nat)
  {
    |ab.modifiers| > 0 && AbilityEventTime(ab).Index() == k
  }

  /** Every queued ability is in its phase's bucket, and the per-round
      buckets hold only abilities and bonuses. */
  predicate WellFormed(q: Queues)
  {
    (forall k, ab :: 0 <= k < 10 && ab in q.events[k] ==>
       Placed(ab, k) && (ab.abilityType == AbilityType.Ability || ab.abilityType == AbilityType.Bonus)) &&
    (forall k, ab :: 0 <= k < 10 && ab in q.global[k] ==> Placed(ab, k))
  }

  /** Queueing an ability from a card: abilities and bonuses go to the
      per-round bucket of their phase, global abilities and bonuses to the
      global bucket; an ability without modifiers and a plain global are
      dropped. */
  function AddF(q: Queues, ab: Effects.Ability): Queues
  {
    if |ab.modifiers| == 0 then q
    else
      var k := AbilityEventTime(ab).Index();
      match ab.abilityType
      case Ability => q.(events := q.events[k := q.events[k] + [ab]])
      case Bonus => q.(events := q.events[k := q.events[k] + [ab]])
      case GlobalAbility => q.(global := q.global[k := q.global[k] + [ab]])
      case GlobalBonus => q.(global := q.global[k := q.global[k] + [ab]])
      case Global => q
  }

  /** Queueing keeps the queues well formed; the ability is the new last
      entry of its phase's bucket (per-round for abilities and bonuses,
      global for global abilities and bonuses) and every other bucket is
      untouched; abilities without modifiers and plain globals are not
      queued at all. */
  lemma AddPlaces(q: Queues, ab: Effects.Ability)
    ensures WellFormed(q) ==> WellFormed(AddF(q, ab))
    ensures |ab.modifiers| == 0 || ab.abilityType == AbilityType.Global ==> AddF(q, ab) == q
    ensures |ab.modifiers| > 0 && (ab.abilityType == AbilityType.Ability || ab.abilityType == AbilityType.Bonus) ==>
      var r := AddF(q, ab);
      var k := AbilityEventTime(ab).Index();
      r.global == q.global && r.events[k] == q.events[k] + [ab] &&
      forall k' :: 0 <= k' < 10 && k' != k ==> r.events[k'] == q.events[k']
    ensures |ab.modifiers| > 0 && IsGlobalKind(ab) ==>
      var r := AddF(q, ab);
      var k := AbilityEventTime(ab).Index();
      r.events == q.events && r.global[k] == q.global[k] + [ab] &&
      forall k' :: 0 <= k' < 10 && k' != k ==> r.global[k'] == q.global[k']
  {
  }

  /** Queueing a leader ability as a global, whatever its type; an ability
      without a modifier has no phase, and looking for one is the panic
      (`None`). */
  function AddGlobalF(q: Queues, ab: Effects.Ability): Option<Queues>
  {
    if |ab.modifiers| == 0 then None
    else
      var k := AbilityEventTime(ab).Index();
      Some(q.(global := q.global[k := q.global[k] + [ab]]))
  }

  /** Queueing panics exactly on an ability without a modifier; otherwise
      the ability becomes the last entry of its phase's global bucket,
      nothing else changes and the queues stay well formed. */
  lemma AddGlobalPlaces(q: Queues, ab: Effects.Ability)
    ensures AddGlobalF(q, ab).None? <==> |ab.modifiers| == 0
    ensures AddGlobalF(q, ab).Some? ==>
      var r := AddGlobalF(q, ab).value;
      (WellFormed(q) ==> WellFormed(r)) &&
      r.events == q.events &&
      r.global[AbilityEventTime(ab).Index()] == q.global[AbilityEventTime(ab).Index()] + [ab] &&
      forall k :: 0 <= k < 10 && k != AbilityEventTime(ab).Index() ==> r.global[k] == q.global[k]
  {
  }

  /** Firing the first `n` abilities of a bucket in order: the updated
      abilities, the board and the abilities spawned by copies. */
  function RunBucket(bucket: seq<Effects.Ability>, d: BattleData, b: Board, cat: Catalog, n: nat)
    : (r: (seq<Effects.Ability>, Board, seq<Effects.Ability>))
    requires n <= |bucket|
    ensures |r.0| == n
  {
    if n == 0 then ([], b, [])
    else
      var prev := RunBucket(bucket, d, b, cat, n - 1);
      var step := ApplyF(bucket[n - 1], d, prev.1, cat);
      (prev.0 + [step.0], step.1, if step.2.Some? then prev.2 + [step.2.value] else prev.2)
  }

  /** Firing keeps each ability's type, its number of modifiers and its
      phase. */
  lemma {:induction false} RunBucketShape(bucket: seq<Effects.Ability>, d: BattleData, b: Board, cat: Catalog, n: nat)
    requires n <= |bucket|
    ensures var r := RunBucket(bucket, d, b, cat, n);
      forall j :: 0 <= j < n ==>
        (r.0[j].abilityType == bucket[j].abilityType && |r.0[j].modifiers| == |bucket[j].modifiers| &&
         (|bucket[j].modifiers| > 0 ==> AbilityEventTime(r.0[j]) == AbilityEventTime(bucket[j])))
  {
    if n > 0 {
      RunBucketShape(bucket, d, b, cat, n - 1);
      var prev := RunBucket(bucket, d, b, cat, n - 1);
      var step := ApplyF(bucket[n - 1], d, prev.1, cat);
      assert RunBucket(bucket, d, b, cat, n).0 == prev.0 + [step.0];
    }
  }

  /** A fired bucket keeps every ability in its place. */
  lemma RunBucketPlaced(bucket: seq<Effects.Ability>, d: BattleData, b: Board, cat: Catalog, k: nat)
    requires forall ab :: ab in bucket ==> Placed(ab, k)
    ensures var r := RunBucket(bucket, d, b, cat, |bucket|).0;
      forall j :: 0 <= j < |r| ==> Placed(r[j], k) && r[j].abilityType == bucket[j].abilityType
  {
    var r := RunBucket(bucket, d, b, cat, |bucket|).0;
    RunBucketShape(bucket, d, b, cat, |bucket|);
    forall j | 0 <= j < |r|
      ensures Placed(r[j], k) && r[j].abilityType == bucket[j].abilityType
    {
      assert bucket[j] in bucket;
    }
  }

  /** A fired per-round bucket keeps its abilities in place and of a
      per-round type. */
  lemma RunBucketEventsPlaced(bucket: seq<Effects.Ability>, d: BattleData, b: Board, cat: Catalog, k: nat)
    requires forall ab :: ab in bucket ==>
      Placed(ab, k) && (ab.abilityType == AbilityType.Ability || ab.abilityType == AbilityType.Bonus)
    ensures forall ab :: ab in RunBucket(bucket, d, b, cat, |bucket|).0 ==>
      Placed(ab, k) && (ab.abilityType == AbilityType.Ability || ab.abilityType == AbilityType.Bonus)
  {
    var done := RunBucket(bucket, d, b, cat, |bucket|).0;
    RunBucketPlaced(bucket, d, b, cat, k);
    forall ab | ab in done
      ensures Placed(ab, k) && (ab.abilityType == AbilityType.Ability || ab.abilityType == AbilityType.Bonus)
    {
      var j :| 0 <= j < |done| && done[j] == ab;
      assert bucket[j] in bucket;
    }
  }

  /** The bucket without the abilities flagged for removal, in order. */
  function Retain(s: seq<Effects.Ability>): seq<Effects.Ability>
  {
    if |s| == 0 then []
    else
      var last := s[|s| - 1];
      Retain(s[..|s| - 1]) + (if last.remove then [] else [last])
  }

  /** Exactly the unflagged abilities are kept. */
  lemma {:induction false} RetainIff(s: seq<Effects.Ability>)
    ensures forall x :: x in Retain(s) <==> x in s && !x.remove
  {
    if |s| > 0 {
      RetainIff(s[..|s| - 1]);
      assert s == s[..|s| - 1] + [s[|s| - 1]];
    }
  }

  /** Queueing each spawned ability in turn. */
  function AddAll(q: Queues, spawned: seq<Effects.Ability>, n: nat): Queues
    requires n <= |spawned|
  {
    if n == 0 then q
    else
      AddF(AddAll(q, spawned, n - 1), spawned[n - 1])
  }

  /** `a` is a prefix of `b`. */
  predicate IsPrefix(a: seq<Effects.Ability>, b: seq<Effects.Ability>)
  {
    |a| <= |b| && b[..|a|] == a
  }

  /** Every bucket of `q` is a prefix of the same bucket of `r`. */
  predicate Extends(q: Queues, r: Queues)
  {
    forall k :: 0 <= k < 10 ==> IsPrefix(q.events[k], r.events[k]) && IsPrefix(q.global[k], r.global[k])
  }

  /** Queueing one ability only appends. */
  lemma AddExtends(q: Queues, ab: Effects.Ability)
    ensures Extends(q, AddF(q, ab))
  {
    var r := AddF(q, ab);
    forall k | 0 <= k < 10
      ensures IsPrefix(q.events[k], r.events[k]) && IsPrefix(q.global[k], r.global[k])
    {
      assert (q.events[k] + [ab])[..|q.events[k]|] == q.events[k];
      assert (q.global[k] + [ab])[..|q.global[k]|] == q.global[k];
    }
  }

  lemma ExtendsTrans(a: Queues, b: Queues, c: Queues)
    requires Extends(a, b) && Extends(b, c)
    ensures Extends(a, c)
  {
    forall k | 0 <= k < 10
      ensures IsPrefix(a.events[k], c.events[k]) && IsPrefix(a.global[k], c.global[k])
    {
      assert c.events[k][..|a.events[k]|] == c.events[k][..|b.events[k]|][..|a.events[k]|];
      assert c.global[k][..|a.global[k]|] == c.global[k][..|b.global[k]|][..|a.global[k]|];
    }
  }

  /** Queueing several abilities keeps every ability in its place and only
      appends: each bucket keeps what it held as a prefix. */
  lemma {:induction false} AddAllKeeps(q: Queues, spawned: seq<Effects.Ability>, n: nat)
    requires n <= |spawned|
    ensures WellFormed(q) ==> WellFormed(AddAll(q, spawned, n))
    ensures Extends(q, AddAll(q, spawned, n))
  {
    if n == 0 {
      forall k | 0 <= k < 10
        ensures IsPrefix(q.events[k], q.events[k]) && IsPrefix(q.global[k], q.global[k])
      {
      }
    } else {
      AddAllKeeps(q, spawned, n - 1);
      AddPlaces(AddAll(q, spawned, n - 1), spawned[n - 1]);
      AddExtends(AddAll(q, spawned, n - 1), spawned[n - 1]);
      ExtendsTrans(q, AddAll(q, spawned, n - 1), AddAll(q, spawned, n));
    }
  }

  /** The queues after the bucket and the globals of one phase have fired,
      before flagged globals are dropped and spawned abilities queued. */
  function Fired(q: Queues, e: EventTime, d: BattleData, b: Board, cat: Catalog)
    : (r: (Queues, Board, seq<Effects.Ability>))
  {
    var k := e.Index();
    var ev := RunBucket(q.events[k], d, b, cat, |q.events[k]|);
    var gl := RunBucket(q.global[k], d, ev.1, cat, |q.global[k]|);
    (Queues(q.events[k := ev.0], q.global[k := gl.0]), gl.1, ev.2)
  }

  /** Every global bucket without its flagged abilities. */
  function RetainAll(g: Buckets): Buckets
  {
    seq(10, k requires 0 <= k < 10 => Retain(g[k]))
  }

  /** Every global bucket keeps exactly its unflagged abilities. */
  lemma RetainAllIff(g: Buckets)
    ensures forall k, x :: 0 <= k < 10 ==> (x in RetainAll(g)[k] <==> x in g[k] && !x.remove)
  {
    forall k | 0 <= k < 10
      ensures forall x :: x in RetainAll(g)[k] <==> x in g[k] && !x.remove
    {
      RetainIff(g[k]);
    }
  }

  /** Executing one phase: fire the per-round bucket in order, then the
      global bucket (whose spawned abilities are discarded), drop flagged
      globals everywhere, and only then queue what the per-round bucket
      spawned. */
  function ExecuteF(q: Queues, e: EventTime, d: BattleData, b: Board, cat: Catalog): (Queues, Board)
  {
    var f := Fired(q, e, d, b, cat);
    (AddAll(Queues(f.0.events, RetainAll(f.0.global)), f.2, |f.2|), f.1)
  }

  /** Executing a phase keeps the queues well formed. */
  lemma ExecuteKeepsWellFormed(q: Queues, e: EventTime, d: BattleData, b: Board, cat: Catalog)
    requires WellFormed(q)
    ensures WellFormed(ExecuteF(q, e, d, b, cat).0)
  {
    var f := Fired(q, e, d, b, cat);
    ExecutePlaced(q, e, d, b, cat);
    AddAllKeeps(Queues(f.0.events, RetainAll(f.0.global)), f.2, |f.2|);
  }

  /** Firing a phase keeps every per-round ability in its place. */
  lemma FiredEventsPlaced(q: Queues, e: EventTime, d: BattleData, b: Board, cat: Catalog)
    requires WellFormed(q)
    ensures var q1 := Fired(q, e, d, b, cat).0;
      forall k', ab :: 0 <= k' < 10 && ab in q1.events[k'] ==>
        Placed(ab, k') && (ab.abilityType == AbilityType.Ability || ab.abilityType == AbilityType.Bonus)
  {
    RunBucketEventsPlaced(q.events[e.Index()], d, b, cat, e.Index());
  }

  /** Firing a phase keeps every global ability in its place. */
  lemma FiredGlobalPlaced(q: Queues, e: EventTime, d: BattleData, b: Board, cat: Catalog)
    requires WellFormed(q)
    ensures var q1 := Fired(q, e, d, b, cat).0;
      forall k', ab :: 0 <= k' < 10 && ab in q1.global[k'] ==> Placed(ab, k')
  {
    var k := e.Index();
    var b1 := RunBucket(q.events[k], d, b, cat, |q.events[k]|).1;
    var done := RunBucket(q.global[k], d, b1, cat, |q.global[k]|).0;
    RunBucketPlaced(q.global[k], d, b1, cat, k);
    forall ab | ab in done
      ensures Placed(ab, k)
    {
      var j :| 0 <= j < |done| && done[j] == ab;
    }
  }

  /** Firing a phase and dropping flagged globals keeps every ability in its
      place. */
  lemma ExecutePlaced(q: Queues, e: EventTime, d: BattleData, b: Board, cat: Catalog)
    requires WellFormed(q)
    ensures var q1 := Fired(q, e, d, b, cat).0;
      WellFormed(Queues(q1.events, RetainAll(q1.global)))
  {
    var q1 := Fired(q, e, d, b, cat).0;
    FiredEventsPlaced(q, e, d, b, cat);
    FiredGlobalPlaced(q, e, d, b, cat);
    RetainAllIff(q1.global);
  }

  /** After a phase runs, no global bucket holds an ability flagged for
      removal ahead of the newly queued ones, and every global of the phase
      that was not flagged is still queued. */
  lemma ExecuteDropsFlaggedGlobals(q: Queues, e: EventTime, d: BattleData, b: Board, cat: Catalog)
    ensures var q1 := Fired(q, e, d, b, cat).0;
      var r := ExecuteF(q, e, d, b, cat).0;
      forall k :: 0 <= k < 10 ==>
        |RetainAll(q1.global)[k]| <= |r.global[k]| &&
        (forall j :: 0 <= j < |RetainAll(q1.global)[k]| ==> !r.global[k][j].remove) &&
        (forall x :: x in q1.global[k] && !x.remove ==> x in r.global[k])
  {
    var f := Fired(q, e, d, b, cat);
    var q1, spawned := f.0, f.2;
    var q2 := Queues(q1.events, RetainAll(q1.global));
    var r := AddAll(q2, spawned, |spawned|);
    RetainAllIff(q1.global);
    AddAllKeeps(q2, spawned, |spawned|);
    forall k | 0 <= k < 10
      ensures (forall j :: 0 <= j < |q2.global[k]| ==> !r.global[k][j].remove)
      ensures (forall x :: x in q1.global[k] && !x.remove ==> x in r.global[k])
    {
      assert r.global[k][..|q2.global[k]|] == q2.global[k];
      forall j | 0 <= j < |q2.global[k]|
        ensures !r.global[k][j].remove
      {
        assert r.global[k][j] == q2.global[k][j];
        assert q2.global[k][j] in q2.global[k];
      }
      forall x | x in q1.global[k] && !x.remove
        ensures x in r.global[k]
      {
        var j :| 0 <= j < |q2.global[k]| && q2.global[k][j] == x;
        assert r.global[k][j] == x;
      }
    }
  }

  /** Abilities spawned while a phase runs are queued behind the fired
      bucket: the fired abilities keep their positions and the spawned
      ones did not run in this call. */
  lemma ExecuteSpawnsAfter(q: Queues, e: EventTime, d: BattleData, b: Board, cat: Catalog)
    ensures var k := e.Index();
      var fired := RunBucket(q.events[k], d, b, cat, |q.events[k]|).0;
      var r := ExecuteF(q, e, d, b, cat).0;
      |fired| <= |r.events[k]| && r.events[k][..|fired|] == fired
  {
    var f := Fired(q, e, d, b, cat);
    AddAllKeeps(Queues(f.0.events, RetainAll(f.0.global)), f.2, |f.2|);
  }

  /** The slot of the acting card that a cancel from an ability of this type
      reacts to, if any. */
  function CancelGuard(t: AbilityType, card: Card): Option<CardAttr>
  {
    if t == AbilityType.Ability then Some(card.ability)
    else if t == AbilityType.Bonus then Some(card.bonus)
    else None
  }

  /** Whether re-checking this ability toggles its cancel: its first modifier
      is a cancel that has run, and the acting card's guarding slot is now
      blocked while the cancel is in force, or unblocked while it is not. */
  predicate Toggles(ab: Effects.Ability, d: BattleData, b: Board)
  {
    |ab.modifiers| > 0 && ab.modifiers[0].CancelMod? && ab.modifiers[0].cancelMod.applied.Some? &&
    var guard := CancelGuard(ab.abilityType, MyCard(b, d));
    guard.Some? && IsBlocked(guard.value) == ab.modifiers[0].cancelMod.applied.value
  }

  /** Re-checking one ability: undo a cancel in force, reapply one that is
      not, or change nothing. */
  function CheckCancel(ab: Effects.Ability, d: BattleData, b: Board): (r: (Effects.Ability, Board))
    ensures MyCard(r.1, d) == MyCard(b, d) && MyHand(r.1, d) == MyHand(b, d)
    ensures r.0.abilityType == ab.abilityType && |r.0.modifiers| == |ab.modifiers|
    ensures |ab.modifiers| > 0 ==> EventTimeOf(r.0.modifiers[0]) == EventTimeOf(ab.modifiers[0])
    ensures !Toggles(ab, d, b) ==> r == (ab, b)
    ensures Toggles(ab, d, b) ==> r.0.modifiers[0].CancelMod? && r.0.modifiers[0].cancelMod.applied == Some(!ab.modifiers[0].cancelMod.applied.value)
  {
    if Toggles(ab, d, b) then
      var cm := ab.modifiers[0].cancelMod;
      var res := if cm.applied.value then CancelUndo(cm, d, b) else CancelApply(cm, d, b);
      (ab.(modifiers := ab.modifiers[0 := CancelMod(res.0)]), res.1)
    else (ab, b)
  }

  /** Re-checking the first `n` abilities of the PRE4 bucket in order. */
  function CheckCancelsF(bucket: seq<Effects.Ability>, d: BattleData, b: Board, n: nat)
    : (r: (seq<Effects.Ability>, Board, bool))
    requires n <= |bucket|
    ensures |r.0| == n
    ensures MyCard(r.1, d) == MyCard(b, d)
  {
    if n == 0 then ([], b, false)
    else
      var prev := CheckCancelsF(bucket, d, b, n - 1);
      var step := CheckCancel(bucket[n - 1], d, prev.1);
      (prev.0 + [step.0], step.1, prev.2 || Toggles(bucket[n - 1], d, prev.1))
  }

  /** Re-checking keeps each ability's type, its number of modifiers and
      the phase of its first modifier. */
  lemma {:induction false} CheckCancelsShape(bucket: seq<Effects.Ability>, d: BattleData, b: Board, n: nat)
    requires n <= |bucket|
    ensures var r := CheckCancelsF(bucket, d, b, n).0;
      forall j :: 0 <= j < n ==>
        (r[j].abilityType == bucket[j].abilityType &&
         |r[j].modifiers| == |bucket[j].modifiers| &&
         (|bucket[j].modifiers| > 0 ==> EventTimeOf(r[j].modifiers[0]) == EventTimeOf(bucket[j].modifiers[0])))
  {
    if n > 0 {
      CheckCancelsShape(bucket, d, b, n - 1);
    }
  }

  /** Cancels only touch the opposing card, so every decision depends on the
      acting card as it was before the check, and the check reports a change
      exactly when some ability toggles; when nothing toggles nothing
      changes. */
  lemma {:induction false} CheckCancelsChanged(bucket: seq<Effects.Ability>, d: BattleData, b: Board, n: nat)
    requires n <= |bucket|
    ensures CheckCancelsF(bucket, d, b, n).2 <==> exists j :: 0 <= j < n && Toggles(bucket[j], d, b)
    ensures !CheckCancelsF(bucket, d, b, n).2 ==>
      CheckCancelsF(bucket, d, b, n).0 == bucket[..n] && CheckCancelsF(bucket, d, b, n).1 == b
  {
    if n > 0 {
      CheckCancelsChanged(bucket, d, b, n - 1);
      var prev := CheckCancelsF(bucket, d, b, n - 1);
      var step := CheckCancel(bucket[n - 1], d, prev.1);
      assert CheckCancelsF(bucket, d, b, n) == (prev.0 + [step.0], step.1, prev.2 || Toggles(bucket[n - 1], d, prev.1));
      assert Toggles(bucket[n - 1], d, prev.1) == Toggles(bucket[n - 1], d, b);
      if !CheckCancelsF(bucket, d, b, n).2 {
        assert step == (bucket[n - 1], prev.1);
        assert bucket[..n] == bucket[..n - 1] + [bucket[n - 1]];
      }
    }
  }

  /** Re-checking cancels keeps every ability in its place. */
  lemma CheckCancelsPlaced(q: Queues, d: BattleData, b: Board)
    requires WellFormed(q)
    ensures var k := EventTime.Pre4.Index();
      var r := CheckCancelsF(q.events[k], d, b, |q.events[k]|).0;
      WellFormed(q.(events := q.events[k := r]))
  {
    var k := EventTime.Pre4.Index();
    CheckCancelsBucketPlaced(q.events[k], d, b, k);
  }

  /** Re-checking cancels keeps a per-round bucket's abilities in place and
      of a per-round type. */
  lemma CheckCancelsBucketPlaced(bucket: seq<Effects.Ability>, d: BattleData, b: Board, k: nat)
    requires forall ab :: ab in bucket ==>
      Placed(ab, k) && (ab.abilityType == AbilityType.Ability || ab.abilityType == AbilityType.Bonus)
    ensures forall ab :: ab in CheckCancelsF(bucket, d, b, |bucket|).0 ==>
      Placed(ab, k) && (ab.abilityType == AbilityType.Ability || ab.abilityType == AbilityType.Bonus)
  {
    var r := CheckCancelsF(bucket, d, b, |bucket|).0;
    CheckCancelsShape(bucket, d, b, |bucket|);
    forall ab | ab in r
      ensures Placed(ab, k) && (ab.abilityType == AbilityType.Ability || ab.abilityType == AbilityType.Bonus)
    {
      var j :| 0 <= j < |r| && r[j] == ab;
      assert bucket[j] in bucket;
    }
  }

  /** The POST phases, first to fourth. */
  const PostPhases: seq<EventTime> := [Post1, Post2, Post3, Post4]

  /** Executing the first `n` of the given phases in order. */
  function ExecuteAll(q: Queues, phases: seq<EventTime>, d: BattleData, b: Board, cat: Catalog, n: nat)
    : (r: (Queues, Board))
    requires n <= |phases|
  {
    if n == 0 then (q, b)
    else
      var prev := ExecuteAll(q, phases, d, b, cat, n - 1);
      ExecuteF(prev.0, phases[n - 1], d, prev.1, cat)
  }

  /** Executing several phases keeps the queues well formed. */
  lemma {:induction false} ExecuteAllKeepsWellFormed(q: Queues, phases: seq<EventTime>, d: BattleData, b: Board, cat: Catalog, n: nat)
    requires n <= |phases| && WellFormed(q)
    ensures WellFormed(ExecuteAll(q, phases, d, b, cat, n).0)
  {
    if n > 0 {
      ExecuteAllKeepsWellFormed(q, phases, d, b, cat, n - 1);
      var prev := ExecuteAll(q, phases, d, b, cat, n - 1);
      ExecuteKeepsWellFormed(prev.0, phases[n - 1], d, prev.1, cat);
    }
  }

  /** The end of a round: the END phase runs, then every per-round bucket is
      emptied; the globals stay. */
  function ExecuteEndF(q: Queues, d: BattleData, b: Board, cat: Catalog): (r: (Queues, Board))
    ensures r.0.events == EmptyBuckets
  {
    var r := ExecuteF(q, End, d, b, cat);
    (Queues(EmptyBuckets, r.0.global), r.1)
  }

  /** The end of a round keeps the globals the END phase left and the queues
      well formed. */
  lemma ExecuteEndKeepsWellFormed(q: Queues, d: BattleData, b: Board, cat: Catalog)
    requires WellFormed(q)
    ensures ExecuteEndF(q, d, b, cat).0.global == ExecuteF(q, End, d, b, cat).0.global
    ensures WellFormed(ExecuteEndF(q, d, b, cat).0)
  {
    ExecuteKeepsWellFormed(q, End, d, b, cat);
  }

  /** The queues of one side, updated in place. */
  class Events {
    var events: Buckets
    var global: Buckets

    function State(): Queues
      reads this
    {
      Queues(events, global)
    }

    ghost predicate Valid()
      reads this
    {
      WellFormed(State())
    }

    /** No ability queued. */
    constructor Default()
      ensures State() == EmptyQueues && Valid()
    {
      events := EmptyBuckets;
      global := EmptyBuckets;
    }

    method Add(ab: Effects.Ability)
      modifies this
      ensures State() == AddF(old(State()), ab)
    {
      if |ab.modifiers| > 0 {
        var k := AbilityEventTime(ab).Index();
        match ab.abilityType {
          case Ability => events := events[k := events[k] + [ab]];
          case Bonus => events := events[k := events[k] + [ab]];
          case GlobalAbility => global := global[k := global[k] + [ab]];
          case GlobalBonus => global := global[k := global[k] + [ab]];
          case Global =>
        }
      }
    }

    /** Queues a leader ability as a global; `panicked` reports the panic
        on an ability without a modifier, which leaves the queues alone. */
    method AddGlobal(ab: Effects.Ability) returns (panicked: bool)
      modifies this
      ensures panicked <==> AddGlobalF(old(State()), ab).None?
      ensures panicked ==> State() == old(State())
      ensures !panicked ==> State() == AddGlobalF(old(State()), ab).value
    {
      if |ab.modifiers| == 0 {
        return true;
      }
      var k := AbilityEventTime(ab).Index();
      global := global[k := global[k] + [ab]];
      panicked := false;
    }

    /** Fires every ability of a bucket in order; returns the updated
        bucket, the board and the spawned abilities. */
    static method FireBucket(bucket: seq<Effects.Ability>, d: BattleData, b: Board, cat: Catalog)
      returns (done: seq<Effects.Ability>, b': Board, spawned: seq<Effects.Ability>)
      ensures (done, b', spawned) == RunBucket(bucket, d, b, cat, |bucket|)
    {
      done, b', spawned := [], b, [];
      var i := 0;
      while i < |bucket|
        invariant 0 <= i <= |bucket|
        invariant (done, b', spawned) == RunBucket(bucket, d, b, cat, i)
      {
        var ab', a;
        ab', b', a := Apply(bucket[i], d, b', cat);
        done := done + [ab'];
        if a.Some? {
          spawned := spawned + [a.value];
        }
        assert (done, b', spawned) == RunBucket(bucket, d, b, cat, i + 1);
        i := i + 1;
      }
    }

    /** Fires the phase's per-round bucket, then its global bucket; returns
        the board and what the per-round bucket spawned. */
    method FirePhase(e: EventTime, d: BattleData, b: Board, cat: Catalog)
      returns (b': Board, spawned: seq<Effects.Ability>)
      modifies this
      ensures (State(), b', spawned) == Fired(old(State()), e, d, b, cat)
    {
      var k := e.Index();
      var done, b1;
      done, b1, spawned := FireBucket(events[k], d, b, cat);
      var gdone, ignored;
      gdone, b', ignored := FireBucket(global[k], d, b1, cat);
      events := events[k := done];
      global := global[k := gdone];
    }

    /** Drops the flagged abilities from every global bucket. */
    method DropFlagged()
      modifies this
      ensures State() == Queues(old(events), RetainAll(old(global)))
    {
      var kept: seq<seq<Effects.Ability>> := [];
      var j := 0;
      while j < 10
        invariant 0 <= j <= 10 && |kept| == j
        invariant forall t :: 0 <= t < j ==> kept[t] == Retain(global[t])
      {
        kept := kept + [Retain(global[j])];
        j := j + 1;
      }
      assert kept == RetainAll(global);
      global := kept;
    }

    /** Queues the spawned abilities in order. */
    method AddSpawned(spawned: seq<Effects.Ability>)
      modifies this
      ensures State() == AddAll(old(State()), spawned, |spawned|)
    {
      ghost var q0 := State();
      var n := 0;
      while n < |spawned|
        invariant 0 <= n <= |spawned|
        invariant State() == AddAll(q0, spawned, n)
      {
        Add(spawned[n]);
        assert AddAll(q0, spawned, n + 1) == AddF(AddAll(q0, spawned, n), spawned[n]);
        n := n + 1;
      }
    }

    /** Executes one phase. */
    method Execute(e: EventTime, d: BattleData, b: Board, cat: Catalog) returns (b': Board)
      modifies this
      ensures (State(), b') == ExecuteF(old(State()), e, d, b, cat)
    {
      var spawned;
      b', spawned := FirePhase(e, d, b, cat);
      DropFlagged();
      AddSpawned(spawned);
    }

    /** Re-checks the cancels of the PRE4 bucket and reports whether any
        toggled. */
    method CheckCancels(d: BattleData, b: Board) returns (changed: bool, b': Board)
      modifies this
      ensures var k := EventTime.Pre4.Index();
        var r := CheckCancelsF(old(events)[k], d, b, |old(events)[k]|);
        events == old(events)[k := r.0] && global == old(global) && b' == r.1 && changed == r.2
    {
      var k := EventTime.Pre4.Index();
      var bucket := events[k];
      var done: seq<Effects.Ability> := [];
      changed, b' := false, b;
      var i := 0;
      while i < |bucket|
        invariant 0 <= i <= |bucket|
        invariant (done, b', changed) == CheckCancelsF(bucket, d, b, i)
      {
        var toggles := Toggles(bucket[i], d, b');
        var ab';
        ab', b' := CheckCancel(bucket[i], d, b').0, CheckCancel(bucket[i], d, b').1;
        done := done + [ab'];
        changed := changed || toggles;
        i := i + 1;
      }
      events := events[k := done];
    }

    method ExecutePost(d: BattleData, b: Board, cat: Catalog) returns (b': Board)
      modifies this
      ensures (State(), b') == ExecuteAll(old(State()), PostPhases, d, b, cat, 4)
    {
      b' := b;
      var i := 0;
      while i < 4
        invariant 0 <= i <= 4
        invariant (State(), b') == ExecuteAll(old(State()), PostPhases, d, b, cat, i)
      {
        b' := Execute(PostPhases[i], d, b', cat);
        i := i + 1;
      }
    }

    method ExecuteEnd(d: BattleData, b: Board, cat: Catalog) returns (b': Board)
      modifies this
      ensures (State(), b') == ExecuteEndF(old(State()), d, b, cat)
    {
      b' := Execute(End, d, b, cat);
      events := EmptyBuckets;
    }
  }
}
