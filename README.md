# Card battle engine and solver, modelled in Dafny

This project models the deterministic core of a two-player card battle
game and the exhaustive search that replays it. Each player holds a hand of
four cards. In each of four rounds both players commit one card, a number
of pillz and an optional fury. The cards' abilities and bonuses then fire in
ten ordered phases, and the higher attack takes life from the other side.

The model follows the Rust sources file by file:

- `types.dfy` (module `Types`) covers the clan ids and their conversion
  (`Clan::from`), the bracketed short names and the rarity codes. It also
  holds the explicit `u8` wrap-around used wherever the source does
  unchecked `u8` arithmetic.
- `utils.dfy` (module `StackVec`) covers `StackVec4` as a class over a
  four-slot array, with `push` and the sequence-deserialising fill loop.
- `card.rs` is split across two files:
  - `card.dfy` (module `Cards`) covers the cancel/protect counters of a card
    slot, the card record a battle mutates, `Hand::clan_counts` (the
    clan-synergy resolver with the Oculus wildcard rule, as a method with its
    loops, proved against a specification function) and `Hand::get_leader`.
  - `board.dfy` (module `Board`) covers the players and hands a round acts
    on, and the per-side view (`BattleData`) that abilities read.
- `effects.dfy` (module `Effects`) covers the catalog's declarative data:
  phases, the six modifier kinds, conditions and abilities.
- `modifiers.dfy` (module `Modifiers`) covers what each modifier kind does:
  - the multiplier, clamped modification and the gate of a basic modifier;
  - cancel and its undo;
  - the three copies;
  - exchange, protection and pillz recovery.
- `ability.dfy` (module `Abilities`) covers the gate of an ability, in order:
  the global round-loss gate, the one-shot delay, the ordered conditions and
  the slot check. It also covers applying the ability's modifiers in declared
  order, and each condition's test.
- `battle.dfy` (module `Battle`) covers the `Events` queues of one side as a
  class:
  - ten per-round buckets and ten global buckets;
  - `add`, `add_global` and `execute` (with removal of flagged globals and
    deferred enqueueing of spawned abilities);
  - `check_cancels`, `execute_post` and `execute_end`.
- `game.dfy` (module `Game`) covers:
  - `Selection::parse`;
  - `status`, `get_turn` and `get_first_turn`;
  - the battle round from its snapshot to its `RoundWin` flags;
  - `select`, whose second commit of a round fights it.

  The `Game` class holds the fields `select` and `battle` update. Its
  methods are proved against the value-level functions `BattleF` and
  `SelectF`.
- `solver.dfy` (module `Solver`) covers the precomputed move-range tables
  and their accessors, and the searches `solve_first`, `solve_second` and
  `solve`. Each search is written as the source's nested loops over
  candidates, proved equal to a fold, with the search's promises proved
  about the fold.
- `solver2.dfy` (module `Solver2`) covers:
  - `SelectionResult::selection`;
  - the results trees built by `fill_tree` and `fill_tree_abab`;
  - the integer part of `ResultsTree::get_score` (the worst score), with its
    closed form.

A Rust panic (an `unwrap` of nothing, a table index out of range, a clan id
with no clan, a leader ability without a modifier) is modelled as an
`Option` result whose `None` is the panic. Two helpers instead require what
the source leaves unchecked, and every caller in the model establishes it:
`Abilities.AbilityEventTime` needs a modifier, and `StackVec.StackVec4.Push`
needs a free slot.
The `u8` arithmetic the source leaves unchecked is modelled as release-build
wrap-around (`Wrap8`). Lemmas exhibit the inputs on which each such
operation wraps, so nothing is hidden behind a precondition that the
solver's recursion could not carry.

## Model

| member | source | states |
|---|---|---|
| Types.Wrap8 | src/card.rs:76-87 | release-build `u8` wrap-around: values in 0..255 are kept and every value is congruent to its result modulo 256 |
| Types.ClanFrom | src/types.rs:46-85 | the numeric-id conversion never yields `Clan::None`; unknown ids (0 included) are the panic, as `None` |
| Types.ClanIdRoundTrip | src/types.rs:7-85 | every real clan converts back from its `repr(u8)` id |
| Types.ClanFromSound | src/types.rs:46-85 | a successful conversion returns the clan whose id was given |
| Types.ClanIdInjective | src/types.rs:9-44 | distinct clans carry distinct ids |
| Types.AbbreviationRoundTripLow | src/types.rs:114-155 | the abbreviation of each clan with id below 40 reads back as that clan |
| Types.AbbreviationRoundTripHigh | src/types.rs:114-155 | the abbreviation of each clan with id from 40 reads back as that clan |
| Types.ShortName | src/types.rs:114-155 | the short name is the abbreviation between brackets, 4 to 6 characters, and the clan is recovered from what lies between the brackets |
| Types.ShortNameInjective | src/types.rs:114-155 | distinct clans have distinct short names |
| Types.RarityFrom | src/types.rs:175-185 | any code other than u, r, cr, m, l reads as common |
| Types.RarityRoundTrip | src/types.rs:175-185 | each rarity is read back from its own catalog code |
| StackVec.StackVec4.Default | src/utils.rs:14-21 | a new vector has length 0 and every slot empty |
| StackVec.StackVec4.Push | src/utils.rs:25-30 | the value goes into the first free slot and the contents grow by exactly that value; the caller must leave room |
| StackVec.FilledUnchanged | src/utils.rs:25-30 | filling the slot after the filled prefix extends the contents by that value |
| StackVec.VisitSeq | src/utils.rs:57-70 | deserialising a sequence of at most four elements yields a vector whose contents are those elements in order |
| Cards.Cancel | src/card.rs:77-79 | one more cancel; protection untouched; below 255 the counter grows by one |
| Cards.RemoveCancel | src/card.rs:81-83 | one cancel fewer; protection untouched; above 0 the counter drops by one |
| Cards.Protect | src/card.rs:85-87 | one more protection; cancels untouched; below 255 the counter grows by one |
| Cards.CancelThenRemove | src/card.rs:77-83 | removing a cancel undoes placing one, for all counter values |
| Cards.RemoveCancelUnderflow | src/card.rs:81-83 | removing a cancel from a fresh slot wraps the counter to 255 and leaves the slot blocked |
| Cards.ProtectShields | src/card.rs:85-101 | once protected, a slot stays protected and is never blocked, however many cancels follow |
| Cards.NewStat | src/card.rs:112-118 | a new stat has base and value equal to the given value and no counters |
| Cards.WithAttr | src/card.rs:264-280 | writing one counter slot of a card sets that slot and leaves every other slot and field unchanged |
| Cards.WithAttrOwn | src/card.rs:264-280 | writing back a slot's own counters changes nothing |
| Cards.CardFrom | src/card.rs:336-353 | a fresh card is unplayed and not won, at the given position, with the catalog id, level, power, damage, ability and bonus, zero attack and no counters |
| Cards.IdsOfWitness | src/card.rs:576-590 | an id already seen belongs to one of the earlier cards |
| Cards.FirstClans | src/card.rs:577-591 | each card records its own clan unless its id repeats an earlier card's |
| Cards.FirstClansUpToAll | src/card.rs:577-591 | after the first pass every position holds its first-occurrence clan |
| Cards.ResolvedClans | src/card.rs:592-616 | the resolved clans are four, the first-occurrence clans with the Oculus rule applied |
| Cards.CountOf | src/card.rs:617-623 | a count over the first `n` positions is at most `n` |
| Cards.ClanCounts | src/card.rs:569-632 | the counts are the partner counts of the resolved clans, the returned clan is the resolved clan at the Oculus position, and exactly the cards without a partner lose their bonus |
| Cards.FirstOccurrences | src/card.rs:574-591 | the first pass yields the first-occurrence clans, the clan tally of distinct ids, and the number and last position of Oculus cards |
| Cards.RecordCard | src/card.rs:577-591 | looking at card `i` extends the seen ids, tally, Oculus count and index and recorded clans from the first `i` cards to the first `i + 1` |
| Cards.ApplyOculusRule | src/card.rs:592-616 | the second pass, which walks the tally in whatever order it has, yields the resolved clans |
| Cards.CountPartners | src/card.rs:617-629 | each card's count is the number of positions sharing its clan, and exactly the cards with count 1 lose their bonus |
| Cards.TallyCounts | src/card.rs:582-590 | the tally holds exactly the clans of distinct-id cards, each with its number of distinct-id cards |
| Cards.SingleOculusTallied | src/card.rs:577-591 | with exactly one Oculus card, Oculus is in the tally once |
| Cards.SingleOculusNotRepeated | src/card.rs:577-591 | the single Oculus card is not a repeated id |
| Cards.OculusIndexIsOculus | src/card.rs:578-581 | when some Oculus card was seen, the recorded position holds one |
| Cards.OnlyOculus | src/card.rs:578-581 | with one Oculus card, no other card is Oculus |
| Cards.FirstCountsDisjoint | src/card.rs:582-590 | three distinct clans together count at most the number of cards seen |
| Cards.SoloUnique | src/card.rs:599-615 | with one Oculus card, three clans and one clan held twice, exactly one non-Oculus clan is held once and the scan finds it, whatever the tally's order |
| Cards.SoloFromFinds | src/card.rs:602-611 | the scan returns the only clan held once other than Oculus |
| Cards.CountsInRange | src/card.rs:617-629 | every count lies between 1 and 4 |
| Cards.RepeatedIdHasNoClan | src/card.rs:582-616 | a card repeating an earlier id keeps no clan after resolution |
| Cards.OculusTwoClans | src/card.rs:593-598 | with two clans, the Oculus card takes card 1's clan when it is card 0, else card 0's |
| Cards.OculusThreeClans | src/card.rs:599-615 | with three clans and a pair, the Oculus card takes the clan held by a single other card |
| Cards.NoOculusReturnsFirst | src/card.rs:574-631 | without an Oculus card the returned clan is card 0's |
| Cards.HandFromIds | src/card.rs:676-689 | a hand from four ids holds those cards at positions 0 to 3, with the resolved counts, bonuses cleared for cards without a partner, and the Oculus clan |
| Cards.GetLeader | src/card.rs:633-660 | a leader is returned exactly when one card of the hand is a Leader, and it is that card |
| Effects.Index | src/modifiers.rs:21-37 | each phase's `repr(usize)` discriminant is a bucket index below 10 |
| Effects.EventTimeIndexInjective | src/modifiers.rs:21-37 | distinct phases occupy distinct buckets |
| Modifiers.SetStatValue | src/modifiers.rs:232-253 | writing a stat sets exactly that value |
| Modifiers.SetStatValueFrame | src/modifiers.rs:232-253 | writing a stat leaves every other value, every counter, the clan counts and the Oculus clan unchanged |
| Modifiers.MultiplierUnscaled | src/modifiers.rs:134-160 | without a `per`, and for the `Opp*` kinds that fall through, the factor is 1 |
| Modifiers.SymmetryComplement | src/modifiers.rs:157-158 | exactly one of Symmetry and Asymmetry scales by one, and Symmetry does so exactly when both cards hold the same position |
| Modifiers.GrowthDegrowth | src/modifiers.rs:154-155 | in rounds 0 to 3, Growth scales by round + 1 and Degrowth by 4 - round, summing to 5 |
| Modifiers.DegrowthWrapsAfterRoundFour | src/modifiers.rs:155 | in round 5 the `u8` subtraction of Degrowth wraps to 255 |
| Modifiers.Modify | src/modifiers.rs:162-175 | a value outside [min, max) is returned unchanged; inside, the scaled change is added and the sum clamped to [min, max] |
| Modifiers.ModifyWrapsAboveByte | src/modifiers.rs:170-174 | with a max above 255 the final `as u8` cast wraps: 250 + 10 becomes 4 |
| Modifiers.BasicCanApplyGates | src/modifiers.rs:179-216 | `always` always fires; a modifier needing a win never fires for a card that did not win; a blocked own slot, a protected opposing slot, or a dead acting player for a life modifier stops it |
| Modifiers.BasicApply | src/modifiers.rs:217-257 | a modifier that cannot apply changes nothing; one that can sets its target stat to the modified value |
| Modifiers.BasicApplyFrame | src/modifiers.rs:217-257 | a basic modifier changes no value but its target and no counter |
| Modifiers.ProtectionStopsOpposingModifier | src/modifiers.rs:188-205 | a protection placed on a stat stops every later non-`always` opposing modifier of that stat |
| Modifiers.WithCardOwn | src/modifiers.rs:232-253 | writing back a card's own value changes nothing |
| Modifiers.CancelApply | src/modifiers.rs:271-285 | the cancel is marked applied and the targeted slot of the opposing card gains one cancel; nothing else changes |
| Modifiers.CancelUndo | src/modifiers.rs:286-300 | the cancel is marked not applied and the targeted slot loses one cancel; nothing else changes |
| Modifiers.CancelUndoRestores | src/modifiers.rs:271-300 | undo after apply restores the board exactly, wrap-around included |
| Modifiers.AsBonus | src/modifiers.rs:325-333 | a copied ability becomes a bonus (a global ability a global bonus) with the same modifiers and conditions; a plain global one is not copied |
| Modifiers.AsAbility | src/modifiers.rs:339-347 | the mirror image for a copied bonus |
| Modifiers.AsBonusAsAbility | src/modifiers.rs:321-347 | converting an ability to a bonus and back gives it back |
| Modifiers.FirstClanCard | src/modifiers.rs:352-362 | the search returns the first card in hand order, other than the acting one, of the given clan, or none when there is none |
| Modifiers.CopyApply | src/modifiers.rs:315-367 | a power (damage) copy sets the acting card's power (damage) value to the opposing card's base and spawns nothing; an ability (bonus) copy moves the opposing card's ability (bonus) and its id into the bonus (ability) slot and spawns its converted copy; infiltration without an Oculus clan changes nothing; in every case the acting card changes only in those fields, and the opposing hand, the other cards and both players never change |
| Modifiers.InfiltrateCopiesFirstClanmate | src/modifiers.rs:349-364 | infiltration copies the bonus counters and id of the first other card of the Oculus-resolved clan into the acting card, changing nothing else in it, and spawns that bonus; without such a card nothing changes |
| Modifiers.ExchangeApply | src/modifiers.rs:379-406 | with the acting card's power (damage) slot blocked, a power (damage) exchange or imposition changes nothing; otherwise an exchange gives each fighting card the other's base as its value, and an imposition gives only the opposing card the acting card's base; only those values change, and no player, other card or hand field does |
| Modifiers.ExchangeSymmetric | src/modifiers.rs:383-394 | a full exchange between two unblocked cards is a swap: it gives the same board whichever of the two sides performs it |
| Modifiers.ExchangeIdempotent | src/modifiers.rs:379-406 | exchanging twice is the same as exchanging once |
| Modifiers.ProtectionApply | src/modifiers.rs:419-461 | the acting card's slot gains one protection and, with `both`, the opposing card's too; otherwise the opposing hand is unchanged; no player, other card or hand field changes |
| Modifiers.RecoverApply | src/modifiers.rs:476-485 | a blocked pillz slot changes nothing; recovery only ever changes the acting player |
| Modifiers.RecoverGain | src/modifiers.rs:476-485 | without wrap-around the player gains `pillz_used * n / out_of`, never more than was spent when n <= out_of |
| Modifiers.RecoverProductWraps | src/modifiers.rs:478 | the `u8` product wraps: 16 pillz spent on a 16-out-of-1 recovery gains nothing |
| Modifiers.ModifierApply | src/modifiers.rs:499-523 | firing keeps the phase; only cancels change the modifier, marking it applied; only copies spawn an ability |
| Abilities.AbilityEventTime | src/ability.rs:72-75 | an ability runs in the phase of its first modifier |
| Abilities.AnyOfClansIff | src/ability.rs:212-222 | the scan over the opposing hand succeeds exactly when some opposing card has a listed clan |
| Abilities.VersusIff | src/ability.rs:212-222 | Versus holds exactly when one of the four opposing cards belongs to a listed clan |
| Abilities.KillshotDoubleWraps | src/ability.rs:192-194 | the doubled opposing attack is a `u8`: against 128 it wraps to 0 and any attack satisfies Killshot |
| Abilities.KillshotNoWrap | src/ability.rs:192-194 | below 128 Killshot holds exactly when the attack is at least twice the opposing attack |
| Abilities.CanApplyF | src/ability.rs:76-109 | the gate changes only the ability's flags, never its type, modifiers or conditions |
| Abilities.CanApply | src/ability.rs:76-109 | the loop that stops at the first unmet condition gives the same flags and verdict as the gate's definition |
| Abilities.GlobalLossRemoves | src/ability.rs:77-83 | an unwon global ability or bonus whose owner lost the round is flagged for removal and does not fire |
| Abilities.GlobalGateOnce | src/ability.rs:77-87 | a global that passes the loss gate is marked won and is never flagged for removal afterwards |
| Abilities.DelayedOnce | src/ability.rs:89-92 | a delayed ability fails once and clears the delay; a second call is decided by the conditions and the slot alone |
| Abilities.UnmetConditionStops | src/ability.rs:94-100 | any unmet condition anywhere in the list stops the ability |
| Abilities.GatePassed | src/ability.rs:76-109 | a passing gate means no delay, every condition met, the slot unblocked and, for a global, no loss or an earlier win |
| Abilities.RunModifiers | src/ability.rs:113-116 | firing modifiers in order keeps their count and phases, changes only cancels, and yields a spawned ability only from a final copy |
| Abilities.ApplyF | src/ability.rs:110-119 | a failed gate leaves the board alone and spawns nothing; firing keeps the type, the number of modifiers and the phase; a spawn comes only from a final copy modifier |
| Abilities.Apply | src/ability.rs:110-119 | the loop that keeps only the latest modifier result computes the same ability, board and spawn as the definition |
| Battle.AddPlaces | src/battle.rs:38-53 | queueing keeps the queues well formed; an ability without modifiers or of plain global type is dropped; an ability or bonus becomes the last entry of its phase's per-round bucket and a global ability or bonus the last of its phase's global bucket, all else unchanged |
| Battle.AddGlobalPlaces | src/battle.rs:55-57 | queueing panics exactly on an ability without a modifier; otherwise the ability becomes the last entry of its phase's global bucket, whatever its type, and nothing else changes |
| Battle.RunBucket | src/battle.rs:62-67 | firing a bucket returns one updated ability per fired ability |
| Battle.RunBucketShape | src/battle.rs:62-67 | firing keeps each ability's type, number of modifiers and phase |
| Battle.RunBucketPlaced | src/battle.rs:62-67 | a fired bucket keeps every ability in its phase's bucket |
| Battle.RunBucketEventsPlaced | src/battle.rs:60-67 | a fired per-round bucket keeps every ability in place and of ability or bonus type |
| Battle.RetainIff | src/battle.rs:76 | `retain` keeps exactly the abilities not flagged for removal |
| Battle.AddExtends | src/battle.rs:38-53 | queueing one ability only appends to a bucket |
| Battle.ExtendsTrans | src/battle.rs:81-83 | appending twice is appending |
| Battle.AddAllKeeps | src/battle.rs:81-83 | queueing the spawned abilities keeps the queues well formed and only appends |
| Battle.RetainAllIff | src/battle.rs:73-79 | every global bucket keeps exactly its unflagged abilities |
| Battle.ExecuteKeepsWellFormed | src/battle.rs:59-84 | executing a phase keeps every queued ability in its phase's bucket and the per-round buckets free of globals |
| Battle.FiredEventsPlaced | src/battle.rs:60-67 | firing a phase keeps every per-round ability in place |
| Battle.FiredGlobalPlaced | src/battle.rs:70-72 | firing a phase's globals keeps every global ability in place |
| Battle.ExecutePlaced | src/battle.rs:59-79 | firing and dropping flagged globals keep the queues well formed |
| Battle.ExecuteDropsFlaggedGlobals | src/battle.rs:73-79 | after the drop no global bucket holds a flagged ability, and every unflagged one stays |
| Battle.ExecuteSpawnsAfter | src/battle.rs:62-83 | abilities spawned during a phase are queued behind the fired ones, which keep their positions, so they do not run in the same call |
| Battle.CheckCancel | src/battle.rs:90-123 | re-checking touches only the opposing side and keeps type, size and phase; an ability that does not toggle is unchanged; one that toggles has its cancel's `applied` flag flipped |
| Battle.CheckCancelsF | src/battle.rs:86-127 | re-checking a bucket returns one ability per entry and never changes the acting card |
| Battle.CheckCancelsShape | src/battle.rs:86-127 | re-checking keeps each ability's type, number of modifiers and phase |
| Battle.CheckCancelsChanged | src/battle.rs:86-127 | `changed` is reported exactly when some ability in the bucket toggles, and without a toggle nothing changes |
| Battle.CheckCancelsPlaced | src/battle.rs:86-127 | re-checking cancels keeps the queues well formed |
| Battle.CheckCancelsBucketPlaced | src/battle.rs:88-125 | re-checking keeps a per-round bucket's abilities in place and of ability or bonus type |
| Battle.ExecuteAllKeepsWellFormed | src/battle.rs:145-154 | running the POST phases in order keeps the queues well formed |
| Battle.ExecuteEndF | src/battle.rs:156-161 | after the END phase every per-round bucket is empty |
| Battle.ExecuteEndKeepsWellFormed | src/battle.rs:156-161 | the end of a round keeps the globals the END phase left, and the queues stay well formed |
| Battle.Events.Default | src/battle.rs:28-35 | a new queue set is empty |
| Battle.Events.Add | src/battle.rs:38-53 | the queues become those of the queueing function |
| Battle.Events.AddGlobal | src/battle.rs:55-57 | reports the panic exactly on an ability without a modifier, leaving the queues alone; otherwise the queues become those of the leader-queueing function |
| Battle.Events.FireBucket | src/battle.rs:62-67 | the firing loop computes the bucket, board and spawned abilities of the definition |
| Battle.Events.FirePhase | src/battle.rs:59-72 | firing a phase in place gives the queues, board and spawns of the definition |
| Battle.Events.DropFlagged | src/battle.rs:73-79 | dropping in place removes exactly the flagged globals |
| Battle.Events.AddSpawned | src/battle.rs:81-83 | queueing the spawned abilities in place matches the definition |
| Battle.Events.Execute | src/battle.rs:59-84 | executing a phase in place gives the queues and board of the definition |
| Battle.Events.CheckCancels | src/battle.rs:86-127 | the re-check loop updates only the PRE4 bucket and returns the board and `changed` of the definition |
| Battle.Events.ExecutePost | src/battle.rs:145-154 | the four POST phases run in order |
| Battle.Events.ExecuteEnd | src/battle.rs:156-161 | END runs, then every per-round bucket is cleared |
| Game.Split | src/game.rs:145 | splitting on single spaces yields at least one token |
| Game.SplitNoSpaces | src/game.rs:145 | no token contains a space |
| Game.JoinSplit | src/game.rs:145 | joining the tokens with single spaces gives back the input |
| Game.SplitJoin | src/game.rs:145 | splitting space-free tokens joined by spaces gives back the tokens |
| Game.ParseUnsigned | src/game.rs:153-160 | a parsed number is below the type's bound, and an empty token never parses |
| Game.ParseBool | src/game.rs:163-166 | a flag parses exactly when the token is `true` or `false` |
| Game.Parse | src/game.rs:144-172 | the token loop, with its early `break` after the third token, computes the parse's definition |
| Game.ParseEmpty | src/game.rs:151-156 | the empty line has one empty token, which is not a number, so it does not parse |
| Game.ParseIgnoresTail | src/game.rs:162-168 | tokens after the third are ignored |
| Game.Decimal | src/game.rs:153-160 | the decimal rendering is a non-empty digit string with the number's value |
| Game.ParseRoundTrip | src/game.rs:144-172 | printing a selection as index, pillz and flag and parsing it gives the selection back |
| Game.StatusCharacterised | src/game.rs:256-281 | the game is over exactly when no selection waits and a side is out of life or four rounds are done; who wins or draws, by life, both directions |
| Game.StatusSymmetric | src/game.rs:256-281 | exchanging the players' lives exchanges the winner and keeps a draw |
| Game.TurnOrder | src/game.rs:329-343 | with no selection the first mover of the round is to play; once the first mover has chosen, the other side is |
| Game.Cost | src/game.rs:464-465 | a selection costs its pillz plus 3 with fury, as a byte |
| Game.Snapshot | src/game.rs:470-479 | the previous life, pillz and result are set to the current ones, which stay |
| Game.CancelPassFixedPoint | src/game.rs:529-535 | a cancel pass that reports no change leaves the queues and board as they were, so the loop may stop |
| Game.Strike | src/game.rs:544-555 | fury adds 2 damage and attack becomes `(pillz + 1) * power`, both wrapped to a byte; players, power and level are untouched |
| Game.AttackWraps | src/game.rs:551 | three pillz on a 70-power card give attack 24, not 280 |
| Game.ResolveOutcome | src/game.rs:562-585 | exactly one side wins by attack, then lower level, then first mover; the loser loses the winner's damage floored at zero; each side pays its cost |
| Game.KnockOut | src/game.rs:572 | damage at least the loser's life leaves it at zero |
| Game.PillzUnderflow | src/game.rs:583 | paying 3 pillz from 2 wraps to 255 |
| Game.MarkPlayed | src/game.rs:590-591 | both chosen cards are marked played and the players are untouched |
| Game.EndBoth | src/game.rs:587-588 | after END on both sides no per-round ability is left |
| Game.FightF | src/game.rs:452-591 | a fight leaves no per-round ability on either side and both chosen cards played |
| Game.BattleF | src/game.rs:452-596 | a battle advances the round by one, as a byte, and keeps the turn offset and the selections |
| Game.BattleMarksPlayed | src/game.rs:587-591 | after a battle both chosen cards are played and both per-round queues are empty |
| Game.AfterFight | src/game.rs:595 | the fight's board and queues become the game's and the round advances |
| Game.AddCardsKeepQueues | src/game.rs:516-519 | queueing both cards' abilities and bonuses keeps both sides' queues well formed |
| Game.ExecPhasesKeepQueues | src/game.rs:522-541 | running phases on both sides in turn keeps the queues well formed |
| Game.ExecBothKeepsQueues | src/game.rs:527-528 | one phase on both sides keeps the queues well formed |
| Game.PrePhasesKeepQueues | src/game.rs:509-542 | everything before the strike keeps both sides' queues well formed |
| Game.BattleKeepsQueues | src/game.rs:452-596 | a whole battle keeps both sides' queues well formed |
| Game.CancelRoundsKeepQueues | src/game.rs:529-535 | the cancel re-checks keep both sides' queues well formed |
| Game.SelectF | src/game.rs:598-625 | a selection triggers a battle exactly when the round's first mover has already chosen; otherwise it is stored for the side whose turn it is; after a battle both selections are cleared and the round has advanced |
| Game.FirstCommitPends | src/game.rs:598-625 | the first selection of a round never battles, leaves the round pending and the game playing |
| Game.LeaderQueues | src/game.rs:211-219 | building a hand's initial queues panics exactly when its single leader's ability has no modifier; otherwise they are well formed with no event queued, and empty when the hand has no single leader |
| Game.NewGameF | src/game.rs:204-233 | a new game panics exactly when a leader ability has no modifier; otherwise it is at round 0 and flip 0 with well-formed queues, no selection, two fresh players (12 life, 12 pillz) holding the two hands, and is still being played |
| Game.Game.New | src/game.rs:204-233 | reports the panic exactly when the new-game function does; otherwise the fresh game object holds the new-game state |
| Game.Game.Assemble | src/game.rs:220-232 | the assembled game is at round 0 and flip 0 with fresh players holding the two hands, no selection and the given queues |
| Game.Game.ExecBothM | src/game.rs:527-528 | one phase on both sides in place matches the definition |
| Game.Game.CancelRoundsM | src/game.rs:529-535 | up to three cancel passes, stopping when neither side changed, match the definition |
| Game.Game.EarlyPhasesM | src/game.rs:509-535 | queueing and START, PRE4 and the cancel checks in place match the definition |
| Game.Game.LatePhasesM | src/game.rs:536-541 | PRE3 to PRE1 on both sides in place match the definition |
| Game.Game.PrePhasesM | src/game.rs:509-542 | all phases before the strike in place match the definition |
| Game.Game.PostM | src/game.rs:557-558 | the POST phases on both sides in place match the definition |
| Game.Game.EndM | src/game.rs:587-588 | the END phase on both sides in place matches the definition |
| Game.Game.Fight | src/game.rs:452-591 | the fight in place matches its definition |
| Game.Game.Battle | src/game.rs:452-596 | a battle in place yields the battle's state |
| Game.Game.Commit | src/game.rs:595 | the fight's results and the next round are written to the game |
| Game.Game.Select | src/game.rs:598-625 | a selection in place yields the state and the battled flag of the selection function |
| Game.Game.ClearSelection | src/game.rs:627-630 | both selections are cleared and nothing else changes |
| Solver.SplitRowMembers | src/solver.rs:723-742 | a split row holds, once each, exactly the affordable moves: every plain stake up to the pool and every fury stake up to the pool less three |
| Solver.SplitShiftRowMembers | src/solver.rs:645-676 | a split-shift row starts with the whole pool unfurious and holds, once each, exactly the affordable moves |
| Solver.SplitShiftRowAt | src/solver.rs:645-676 | for a pool of three or more, the row has `2n - 1` moves in the order: whole pool, pool less three, the plain stakes below it, the two plain stakes just under the pool, then the fury stakes |
| Solver.SplitShiftRowHolds | src/solver.rs:656-669 | every affordable move appears in a split-shift row |
| Solver.SplitShiftRowAffordable | src/solver.rs:656-669 | every move of a split-shift row is affordable |
| Solver.SplitShiftRowDistinct | src/solver.rs:656-669 | no move appears twice in a split-shift row |
| Solver.SplitShiftReordersSplit | src/solver.rs:645-742 | a split-shift row is a permutation of the split row of the same pool, led by the whole pool |
| Solver.ShiftFalseRowMembers | src/solver.rs:677-701 | a shift-false row is a permutation of the plain stakes up to the pool, led by the whole pool, with no fury move |
| Solver.BuildSplitRanges | src/solver.rs:723-742 | the table built by the loops has 32 rows, each the split row of its index |
| Solver.BuildSplitRow | src/solver.rs:726-739 | the loops build the split row of their pool |
| Solver.BuildSplitShiftRanges | src/solver.rs:645-676 | the table built by the loops has 32 rows, each the split-shift row of its index |
| Solver.BuildSplitShiftRow | src/solver.rs:648-671 | the loops build the split-shift row of their pool |
| Solver.BuildShiftFalseRanges | src/solver.rs:677-701 | the table built by the loops has 32 rows, each the shift-false row of its index |
| Solver.BuildShiftFalseRow | src/solver.rs:680-697 | the loops build the shift-false row of their pool |
| Solver.SplitRange | src/solver.rs:774-777 | the lookup succeeds exactly for pools below 32, where it yields exactly the affordable moves; a larger pool is an out-of-bounds index |
| Solver.SplitShiftRange | src/solver.rs:764-767 | the lookup succeeds exactly below 32 and then starts with the whole pool and yields exactly the affordable moves |
| Solver.ShiftFalseRange | src/solver.rs:788-795 | in round 0 the row holds exactly the plain stakes up to the pool; in later rounds it is the split-shift row |
| Solver.SelectionOf | src/solver_2.rs:38-46 | every result carries its selection under one of the three tags |
| Solver.Verdict | src/solver.rs:501-515 | tagging a result for the side to move keeps the selection |
| Solver.SearchResult | src/solver.rs:20-32 | reading a result back for the side to move and tagging it again gives it back |
| Solver.VerdictResult | src/solver.rs:20-32 | tagging and then reading back gives the game result back |
| Solver.SelectorAdvances | src/solver.rs:535-537 | the game's own selection function obeys the solvers' laws: a selection that stores a commit, or fights a round the game survives, keeps the game searchable and lowers the measure (three steps per remaining round, less one per stored selection); the first commit of a round never fights |
| Solver.SelectAdvances | src/game.rs:598-625 | a selection that does not end the game leaves a searchable game with a smaller measure |
| Solver.CommitAdvances | src/game.rs:598-625 | any transition that behaves as `select` on the turn and round leaves a searchable game with a smaller measure |
| Solver.Moves | src/solver.rs:533-537 | each move of a row becomes a selection of the given card, in row order |
| Solver.CardMoves | src/solver.rs:528-533 | the selections of one card name only that card or an earlier one |
| Solver.CandidatesUpTo | src/solver.rs:528-533 | the candidates of the first `k` cards name only those cards |
| Solver.CandidatesFrom | src/solver.rs:528-533 | the candidates from card `k` on name cards of the hand |
| Solver.CandidatesSplit | src/solver.rs:528-533 | the candidates of all cards are those of the first `k` followed by the rest |
| Solver.CandidateMembers | src/solver.rs:528-533 | a selection is a candidate exactly when it names an unplayed card and a move of the row |
| Solver.CandidatesUpToMembers | src/solver.rs:528-533 | the same, restricted to the first `k` cards |
| Solver.NoUnplayedNoCandidates | src/solver.rs:528-531 | with every card played there is no candidate |
| Solver.FirstScanAppend | src/solver.rs:533-606 | taking one more candidate into the first search is one step of its bookkeeping |
| Solver.FirstScanStopped | src/solver.rs:551-555 | once the first search has returned or panicked, later candidates change nothing |
| Solver.FirstScanStoppedWithin | src/solver.rs:551-555 | a search stopped within a card's moves ignores the rest of that card |
| Solver.FirstScanStopsAfter | src/solver.rs:528-607 | a search stopped after `k` cards ignores the remaining cards |
| Solver.SolveFirst | src/solver.rs:523-610 | the nested loops over cards and moves, with their early returns, compute the first search's definition |
| Solver.SolveFirstCard | src/solver.rs:533-606 | the loop over one card's moves advances the search by exactly that card's candidates |
| Solver.SolveFirstCandidate | src/solver.rs:535-605 | one candidate's body is one step of the bookkeeping on its outcome |
| Solver.Outcomes | src/solver.rs:535-575 | the outcome of every candidate, in order |
| Solver.FirstScanFold | src/solver.rs:528-607 | the search equals the bookkeeping folded over the candidates' outcomes |
| Solver.FirstFoldRuns | src/solver.rs:540-607 | the bookkeeping runs through exactly when every candidate was searched without a win |
| Solver.FirstFoldWins | src/solver.rs:551-555 | it stops on a win only at a winning candidate after candidates searched without a win, and returns it |
| Solver.FirstFoldKeeps | src/solver.rs:542-603 | what it keeps is never a win and names a candidate; it keeps nothing only when there was no candidate |
| Solver.SolveFirstCharacterised | src/solver.rs:523-610 | an answer names a candidate; it is a win exactly when that candidate wins; otherwise no candidate wins |
| Solver.SolveFirstNoCards | src/solver.rs:528-609 | with every card played the search has no result and the final `unwrap` panics |
| Solver.ReplyGame | src/solver.rs:468-470 | replaying the first mover's reply and then the candidate leaves a searchable game whenever it is still playing |
| Solver.ReplyOutcomes | src/solver.rs:466-498 | the outcome of every reply, in order |
| Solver.WorstIsFold | src/solver.rs:465-499 | a candidate's worst result is the fold of its replies' outcomes |
| Solver.WorstStopped | src/solver.rs:472-496 | once a reply beats the candidate, or a search below panics, later replies change nothing |
| Solver.WorstFoldWins | src/solver.rs:465-499 | the worst result is a win exactly when every reply is a win |
| Solver.WorstFoldDraws | src/solver.rs:465-499 | it is a draw exactly when no reply beats the candidate or panics and some reply draws |
| Solver.WorstFoldSettled | src/solver.rs:465-499 | a loss is found only at a beating reply after replies that did not; a panic only at a reply that panicked |
| Solver.Worsts | src/solver.rs:463-499 | the worst result of every candidate, in order |
| Solver.SecondScanFold | src/solver.rs:458-518 | the second search equals its bookkeeping folded over the candidates' worst results |
| Solver.SecondFoldRuns | src/solver.rs:501-516 | that bookkeeping runs through exactly when no candidate wins against every reply and none panicked |
| Solver.SecondFoldWins | src/solver.rs:502-507 | it stops on a win only at a candidate that wins against every reply, after candidates that did not, and returns it |
| Solver.SecondFoldKeeps | src/solver.rs:508-516 | what it keeps names a candidate with that worst result and is never a win; it is a loss only when every candidate loses; it keeps nothing only when there was no candidate |
| Solver.SecondScanAppend | src/solver.rs:463-517 | one more candidate is one step of the bookkeeping on its worst result |
| Solver.SecondScanStopped | src/solver.rs:502-507 | once the second search has returned or panicked, later candidates change nothing |
| Solver.SecondScanStoppedWithin | src/solver.rs:502-507 | a search stopped within a card's moves ignores the rest of that card |
| Solver.SecondScanStopsAfter | src/solver.rs:458-518 | a search stopped after `k` cards ignores the remaining cards |
| Solver.SolveSecond | src/solver.rs:442-521 | the nested loops, with their breaks and early return, compute the second search's definition |
| Solver.SolveSecondCard | src/solver.rs:463-517 | the loop over one card's moves advances the search by exactly that card's candidates |
| Solver.SolveSecondCandidate | src/solver.rs:463-516 | one candidate's body is one step of the bookkeeping on its worst result |
| Solver.WorstReplies | src/solver.rs:465-499 | the reply loop with its breaks computes the candidate's worst result |
| Solver.ReplyResult | src/solver.rs:468-498 | one reply's body gives that reply's outcome |
| Solver.AgainstCharacterised | src/solver.rs:463-499 | a candidate's worst result is a win exactly when every reply is a win, a draw exactly when none beats it or panics and one draws, and a loss only at a reply that beats it |
| Solver.SolveSecondCharacterised | src/solver.rs:442-521 | an answer names a candidate and carries its worst result; other than a win, no candidate wins against every reply; a loss means every candidate loses to some reply |
| Solver.ClearedHand | src/solver.rs:443-459 | with the first mover's commit stored, the hand searched after clearing the selections is the hand of the side to move |
| Solver.Solve | src/solver.rs:417-440 | with one commit stored the second search answers, otherwise the first search |
| Solver2.CollectShape | src/solver_2.rs:802-829 | inserting the subtrees of distinct selections yields a map exactly when no subtree panicked, with exactly those selections as keys, each holding its own subtree |
| Solver2.SubTrees | src/solver_2.rs:807-826 | the subtree of every candidate, in order |
| Solver2.TreeScanCollects | src/solver_2.rs:802-829 | the tree loop equals inserting every candidate's subtree |
| Solver2.SubTreesPrefix | src/solver_2.rs:802-829 | the subtrees of a prefix of the candidates are a prefix of the subtrees |
| Solver2.TreeScanAppend | src/solver_2.rs:807-826 | one more candidate inserts its subtree |
| Solver2.TreeScanPanicked | src/solver_2.rs:814 | once a recursive call has panicked, later candidates change nothing |
| Solver2.TreeScanPanickedWithin | src/solver_2.rs:807-827 | a panic within a card's moves is a panic of the whole card |
| Solver2.TreeScanPanicsAfter | src/solver_2.rs:802-828 | a panic after `k` cards is a panic of the whole tree |
| Solver2.FillTree | src/solver_2.rs:796-830 | the loops over cards and moves compute the tree's definition |
| Solver2.FillTreeAt | src/solver_2.rs:802-828 | one card's iteration: skipped when played, a panic when the pool is outside the tables, otherwise the tree extended by that card's moves |
| Solver2.FillTreeCard | src/solver_2.rs:807-827 | the loop over one card's moves extends the tree by exactly that card's candidates |
| Solver2.FillTreeLeaf | src/solver_2.rs:808-826 | one move's body gives that move's subtree |
| Solver2.FillTreeKeys | src/solver_2.rs:796-830 | the tree's keys are exactly the selections of an unplayed card with a move the pool of the side to move affords |
| Solver2.FillTreeNodes | src/solver_2.rs:811-826 | each node mirrors the status after its selection, and below a node still in play lies the tree of the game after it |
| Solver2.FillTreePanics | src/solver_2.rs:796-830 | the tree panics exactly when the pool is outside the tables while a card is left, or the subtree of some legal selection panics |
| Solver2.GetScore | src/solver_2.rs:742-757 | the loop over the map computes the worst score |
| Solver2.WorstIsMinimum | src/solver_2.rs:747-754 | a map's worst score is the least of 1 and its children's scores |
| Solver2.WorstTwoOnlyWin | src/solver_2.rs:742-757 | only a player win scores 2 |
| Solver2.WorstLosesIffReachable | src/solver_2.rs:742-757 | a tree scores -2 exactly when some line of play in it ends in an opponent win |
| Solver2.LossPath | src/solver_2.rs:747-754 | a tree scoring -2 has a line of play to an opponent win |
| Solver2.PathLoses | src/solver_2.rs:747-754 | a tree with a line of play to an opponent win scores -2 |
| Solver2.AnswersUpTo | src/solver_2.rs:856-891 | the answers of the first `k` cards name only those cards |
| Solver2.AnswersUpToMembers | src/solver_2.rs:856-871 | an answer is a card below `k` that player 2 may take, with a move of the row |
| Solver2.AnswersFrom | src/solver_2.rs:856-891 | the answers from card `k` on name cards of the hand |
| Solver2.AnswersSplit | src/solver_2.rs:856-891 | the answers of all cards are those of the first `k` followed by the rest |
| Solver2.NoAnswersEmpty | src/solver_2.rs:856-864 | when player 2 may take no card there are no answers |
| Solver2.Branches | src/solver_2.rs:847-895 | the branch of every first selection, in order |
| Solver2.BothTrees | src/solver_2.rs:866-890 | the subtree of every answer, in order |
| Solver2.BranchScanCollects | src/solver_2.rs:843-896 | the outer loops equal inserting every first selection's branch |
| Solver2.BranchesPrefix | src/solver_2.rs:843-896 | the branches of a prefix of the candidates are a prefix of the branches |
| Solver2.ReplyScanCollects | src/solver_2.rs:856-892 | the inner loops equal inserting every answer's subtree |
| Solver2.BothTreesPrefix | src/solver_2.rs:856-892 | the subtrees of a prefix of the answers are a prefix of the subtrees |
| Solver2.BranchScanAppend | src/solver_2.rs:847-895 | one more first selection inserts its branch |
| Solver2.ReplyScanAppend | src/solver_2.rs:866-890 | one more answer inserts its subtree |
| Solver2.BranchScanPanicked | src/solver_2.rs:843-896 | once a branch has panicked, later first selections change nothing |
| Solver2.ReplyScanPanicked | src/solver_2.rs:856-892 | once an answer's subtree has panicked, later answers change nothing |
| Solver2.BranchScanPanickedWithin | src/solver_2.rs:847-895 | a panic within a card's moves is a panic of the whole card |
| Solver2.ReplyScanPanickedWithin | src/solver_2.rs:866-890 | a panic within an answering card's moves is a panic of all answers |
| Solver2.BranchScanPanicsAfter | src/solver_2.rs:843-896 | a panic after `k` cards is a panic of the whole tree |
| Solver2.ReplyScanPanicsAfter | src/solver_2.rs:856-892 | a panic after `k` answering cards is a panic of all answers |
| Solver2.FillTreeAbab | src/solver_2.rs:832-898 | the loops over player 1's cards and moves compute the simultaneous tree's definition |
| Solver2.AbabAt | src/solver_2.rs:843-896 | one card of player 1: skipped when played, a panic when the pool is outside the tables, otherwise the tree extended by that card's moves |
| Solver2.AbabMoves | src/solver_2.rs:847-895 | an unplayed card's moves extend the tree, or the whole tree panics |
| Solver2.AbabCard | src/solver_2.rs:847-895 | the loop over one card's moves extends the tree by exactly that card's branches |
| Solver2.AbabReplies | src/solver_2.rs:854-892 | the inner loops compute the answers to one first selection |
| Solver2.AbabAnswerCard | src/solver_2.rs:856-891 | one card of player 2: skipped when it is not the committed one or is played, a panic when the pool is outside the tables, otherwise the answers extended by its moves |
| Solver2.AbabAnswerMoves | src/solver_2.rs:866-891 | an answering card's moves extend the answers, or all answers panic |
| Solver2.AbabReplyCard | src/solver_2.rs:866-891 | the loop over one answering card's moves extends the answers by exactly its subtrees |
| Solver2.AbabLeaf | src/solver_2.rs:873-889 | one answer's body gives its subtree: the status as a leaf, or the tree of the game after both selections |
| Solver2.AbabShape | src/solver_2.rs:843-896 | the tree's keys are exactly player 1's affordable selections of unplayed cards, each holding a map of its answers |
| Solver2.RepliesKeys | src/solver_2.rs:856-871 | the answers' keys are exactly player 2's affordable selections of unplayed cards, restricted to the committed card when player 2 has committed |
| Solver2.RepliesNodes | src/solver_2.rs:873-889 | each answer mirrors the status after both selections, with the tree of that game below a map |

## Left out

- Catalog loading is left out. This covers the JSON loads of the card and ability tables, the `Condition` deserializer with its regular expression, and the global `CONDITION_CLANS` list. The catalog is a pair of lookup functions (`Effects.Catalog`) passed to every operation that reads it. A condition stores its clan list directly instead of an index into `CONDITION_CLANS`.
- Printing, colours, `Display` implementations and the print toggles have no effect on the game and are left out.
- Floating-point arithmetic is left out: the win rates and rankings of the `middle*` functions and `get_best_moves`, and the average in `get_score`. Only the integer worst score is modelled.
- The rayon parallel fan-out and the `Instant` timing are left out, as are the `BATTLE_COUNT` counter, the HTTP server (`server.rs`), the command line and stdin loop (`main.rs`), and the JSON-driven test harness (`testcases.rs`).
- `RefCell` borrowing is modelled as plain fields of one `Game` object.
- `Hand::random_hand_clan` (randomness) and `CardData::year` (the clock) are left out.
- The unused tables `SHIFT_RANGES`, `RANGES` and `FALSE_RANGES` (src/solver.rs:616-644, 702-722, 743-759) are left out, since no accessor reads them.
- `solver_2.rs` repeats the range tables and `solve_first`/`solve_second` of `solver.rs`. They are modelled once, in module `Solver`, and `Solver2` uses them.
- `Events::init` (src/game.rs:467-468) is not defined in `battle.rs`. It is modelled as doing nothing.
- `select_both` (src/solver_2.rs:874) is not defined in the source. `fill_tree_abab` takes it as a parameter `both`, about which only `Solver2.BothAdvances` is assumed: a game still in play after it stays searchable (round below 4, selections in range) and has a smaller measure (three steps per remaining round, less one per stored selection).
- The solvers take the selection step as a parameter `play` obeying `Solver.Advances`, so that their recursion terminates. `Solver.SelectorAdvances` proves that the game's own `select` (`Solver.Selector`) obeys it.
- `Game::can_select` (src/main.rs:106) is not part of this model. `Game.Game.Select` requires only an index below 4 and pending selections that are in range, which is what the battle itself reads.
- `BattleData` is flat (a side and two card indices), as `game.rs` and `modifiers.rs` use it, not nested as `battle.rs` declares it.
- The `remove` flag of an ability is a boolean, as `ability.rs` declares it. The test `remove == None` in `battle.rs` is read as `!remove`.
- `check_cancels` reads `.attr` of the cancelled slot, which does not exist on `CardAttr`. It is read as that slot's counters.
- Modifiers.Modify: the `i32` product `change * multiplier` is computed without overflow, because catalog values are small.
- Modifiers.RecoverApply: `out_of` is a positive byte by its type, since division by zero would panic.
- Unchecked `u8` arithmetic wraps around, as a release build does:
  - the attack `(pillz + 1) * power`;
  - the pillz deduction;
  - `4 - round`;
  - the recover product;
  - `attack * 2` in Killshot;
  - `remove_cancel` at zero;
  - the fury `+ 2` to damage.

  A debug build panics on these instead, and that panic is not modelled. The lemmas `Game.AttackWraps`, `Game.PillzUnderflow`, `Modifiers.DegrowthWrapsAfterRoundFour`, `Modifiers.RecoverProductWraps`, `Abilities.KillshotDoubleWraps` and `Cards.RemoveCancelUnderflow` exhibit inputs that wrap.
- StackVec.StackVec4.Push requires a free slot. The source writes past the end without a check, which is undefined behaviour.
- HashMap iteration order is left out. `fill_tree` builds a Dafny map, whose keys carry no order, and the worst score is a minimum, which does not depend on order. The `clan_counts` tally is a Dafny map that is only read by key.
