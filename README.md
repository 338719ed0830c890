# Buckshot Roulette, modelled in Dafny

This project models the game logic of a Buckshot Roulette simulator and proves properties of it.
In the game, players take turns with a shotgun loaded with a known number of live and blank shells in an unknown order.
On a turn a player either shoots someone (possibly themselves) or uses an item that changes the odds or the rules.

The model covers the following parts of the simulator:

- The boards:
  - the N-player board of `buckshot_roulette/multiplayer/game.py` and its older sibling `buckshot_roulette/mp_game.py`;
  - the two-player boards of `buckshot_roulette/game.py`, `buckshot_roulette/singleplayer/game.py` and `cli_game.py`.

  A board holds per-player charges (lives), a per-player item record, transient effects (saw, handcuffs, adrenaline, jams), whose turn it is and, depending on the board, the shell list or only its counts.
- The knowledge-tracking dealers of `buckshot_roulette/ai.py` and `buckshot_roulette/multiplayer/ai.py`. They remember which shells they have seen and derive the front shell from the counts.
- The engines of `stat_engine.py` and `new_engine.py`:
  - an exact expected-damage recursion over item bundles;
  - a rule-list dealer;
  - an expectimax search with move pruning and a charge-difference heuristic.

How the Python is modelled:

- Every Python exception becomes an `Err` of the `Common.Result` type. The model keeps any state that the Python code had already changed before it raised.
- Randomness is a parameter: `random.choice`, `random.choices`, `random.randint` and `random.shuffle` become caller-supplied pick numbers, taken modulo the size of the range they draw from.
- Probabilities are exact `real` values.
- A board whose methods update fields in place is a Dafny `class`. Each method's `ensures` ties its result and new state to a specification function on an immutable `State` value. The game's rules are then proved as lemmas about those functions.

Modules:

- `common.dfy` (`Common`): results and Python indexing.
- `shells.dfy` (`Shells`): shell arrangements, numbered in `itertools.combinations` order, and the binomial coefficient.
- `inventory.dfy` (`Inventory`): item records, their iteration order, `+`, `+=` and item drops.
- `multiplayer_game.dfy` (`MultiplayerGame`): the N-player board.
- `duel.dfy` (`Duel`): the two-player rules shared by `buckshot_roulette/game.py` (records, shots, item effects, drops).
- `game.dfy` (`Game`): the two-player board of `buckshot_roulette/game.py` as a class.
- `singleplayer_game.dfy` (`Singleplayer`): the two-player board of `buckshot_roulette/singleplayer/game.py`, which keeps only shell counts.
- `cli_game.dfy` (`Cli`): the board of `cli_game.py` and its shell-arrangement helpers.
- `mp_game.dfy` (`MpGame`): the older N-player board of `buckshot_roulette/mp_game.py`.
- `multiplayer_ai.dfy` (`MultiplayerAi`): the knowledge-tracking dealer and the random agent for the N-player board.
- `ai.dfy` (`Ai`): the knowledge-tracking dealer and the random agent for the two-player board.
- `stat_engine.dfy` (`StatEngine`): the expected-damage engine and the rule-list dealer of `stat_engine.py`.
- `new_engine.dfy` (`NewEngine`): the expectimax search of `new_engine.py` over the `cli_game.py` board.

## Model

| member | source | states |
|---|---|---|
| Inventory.Zero | buckshot_roulette/multiplayer/game.py:8-17 | A default-constructed record has exactly the board's kinds, each with count 0 |
| Inventory.ItemCountZero | buckshot_roulette/multiplayer/game.py:19-20 | `item_count()` of a fresh record is 0 |
| Inventory.ItemCountBump | buckshot_roulette/multiplayer/game.py:19-20 | Changing one kind's count by d changes `item_count()` by exactly d |
| Inventory.ItemCountOther | buckshot_roulette/multiplayer/game.py:19-20 | Changing a kind the record's order does not list leaves `item_count()` unchanged |
| Inventory.HeldMembers | buckshot_roulette/multiplayer/game.py:72-83 | Iterating a record yields a kind iff the kind is in `POSSIBLE_ITEMS` and its count is at least 1 |
| Inventory.HeldDistinct | buckshot_roulette/multiplayer/game.py:72-83 | Iteration yields each kind at most once when `POSSIBLE_ITEMS` has no repeats |
| Inventory.HeldSkip | buckshot_roulette/multiplayer/game.py:74-75 | Skipping kinds whose count is below 1 does not change what the iteration yields |
| Inventory.SkipEmpty | buckshot_roulette/multiplayer/game.py:74-75 | The skip loop stops at the first held kind or at the end of the order, and it loses no yielded kind |
| Inventory.ItemIterable.Next | buckshot_roulette/multiplayer/game.py:72-83 | `__next__` returns the first held kind at or after the index and moves past it; StopIteration (None) means no held kind remains |
| Inventory.HeldKinds | buckshot_roulette/multiplayer/game.py:31-32 | Driving the iterator to StopIteration collects exactly the held kinds in `POSSIBLE_ITEMS` order |
| Inventory.Add | buckshot_roulette/multiplayer/game.py:41-44 | `a + b` has `a[k] + b[k]` for every kind `a` holds and 0 for every other kind |
| Inventory.IAdd | buckshot_roulette/multiplayer/game.py:46-51 | `a += b` adds `b[k]` to each kind `a` held and leaves the other kinds' counts unchanged |
| Inventory.AddAll | buckshot_roulette/multiplayer/game.py:269-271 | Adding a record kind by kind over the order gives `total[k] + rec[k]` for each listed kind and leaves the rest unchanged |
| Inventory.Eligible | buckshot_roulette/mp_game.py:143 | The offered kinds are exactly those below the per-player cap, a subsequence of the order (so in order), without repeats when the order has none |
| Inventory.EligibleGlobal | buckshot_roulette/multiplayer/game.py:276 | The offered kinds are exactly those below both the per-player cap and the global cap, a subsequence of the order (so in order), without repeats when the order has none |
| Inventory.RemoveFirst | buckshot_roulette/multiplayer/game.py:280-281 | `list.remove` drops one occurrence of a listed kind, changes nothing else, and leaves no copy in a repeat-free list |
| Inventory.DrawsFrom | buckshot_roulette/multiplayer/game.py:284 | `random.choices(choices, k=n)` on a non-empty list gives exactly n picks, the j-th being `choices[draw(j) mod len]`, all from `choices`; an empty list is kept from it by the guard of line 283 here, and is an IndexError of the drop on the two-player board (`Duel.Gift`) and on `buckshot_roulette/mp_game.py` (`MpGame.Gift`) |
| Inventory.Credit | buckshot_roulette/multiplayer/game.py:285-286 | The crediting loop adds to each count the number of times its kind was drawn |
| Inventory.ItemCountCredited | buckshot_roulette/multiplayer/game.py:285-286 | Crediting n drawn items raises `item_count()` by exactly n |
| MultiplayerGame.StatusOf | buckshot_roulette/multiplayer/game.py:85-92 | `GameStatus(n)` exists exactly for 0..6 and has value n |
| MultiplayerGame.StatusRoundTrip | buckshot_roulette/multiplayer/game.py:85-92 | Looking a status up by its value gives that status back |
| MultiplayerGame.JamStatus | buckshot_roulette/multiplayer/game.py:403-411 | A jam marks a seat only when it is 0..3, with the status of that value |
| MultiplayerGame.SequenceConfig.Fire | buckshot_roulette/multiplayer/game.py:118-122 | Firing takes one shell off the live count or off the blank count, according to the shell, and changes nothing else |
| MultiplayerGame.OffsetToIdx | buckshot_roulette/multiplayer/game.py:306-307 | An offset maps to a seat index in [0, player_count) |
| MultiplayerGame.IdxToOffset | buckshot_roulette/multiplayer/game.py:308-309 | A seat index maps to an offset in [0, player_count) |
| MultiplayerGame.OffsetRoundTrip | buckshot_roulette/multiplayer/game.py:306-309 | `idx_to_offset(offset_to_idx(o)) == o mod player_count` |
| MultiplayerGame.IdxRoundTrip | buckshot_roulette/multiplayer/game.py:306-309 | `offset_to_idx(idx_to_offset(i)) == i mod player_count` |
| MultiplayerGame.LivingMembers | buckshot_roulette/multiplayer/game.py:311-313 | `living_players()` lists exactly the seats with charges > 0, in increasing order |
| MultiplayerGame.LivingOffsets | buckshot_roulette/multiplayer/game.py:314-315 | `living_players(as_offset=True)` is the seat list mapped through `idx_to_offset` |
| MultiplayerGame.Winner | buckshot_roulette/multiplayer/game.py:317-321 | A reported winner is a seat with charges left |
| MultiplayerGame.WinnerSole | buckshot_roulette/multiplayer/game.py:317-321 | The winner is w exactly when w is the only seat with charges left |
| MultiplayerGame.GlobalCount | buckshot_roulette/multiplayer/game.py:268-271 | The global count of each kind is the sum of that kind over all players |
| MultiplayerGame.CountAll | buckshot_roulette/multiplayer/game.py:268-271 | The counting loop computes the global count |
| MultiplayerGame.Choices | buckshot_roulette/multiplayer/game.py:276-281 | A kind is offered iff it is below the player's cap and the global cap, and it is not the saw when start_charges <= 2 |
| MultiplayerGame.Allowance | buckshot_roulette/multiplayer/game.py:284 | A player is given at most min(item_count, 8 - held) items |
| MultiplayerGame.Gift | buckshot_roulette/multiplayer/game.py:276-286 | One player's drop keeps the record's kinds |
| MultiplayerGame.GiftOf | buckshot_roulette/multiplayer/game.py:276-286 | One player's drop, computed with the iterator and the crediting loop |
| MultiplayerGame.GiftCount | buckshot_roulette/multiplayer/game.py:283-286 | A player gains exactly the allowance when some kind is offered, and nothing otherwise |
| MultiplayerGame.GiftKinds | buckshot_roulette/multiplayer/game.py:276-286 | Only offered kinds grow, and none shrinks |
| MultiplayerGame.GiveFromAt | buckshot_roulette/multiplayer/game.py:272-275 | The loop gives to each player before the first one holding exactly 8 items, and to nobody from that player on |
| MultiplayerGame.GiveItemsEffect | buckshot_roulette/multiplayer/game.py:267-286 | A player's record changes only if every earlier player held fewer than 8 items; it then grows by the allowance of offered kinds, counted against the global count taken at the start |
| MultiplayerGame.GiveItemsCapped | buckshot_roulette/multiplayer/game.py:267-286 | A player holding at most 8 items still holds at most 8 after the drop |
| MultiplayerGame.GiveAll | buckshot_roulette/multiplayer/game.py:267-286 | The imperative give loop computes the specified drop |
| MultiplayerGame.GiveLoop | buckshot_roulette/multiplayer/game.py:272-286 | The per-player loop stops at the first player holding 8 and gives the precomputed drop to everyone before |
| MultiplayerGame.BuckshotRoulette.GiveItems | buckshot_roulette/multiplayer/game.py:267-286 | `give_items` changes only the item records, as specified |
| MultiplayerGame.SwitchFromFrame | buckshot_roulette/multiplayer/game.py:295-304 | The scan changes only statuses (it only removes them) and the turn; a found seat has charges left; running out of steps raises ValueError |
| MultiplayerGame.SwitchTurnEffect | buckshot_roulette/multiplayer/game.py:288-304 | With a winner, `switch_turn` returns it and changes nothing. Otherwise it only clears jams and sets the turn to the living seat it returns, or raises ValueError |
| MultiplayerGame.StepClosed | buckshot_roulette/multiplayer/game.py:296 | j steps of `n = (n + turn_inc) % player_count` land on `(n + j*turn_inc) mod player_count` |
| MultiplayerGame.StepRound | buckshot_roulette/multiplayer/game.py:296 | player_count steps bring the scan back to where it started |
| MultiplayerGame.StepReaches | buckshot_roulette/multiplayer/game.py:295-296 | Every seat is reached within player_count steps |
| MultiplayerGame.SwitchFromFinds | buckshot_roulette/multiplayer/game.py:295-304 | A living seat reached within the step budget, counting one extra round if it was jammed, is found |
| MultiplayerGame.SwitchTurnFinds | buckshot_roulette/multiplayer/game.py:288-304 | With at most four seats, `switch_turn` never raises while some seat has charges left |
| MultiplayerGame.BuckshotRoulette.SwitchTurn | buckshot_roulette/multiplayer/game.py:288-304 | The imperative scan returns and leaves the state that `switch_turn`'s specification gives |
| MultiplayerGame.NextSequenceEffect | buckshot_roulette/multiplayer/game.py:258-265 | `next_sequence` clears the statuses, advances `sequence_idx` modulo the number of sequences, sets total and live from that sequence and, when dropping, gives its items |
| MultiplayerGame.ReloadsCycle | buckshot_roulette/multiplayer/game.py:259-260 | k reloads advance `sequence_idx` by k modulo the number of sequences |
| MultiplayerGame.BuckshotRoulette.NextSequence | buckshot_roulette/multiplayer/game.py:258-265 | The method updates the board as `next_sequence` specifies |
| MultiplayerGame.Initial | buckshot_roulette/multiplayer/game.py:236-252 | A new board gives every player start_charges and an empty record |
| MultiplayerGame.BuckshotRoulette.constructor | buckshot_roulette/multiplayer/game.py:236-253 | The board is built and then reloaded once |
| MultiplayerGame.RemoveSeat | buckshot_roulette/multiplayer/game.py:327 | `list.remove` takes one occurrence of the seat out and keeps every other seat |
| MultiplayerGame.Opponents | buckshot_roulette/multiplayer/game.py:326-327 | The opponents are exactly the living seats other than the mover |
| MultiplayerGame.ShootEntriesMembers | buckshot_roulette/multiplayer/game.py:341-343 | The shoot entries are `(0, shoot_o)` for exactly the living offsets o |
| MultiplayerGame.JamEntriesMembers | buckshot_roulette/multiplayer/game.py:335-348 | The jammer entries of a holder are one per listed target offset |
| MultiplayerGame.ItemEntriesMembers | buckshot_roulette/multiplayer/game.py:331-350 | An item entry is listed iff its kind is held (adrenaline excluded when stealing), with jammer entries per target |
| MultiplayerGame.OwnMovesExact | buckshot_roulette/multiplayer/game.py:338-350 | The normal move list holds exactly the shoot entries for living offsets, plus item entries owned by the last living offset: held non-jammer items and jams of living non-zero offsets |
| MultiplayerGame.ShootSelfListed | buckshot_roulette/multiplayer/game.py:341-343 | The mover may shoot itself exactly when it is alive |
| MultiplayerGame.OwnMovesError | buckshot_roulette/multiplayer/game.py:338-350 | The normal list raises UnboundLocalError exactly when nobody is alive and the mover holds a non-jammer item |
| MultiplayerGame.OwnMovesList | buckshot_roulette/multiplayer/game.py:338-350 | The imperative loops compute the normal move list |
| MultiplayerGame.ShootList | buckshot_roulette/multiplayer/game.py:341-343 | The shoot loop lists the shoot entries and leaves `player` bound to the last living offset |
| MultiplayerGame.ItemList | buckshot_roulette/multiplayer/game.py:345-350 | The item loop raises UnboundLocalError when `player` was never bound and a non-jammer item is held; otherwise it lists the item entries |
| MultiplayerGame.StolenList | buckshot_roulette/multiplayer/game.py:330-337 | One opponent's stealable entries, computed by a loop |
| MultiplayerGame.StealMovesSound | buckshot_roulette/multiplayer/game.py:326-337 | Every adrenaline entry belongs to a listed opponent other than the mover and names one of their held, stealable items |
| MultiplayerGame.StealMovesComplete | buckshot_roulette/multiplayer/game.py:326-337 | Every held, stealable item of a listed opponent appears as an adrenaline entry |
| MultiplayerGame.StealLoop | buckshot_roulette/multiplayer/game.py:328-337 | The loop over opponents computes the adrenaline entries |
| MultiplayerGame.StealList | buckshot_roulette/multiplayer/game.py:324-337 | The adrenaline branch raises ValueError when the mover is not among the living (`list.remove`), and otherwise computes the stolen entries with the loops |
| MultiplayerGame.AdrenalineMovesExact | buckshot_roulette/multiplayer/game.py:324-337 | Under adrenaline, the list fails exactly when the mover is dead. Otherwise it has exactly one entry per held non-adrenaline, non-jammer item of each living opponent, and the jams of opponents' offsets for each held jammer |
| MultiplayerGame.MovesSpec | buckshot_roulette/multiplayer/game.py:323-357 | `moves()` only removes statuses, and a returned list is never empty |
| MultiplayerGame.MovesChoice | buckshot_roulette/multiplayer/game.py:323-357 | Under adrenaline the stolen list is returned; when it is empty, adrenaline is cleared and the normal list is returned |
| MultiplayerGame.MovesOwn | buckshot_roulette/multiplayer/game.py:338-357 | Without adrenaline, `moves()` changes nothing and returns the normal list |
| MultiplayerGame.MovesErrors | buckshot_roulette/multiplayer/game.py:323-357 | `moves()` raises only ValueError, UnboundLocalError or KeyError |
| MultiplayerGame.BuckshotRoulette.Moves | buckshot_roulette/multiplayer/game.py:323-357 | The method returns and leaves what `moves()` specifies |
| MultiplayerGame.TakeFrom | buckshot_roulette/multiplayer/game.py:366-373 | The items used are a valid seat's; adrenaline is consumed |
| MultiplayerGame.TakeFromEffect | buckshot_roulette/multiplayer/game.py:366-373 | Without adrenaline the mover's items are used. Under adrenaline, a missing target raises ValueError and an out-of-range target raises IndexError, neither changing anything; a valid target's record (negative targets count from the end) is used and adrenaline is cleared |
| MultiplayerGame.BuckshotRoulette.TakeItems | buckshot_roulette/multiplayer/game.py:366-373 | The method picks the record and state as specified |
| MultiplayerGame.Damage | buckshot_roulette/multiplayer/game.py:382-388 | Damage is at most 2 and is 0 exactly for a blank |
| MultiplayerGame.ShootEffect | buckshot_roulette/multiplayer/game.py:377-398 | A shot decrements total, decrements live only for a live shell, clears the saw, floors the target's charges at 0 after 1 or 2 damage, and leaves the items, turn_inc and sequence unchanged |
| MultiplayerGame.ShootReport | buckshot_roulette/multiplayer/game.py:377-398 | A blank at oneself returns 0 and keeps the turn; other shots return the damage (negated at oneself) for everyone, with the remaining shells, or switch_turn's ValueError |
| MultiplayerGame.ShootTracksShells | buckshot_roulette/multiplayer/game.py:377-385 | If total and live described the shell list before a shot, they describe the remaining shells after it |
| MultiplayerGame.BuckshotRoulette.ShootAt | buckshot_roulette/multiplayer/game.py:377-398 | The method applies a shot as specified |
| MultiplayerGame.ItemSpent | buckshot_roulette/multiplayer/game.py:399-447 | An item move takes exactly one of its kind from the chosen record, even when it then fails; shots spend nothing |
| MultiplayerGame.UseSpends | buckshot_roulette/multiplayer/game.py:414-447 | Each item the board knows is spent once from the chosen record |
| MultiplayerGame.AdrenalineConsumed | buckshot_roulette/multiplayer/game.py:366-440 | Any move other than adrenaline leaves adrenaline inactive, and only an adrenaline move can activate it |
| MultiplayerGame.CigarettesHeal | buckshot_roulette/multiplayer/game.py:421-423 | Cigarettes heal the mover by 1, capped at start_charges, and change no other seat |
| MultiplayerGame.BeerEjects | buckshot_roulette/multiplayer/game.py:424-432 | Beer with more than one shell ejects and reveals the front shell; otherwise it empties the list and reveals nothing. Total and live are untouched |
| MultiplayerGame.InverterFlips | buckshot_roulette/multiplayer/game.py:441-444 | The inverter flips the front shell only, changes the live count by one, and marks the inverter uncertainty |
| MultiplayerGame.RemoteReverses | buckshot_roulette/multiplayer/game.py:445-448 | The remote negates turn_inc and reports it; using it twice restores the direction |
| MultiplayerGame.BurnerPeeks | buckshot_roulette/multiplayer/game.py:433-437 | With more than two shells the phone privately reveals the shell at an index in [2, len); otherwise it reveals nothing. The shells are unchanged |
| MultiplayerGame.BurnerReachesAll | buckshot_roulette/multiplayer/game.py:433-437 | Every index in [2, len) can be the one revealed |
| MultiplayerGame.GlassReveals | buckshot_roulette/multiplayer/game.py:418-420 | The glass privately reveals the front shell, or raises IndexError when there are no shells |
| MultiplayerGame.SawDoubles | buckshot_roulette/multiplayer/game.py:385-417 | After the saw, a live shot deals 2 damage (floored at 0) and clears the saw |
| MultiplayerGame.JamEffect | buckshot_roulette/multiplayer/game.py:399-412 | A jam returns the target seat, jams it when it is 0..3, adds no other status, and leaves charges and turn unchanged |
| MultiplayerGame.BuckshotRoulette.JamSeat | buckshot_roulette/multiplayer/game.py:399-412 | The method applies a jam as specified |
| MultiplayerGame.BuckshotRoulette.UseItem | buckshot_roulette/multiplayer/game.py:413-447 | The method applies an item move as specified |
| MultiplayerGame.BuckshotRoulette.ApplyMove | buckshot_roulette/multiplayer/game.py:366-447 | The method applies any move as specified, up to the reload |
| MultiplayerGame.MakeMoveReload | buckshot_roulette/multiplayer/game.py:449-450 | An emptied shell list with reloading allowed triggers `next_sequence`; otherwise the move's state stands |
| MultiplayerGame.BuckshotRoulette.MakeMove | buckshot_roulette/multiplayer/game.py:359-450 | `make_move` returns and leaves the state that its specification gives |
| MultiplayerGame.LivingEmpty | buckshot_roulette/multiplayer/game.py:311-313 | Nobody is listed as living exactly when every seat has charges of 0 or less |
| MultiplayerGame.LivingOnce | buckshot_roulette/multiplayer/game.py:327 | Removing a seat from a strictly increasing seat list leaves no copy of it |
| MultiplayerGame.NextSeat | buckshot_roulette/multiplayer/game.py:296 | One scan step lands on a seat index in [0, player_count) |
| MultiplayerGame.OffsetZero | buckshot_roulette/multiplayer/game.py:308-309 | A seat's offset is 0 exactly when it is the mover's seat |
| MultiplayerGame.AdrenalineSound | buckshot_roulette/multiplayer/game.py:326-337 | Every adrenaline entry names a listed opponent other than the mover and an item of theirs that may be stolen, or a jam at a listed target |
| MultiplayerGame.AdrenalineComplete | buckshot_roulette/multiplayer/game.py:326-337 | Every stealable item of a listed opponent, and every jam target, is listed as an adrenaline entry |
| MultiplayerGame.UseInverter | buckshot_roulette/multiplayer/game.py:441-444 | The inverter spends one inverter, flips the front shell and adds the inverter uncertainty, and nothing else |
| MultiplayerGame.StealFrom | buckshot_roulette/multiplayer/game.py:330-337 | The loop over one opponent's items computes that opponent's stealable entries |
| MultiplayerGame.BuckshotRoulette.SpendItem | buckshot_roulette/multiplayer/game.py:414-416 | The method takes one item of the kind from the chosen record, as specified |
| MultiplayerGame.BuckshotRoulette.UseLater | buckshot_roulette/multiplayer/game.py:438-447 | The method applies the adrenaline, inverter, remote and phone moves as specified |
| Shells.Unrank | cli_game.py:200-214 | Arrangement number k of x live shells among n has n shells, exactly x of them live |
| Shells.Rank | cli_game.py:200-214 | Every list of x live shells among n has a number below n choose x |
| Shells.UnrankRank | cli_game.py:200-214 | Numbering a shell list and unranking the number gives the list back |
| Shells.RankUnrank | cli_game.py:200-214 | Unranking a number below n choose x and numbering the result gives the number back |
| Shells.UnrankInjective | cli_game.py:200-214 | Different numbers give different lists, so `generate_binary_numbers` lists no arrangement twice |
| Shells.UnrankSurjective | cli_game.py:200-214 | Every list with x live shells among n is listed |
| Shells.UnrankOrdered | cli_game.py:207-212 | The lists come in the order `itertools.combinations` yields their sets of live positions |
| Shells.ChooseFactorial | cli_game.py:216-221 | n choose x times x!(n-x)! is n!, so the floor division in `binomial_coefficient` is exact |
| Shells.FactorialQuotient | cli_game.py:216-221 | `binomial_coefficient(x, n)` is n choose x, the number of lists `generate_binary_numbers` returns |
| Shells.ChoosePositive | cli_game.py:26 | For 0 <= x <= n there is at least one arrangement, so `random.choice` never gets an empty list |
| Shells.Shuffled | buckshot_roulette/game.py:90-91 | A shuffle outcome keeps the number of shells and the number of live shells |
| Shells.ShuffledCoversAll | buckshot_roulette/game.py:90-91 | Every order of the shells is a possible shuffle outcome |
| Duel.NineCapsValues | buckshot_roulette/game.py:61 | The caps are 1 handcuffs, 3 glasses, 2 beers, 1 cigarettes, 3 saws, 8 inverters, 1 burner phone, 1 meds, 2 adrenaline |
| Duel.NoneActive | buckshot_roulette/game.py:81 | A new board has every kind in the effect record, each at 0 |
| Duel.Opponent | buckshot_roulette/game.py:248-253 | The opponent is a seat below 2 other than the mover: seat 1 for seat 0 and seat 0 for seat 1 |
| Duel.Winner | buckshot_roulette/game.py:115-122 | There is no winner exactly when both players have a charge left; a winner is a seat whose opponent has none, and seat 0 wins only with a charge left |
| Duel.WinnerSole | buckshot_roulette/game.py:115-122 | When exactly one player has charges left, that player is the winner |
| Duel.Switch | buckshot_roulette/game.py:130-141 | The switch after a shot changes only the turn, the effects and `_skip_next`; charges, items and the public chamber stay |
| Duel.Target | buckshot_roulette/game.py:143 | A shot at the opponent hits the opponent and any other shot hits the mover |
| Duel.Hurt | buckshot_roulette/game.py:143-150 | A live shell takes 1 charge, or 2 with the saw in effect, from the target, clears the saw and changes nothing else |
| Duel.Fire | buckshot_roulette/game.py:124-155 | A shot keeps both item records and the set of kinds in the effect record |
| Duel.FireDamage | buckshot_roulette/game.py:124-155 | A shot drops exactly the front shell and hides the chamber; a live shell deals 1, or 2 with the saw, to the target and a blank none; an empty shotgun raises IndexError |
| Duel.FireBlankSelf | buckshot_roulette/game.py:154-155 | A blank at oneself keeps the turn, every effect and `_skip_next` |
| Duel.FireTurn | buckshot_roulette/game.py:130-153 | After any other shot the saw is cleared, handcuffs above 0.5 lose 0.5, and the turn stays exactly when handcuffs above 0.5 or `_skip_next` were in effect |
| Duel.HandcuffsOneExtraShot | buckshot_roulette/game.py:130-141 | Right after the handcuffs move, one shot keeps the turn and the next passes it: handcuffs give exactly one extra shot |
| Duel.ItemMovesMembers | buckshot_roulette/game.py:174-176 | The item moves are exactly the held kinds not in effect, each listed once |
| Duel.ListItems | buckshot_roulette/game.py:174-176 | The loop lists the kinds, in item order, that are held and not in effect |
| Duel.LegalItems | buckshot_roulette/game.py:157-164 | A kind is legal exactly when it is not in effect, held or not |
| Duel.ListLegal | buckshot_roulette/game.py:157-164 | The loop computes the legal items |
| Duel.ItemMovesLegal | buckshot_roulette/game.py:157-176 | Every item `moves()` lists is a legal item |
| Duel.Moves | buckshot_roulette/game.py:166-183 | Listing the moves keeps the board well formed |
| Duel.MovesStolen | buckshot_roulette/game.py:167-172 | Under adrenaline with an opponent item to take, the moves are exactly the opponent's held items not in effect, never adrenaline nor a shot, and the board is unchanged |
| Duel.MovesOwn | buckshot_roulette/game.py:166-183 | Otherwise the moves are 'op', 'self' and exactly the mover's held items not in effect; the only change is that a pending adrenaline is cleared |
| Duel.SpendOne | buckshot_roulette/game.py:197-235 | Spending takes exactly one item of the kind from one record and leaves every other count |
| Duel.Effect | buckshot_roulette/game.py:197-235 | An item's effect keeps the item records and every other kind's effect |
| Duel.UseItem | buckshot_roulette/game.py:197-235 | An item move keeps the board well formed |
| Duel.UseItemSpends | buckshot_roulette/game.py:197-235 | Every item move spends exactly one item of its kind from the record it uses and changes no other record |
| Duel.CigarettesHeal | buckshot_roulette/game.py:213-215 | Cigarettes report nothing, heal the mover by one when below `max_charges` and never above it, and leave the other charge |
| Duel.MagnifyingGlassShows | buckshot_roulette/game.py:201-204 | The glass reports the front shell and makes it public without moving it |
| Duel.BeerEjects | buckshot_roulette/game.py:205-212 | Beer with more than one shell ejects and reports the front shell; with one or none it empties the list and reports nothing |
| Duel.InverterFlips | buckshot_roulette/game.py:219-221 | The inverter flips the front shell only, so the live count moves by one |
| Duel.BurnerPhonePeeks | buckshot_roulette/game.py:222-226 | With more than one shell the phone reports a position other than the front and the shell there, and moves nothing |
| Duel.MedsGamble | buckshot_roulette/game.py:227-232 | Meds heal two charges, never above the maximum, or cost one |
| Duel.EffectsStart | buckshot_roulette/game.py:197-235 | Handcuffs, saw and adrenaline each put one more of their kind in effect; handcuffs also set `_skip_next` |
| Duel.Taker | buckshot_roulette/game.py:186-191 | The record a move uses is the opponent's under adrenaline and the mover's otherwise |
| Duel.Disarmed | buckshot_roulette/game.py:186-191 | Clearing a pending adrenaline leaves the items and no adrenaline in effect |
| Duel.Apply | buckshot_roulette/game.py:185-236 | `make_move` keeps the board well formed |
| Duel.ApplyShot | buckshot_roulette/game.py:192-196 | A shot clears adrenaline and leaves the item records |
| Duel.ApplyUse | buckshot_roulette/game.py:185-235 | An item move of the board is the item's branch on the record `Taker` names |
| Duel.ApplyItem | buckshot_roulette/game.py:185-235 | An item move spends one item from the opponent's record under adrenaline and from the mover's otherwise, leaves the other record, and clears adrenaline unless it is the adrenaline move |
| Duel.ChoicesMembers | buckshot_roulette/game.py:100-105 | The drop choices are exactly the kinds below their cap, without the saw when the board has at most 2 charges |
| Duel.Gift | buckshot_roulette/game.py:100-109 | A successful drop is again a record of the nine kinds |
| Duel.Gifts | buckshot_roulette/game.py:95-109 | Each player's drop is a record of the nine kinds or an error |
| Duel.GiveFrom | buckshot_roulette/game.py:96-109 | The loop from one player on leaves two records of the nine kinds |
| Duel.GiveItems | buckshot_roulette/game.py:95-109 | `give_items` leaves two records of the nine kinds |
| Duel.GiveAll | buckshot_roulette/game.py:95-109 | The method computes `give_items` |
| Duel.GiveLoop | buckshot_roulette/game.py:96-109 | The loop computes the drops of both players in turn |
| Duel.GiveTurn | buckshot_roulette/game.py:97-109 | One pass either raises what the loop raises or keeps the loop's invariant for the next player |
| Duel.DealTo | buckshot_roulette/game.py:100-109 | The loop body computes one player's drop |
| Duel.GiftCount | buckshot_roulette/game.py:100-109 | A drop fails exactly when there is nothing to choose from and a positive count; otherwise it adds exactly max(0, min(item_count, 8 - held)) items |
| Duel.GiftKinds | buckshot_roulette/game.py:100-109 | Every kind a drop raises was a possible choice |
| Duel.GiveAt | buckshot_roulette/game.py:96-109 | Each player ends with their old record or their drop, and nobody gets anything when player 0 holds exactly 8 items |
| Duel.GiftGained | buckshot_roulette/game.py:100-109 | A successful drop only raises kinds that were choices (below their cap; no saw at 2 charges or fewer), and the total grows by at most min(item_count, 8 - held) |
| Duel.GiveItemsEffect | buckshot_roulette/game.py:95-109 | Both players gain only what a drop allows, and nobody gets anything when player 0 holds exactly 8 items |
| Duel.ItemCountNine | buckshot_roulette/game.py:17-18 | `item_count()` is the sum of the nine counts |
| Duel.FullRecord | buckshot_roulette/game.py:61 | A record with no negative saw count and every other kind at its cap holds more than 8 items |
| Duel.GiftNeverFails | buckshot_roulette/game.py:100-109 | With no negative count a drop never raises, since a record with nothing left to choose already holds more than 8 items |
| Duel.NothingToChoose | buckshot_roulette/game.py:100-105 | With nothing left to choose from, every kind but the saw is at its cap, so the record holds more than 8 items |
| Duel.GiveItemsNeverFails | buckshot_roulette/game.py:95-109 | With no negative count `give_items` never raises |
| Duel.GiveFresh | buckshot_roulette/game.py:95-109 | On two empty records `give_items` deals each player exactly min(item_count, 8) items, none for a count below 1 |
| Duel.ItemMoves | buckshot_roulette/game.py:174-176 | There are at most as many item moves as kinds |
| Duel.UseDisarmed | buckshot_roulette/game.py:186-191 | Using an item under a pending adrenaline spends it from the opponent's record and leaves the mover's record; adrenaline stays cleared unless the item is adrenaline |
| Duel.GiveCases | buckshot_roulette/game.py:95-109 | The drop stops at the first player holding 8 items, stops at the first failing draw, and otherwise gives both players their drop |
| Duel.AtCap | buckshot_roulette/game.py:100-105 | A player offered nothing holds every kind but the saw at its cap |
| Game.Lives | buckshot_roulette/game.py:72 | `[True] * n` has max(n, 0) shells |
| Game.LivesCount | buckshot_roulette/game.py:72 | `[True] * n` holds only live shells, max(n, 0) of them |
| Game.LoadedCount | buckshot_roulette/game.py:72 | The initial load `[True] * live + [False * (total - live)]` holds max(live, 0) live shells and exactly one blank, whatever the total |
| Game.NewTable | buckshot_roulette/game.py:63-83 | The table of a new board is well formed and has a record of the nine kinds for each player |
| Game.Restocked | buckshot_roulette/game.py:95-109 | Replacing the records keeps the table well formed |
| Game.LoadShells | buckshot_roulette/game.py:72-73 | The shuffled initial load has max(live, 0) + 1 shells, max(live, 0) of them live |
| Game.Deal | buckshot_roulette/game.py:95-109 | `give_items` changes only the item records |
| Game.DealGains | buckshot_roulette/game.py:95-109 | Both players gain only what a drop allows |
| Game.DealFresh | buckshot_roulette/game.py:95-109 | On two empty records `give_items` never raises and deals each player exactly min(item_count, 8) items |
| Game.Charges | buckshot_roulette/game.py:63 | A zero or None charge count is drawn in 2..4; any other is kept |
| Game.InitSpec | buckshot_roulette/game.py:62-85 | A board that `__init__` builds is well formed |
| Game.Fresh | buckshot_roulette/game.py:62-84 | The board before `give_items` is well formed and both records are empty |
| Game.Stocked | buckshot_roulette/game.py:85 | A board after `give_items` is well formed |
| Game.StockedFresh | buckshot_roulette/game.py:85 | `give_items` on two empty records cannot raise |
| Game.InitRejects | buckshot_roulette/game.py:67-70 | `__init__` succeeds exactly when there are no more live shells than shells, and otherwise raises ValueError |
| Game.InitOk | buckshot_roulette/game.py:62-85 | A valid `__init__` is the fresh board (full charges, the shuffled load, empty records), then `give_items(randint(2, 5))`, which cannot raise on it |
| Game.InitBoard | buckshot_roulette/game.py:62-85 | A new board holds its live shells and one blank; both players have full charges; player 0 moves; nothing is in effect, no skip is pending, the chamber is unknown |
| Game.InitItems | buckshot_roulette/game.py:75-85 | Each player of a new board holds exactly the `randint(2, 5)` items drawn |
| Game.NewRoundsSpec | buckshot_roulette/game.py:87-93 | `new_rounds` keeps the board well formed |
| Game.MaybeDeal | buckshot_roulette/game.py:92-93 | `if drop_items: give_items(...)` keeps the board well formed |
| Game.NewRoundsShells | buckshot_roulette/game.py:87-93 | A new round has 2 to 8 shells, half of them (rounded down) live; only the shells and, when dropping, the records change; without dropping nothing fails |
| Game.FireSpec | buckshot_roulette/game.py:124-155 | `fire` keeps the board well formed |
| Game.After | buckshot_roulette/game.py:185-236 | A move's outcome is reported as an error exactly when it raised, with its table |
| Game.ApplySpec | buckshot_roulette/game.py:185-236 | `make_move` up to the reload keeps the board well formed |
| Game.MakeMoveSpec | buckshot_roulette/game.py:185-243 | `make_move` keeps the board well formed |
| Game.MakeMoveReloads | buckshot_roulette/game.py:238-241 | A move that empties the shotgun with `load_new` set hands the turn to player 0 and loads 2 to 8 shells, half of them live; without `load_new` the shotgun stays empty |
| Game.MakeMoveShots | buckshot_roulette/game.py:193-196 | 'op' reports the damage (0, 1, or 2 with the saw) and 'self' its negation |
| Game.ShotgunInfoSpec | buckshot_roulette/game.py:111-113 | `shotgun_info()` gives a live count no larger than the length, which is 0 exactly when no shell is live |
| Game.NoLive | buckshot_roulette/game.py:111-113 | A shell list has live count 0 exactly when no shell is live |
| Game.CopySpec | buckshot_roulette/game.py:255-262 | A copy is a well-formed board |
| Game.CopyEquals | buckshot_roulette/game.py:255-276 | The copy keeps charges, turn, shells, records and effects, with `max_charges` drawn in 2..4; it equals the original exactly when that draw matches and the original has no pending skip and no public chamber |
| Game.BuckshotRoulette.constructor | buckshot_roulette/game.py:62-83 | The constructed board is the new table with the given shells |
| Game.BuckshotRoulette.NewRounds | buckshot_roulette/game.py:87-93 | The method leaves the result and board of `new_rounds` |
| Game.BuckshotRoulette.Reload | buckshot_roulette/game.py:88-91 | The method loads `total` shells, half of them (rounded down) live, and changes nothing else |
| Game.BuckshotRoulette.MaybeGive | buckshot_roulette/game.py:92-93 | The method gives items exactly when asked to, as `give_items` does |
| Game.BuckshotRoulette.GiveItems | buckshot_roulette/game.py:95-109 | The method leaves the result and board of `give_items` |
| Game.BuckshotRoulette.ShotgunInfo | buckshot_roulette/game.py:111-113 | The method returns the live count and the length |
| Game.BuckshotRoulette.Winner | buckshot_roulette/game.py:115-122 | The method returns the winner of the charges |
| Game.BuckshotRoulette.SwitchTurn | buckshot_roulette/game.py:248-250 | The turn passes to the opponent and nothing else changes |
| Game.BuckshotRoulette.Fire | buckshot_roulette/game.py:124-155 | The method leaves the damage and board of `fire` |
| Game.BuckshotRoulette.Hit | buckshot_roulette/game.py:143-150 | A live shell deals the damage of `Hurt` and changes nothing else |
| Game.BuckshotRoulette.Switch | buckshot_roulette/game.py:130-141 | The inner `switch()` changes only what the switch changes |
| Game.BuckshotRoulette.LegalItems | buckshot_roulette/game.py:157-164 | The method returns the legal items |
| Game.BuckshotRoulette.Moves | buckshot_roulette/game.py:166-183 | The method returns the moves and leaves the shells |
| Game.BuckshotRoulette.MakeMove | buckshot_roulette/game.py:185-243 | The method leaves the result and board of `make_move` |
| Game.BuckshotRoulette.ApplyMove | buckshot_roulette/game.py:185-236 | The method leaves the result and board of `make_move` up to the reload |
| Game.BuckshotRoulette.SpendItem | buckshot_roulette/game.py:198-234 | One item of the kind leaves record o and nothing else changes |
| Game.BuckshotRoulette.UseItem | buckshot_roulette/game.py:197-235 | The method leaves the result and board of the item's branch |
| Game.BuckshotRoulette.UseEarly | buckshot_roulette/game.py:197-218 | The first five kinds' effects are those of the specification |
| Game.BuckshotRoulette.UseLater | buckshot_roulette/game.py:219-235 | The other kinds' effects are those of the specification |
| Game.BuckshotRoulette.Copy | buckshot_roulette/game.py:255-262 | The copy is a fresh board holding the copied state |
| Game.BuckshotRoulette.Overwrite | buckshot_roulette/game.py:257-261 | The assignments set charges, turn, shells, records and effects and keep the rest of the new board |
| Game.BuckshotRoulette.Equals | buckshot_roulette/game.py:264-276 | `__eq__` holds exactly when every field matches |
| Game.New | buckshot_roulette/game.py:62-85 | The constructor raises what `__init__` raises, and otherwise returns a fresh board in the state `__init__` gives |
| Singleplayer.StartTable | buckshot_roulette/singleplayer/game.py:98-121 | The table of a new board is well formed and has a record of the nine kinds for each player |
| Singleplayer.Deal | buckshot_roulette/singleplayer/game.py:132-146 | `give_items` changes only the item records |
| Singleplayer.DealGains | buckshot_roulette/singleplayer/game.py:132-146 | Both players gain only what a drop allows |
| Singleplayer.DealFresh | buckshot_roulette/singleplayer/game.py:132-146 | On two empty records `give_items` never raises and deals each player exactly min(item_count, 8) items |
| Singleplayer.Total | buckshot_roulette/singleplayer/game.py:104 | A zero or None shell count is drawn in 2..8; any other is kept |
| Singleplayer.InitSpec | buckshot_roulette/singleplayer/game.py:98-122 | A board that `__init__` builds is well formed |
| Singleplayer.Fresh | buckshot_roulette/singleplayer/game.py:98-121 | The board before `give_items` is well formed and both records are empty |
| Singleplayer.Stocked | buckshot_roulette/singleplayer/game.py:122 | The closing `give_items` leaves a well-formed board when it does not raise |
| Singleplayer.InitRejects | buckshot_roulette/singleplayer/game.py:104-107 | `__init__` succeeds exactly when there are no more live shells than shells, and otherwise raises ValueError |
| Singleplayer.InitOk | buckshot_roulette/singleplayer/game.py:98-122 | A valid `__init__` is the fresh board (full charges, the shell counts, empty records), then `give_items(randint(2, 5))`, which cannot raise on it |
| Singleplayer.StockedFresh | buckshot_roulette/singleplayer/game.py:112-122 | On the two empty records of a new board `give_items` cannot raise |
| Singleplayer.InitBoard | buckshot_roulette/singleplayer/game.py:98-121 | A new board records its starter, who moves first, and its shell and live counts; both players have full charges; nothing is in effect, no skip is pending, the chamber is unknown |
| Singleplayer.InitItems | buckshot_roulette/singleplayer/game.py:112-122 | Each player of a new board holds exactly the `randint(2, 5)` items drawn |
| Singleplayer.NewRoundsSpec | buckshot_roulette/singleplayer/game.py:124-130 | `new_rounds` keeps the board well formed |
| Singleplayer.MaybeDeal | buckshot_roulette/singleplayer/game.py:129-130 | `if drop_items: give_items(...)` keeps the board well formed |
| Singleplayer.Recounted | buckshot_roulette/singleplayer/game.py:125-126 | The recounted board has `total` shells, half of them (rounded down) live, and keeps table and starter |
| Singleplayer.NewRoundsCounts | buckshot_roulette/singleplayer/game.py:124-130 | A new round has 2 to 8 shells, half of them (rounded down) live; only the counts and, when dropping, the records change; without dropping nothing fails |
| Singleplayer.Under | buckshot_roulette/singleplayer/game.py:222-286 | A move's outcome is reported with the board around its table |
| Singleplayer.ApplySpec | buckshot_roulette/singleplayer/game.py:222-275 | `make_move` up to the reload keeps the board well formed and leaves starter and counts |
| Singleplayer.MakeMoveSpec | buckshot_roulette/singleplayer/game.py:222-286 | `make_move` keeps the board well formed |
| Singleplayer.MakeMoveReloads | buckshot_roulette/singleplayer/game.py:278-281 | A move that uses up the last shell with `load_new` set hands the turn to the starter, records 2 to 8 new shells, half of them live, and hands back no shells |
| Singleplayer.MakeMoveCounts | buckshot_roulette/singleplayer/game.py:283-286 | Without a reload every move but the inverter sets `total` and `live` to the length and live count of the shells handed back; the inverter leaves them stale |
| Singleplayer.MakeMoveInvalid | buckshot_roulette/singleplayer/game.py:274-275 | A string that names no move reports "INVALID_MOVE", hands the shells back untouched and still clears a pending adrenaline |
| Singleplayer.MakeMoveShots | buckshot_roulette/singleplayer/game.py:230-234 | 'op' reports the damage (0, 1, or 2 with the saw) and 'self' its negation; both hand back the shells after the front one |
| Singleplayer.ComparedIgnoresStarter | buckshot_roulette/singleplayer/game.py:309-322 | Two boards are equal by `__eq__` exactly when they differ at most in their starter |
| Singleplayer.BuckshotRoulette.constructor | buckshot_roulette/singleplayer/game.py:98-121 | The constructed board is the new table with the given starter and counts |
| Singleplayer.BuckshotRoulette.NewRounds | buckshot_roulette/singleplayer/game.py:124-130 | The method leaves the result and board of `new_rounds` |
| Singleplayer.BuckshotRoulette.Recount | buckshot_roulette/singleplayer/game.py:125-126 | The method records `total` shells, half of them (rounded down) live |
| Singleplayer.BuckshotRoulette.MaybeGive | buckshot_roulette/singleplayer/game.py:129-130 | The method gives items exactly when asked to, as `give_items` does |
| Singleplayer.BuckshotRoulette.GiveItems | buckshot_roulette/singleplayer/game.py:132-146 | The method leaves the result and board of `give_items` |
| Singleplayer.BuckshotRoulette.Winner | buckshot_roulette/singleplayer/game.py:152-159 | The method returns the winner of the charges |
| Singleplayer.BuckshotRoulette.SwitchTurn | buckshot_roulette/singleplayer/game.py:288-290 | The turn passes to the opponent and nothing else changes |
| Singleplayer.BuckshotRoulette.Fire | buckshot_roulette/singleplayer/game.py:161-192 | The method returns the damage and the shells left and leaves the table of `fire`; nothing else changes |
| Singleplayer.BuckshotRoulette.Hit | buckshot_roulette/singleplayer/game.py:180-185 | A live shell deals the damage of `Hurt` and changes nothing else |
| Singleplayer.BuckshotRoulette.Switch | buckshot_roulette/singleplayer/game.py:167-178 | The inner `switch()` changes only what the switch changes |
| Singleplayer.BuckshotRoulette.LegalItems | buckshot_roulette/singleplayer/game.py:194-201 | The method returns the legal items |
| Singleplayer.BuckshotRoulette.Moves | buckshot_roulette/singleplayer/game.py:203-220 | The method returns the moves; only the table may change |
| Singleplayer.BuckshotRoulette.MakeMove | buckshot_roulette/singleplayer/game.py:222-286 | The method leaves the result and board of `make_move` |
| Singleplayer.BuckshotRoulette.ApplyMove | buckshot_roulette/singleplayer/game.py:222-275 | The method leaves the result and board of `make_move` up to the reload |
| Singleplayer.BuckshotRoulette.SpendItem | buckshot_roulette/singleplayer/game.py:235-272 | One item of the kind leaves record o and nothing else changes |
| Singleplayer.BuckshotRoulette.UseItem | buckshot_roulette/singleplayer/game.py:235-273 | The method leaves the result and board of the item's branch |
| Singleplayer.BuckshotRoulette.UseEarly | buckshot_roulette/singleplayer/game.py:235-256 | The first five kinds' effects are those of the specification |
| Singleplayer.BuckshotRoulette.UseLater | buckshot_roulette/singleplayer/game.py:257-273 | The other kinds' effects are those of the specification |
| Singleplayer.BuckshotRoulette.Copy | buckshot_roulette/singleplayer/game.py:295-307 | The copy is a fresh board equal in every field to the original |
| Singleplayer.BuckshotRoulette.Overwrite | buckshot_roulette/singleplayer/game.py:297-306 | The assignments set every field of the new board |
| Singleplayer.BuckshotRoulette.Equals | buckshot_roulette/singleplayer/game.py:309-322 | `__eq__` holds exactly when every field but the starter matches |
| Singleplayer.New | buckshot_roulette/singleplayer/game.py:98-122 | The constructor raises what `__init__` raises, and otherwise returns a fresh board in the state `__init__` gives |
| Cli.Shift | cli_game.py:207 | Shifting a tuple keeps its length and moves every position one further on |
| Cli.ShiftMembers | cli_game.py:207 | A position is in the shifted tuple exactly when the one before it is in the tuple |
| Cli.Combination | cli_game.py:207 | The k-th tuple of `itertools.combinations(range(n), x)` has x positions, all below n |
| Cli.CombinationMembers | cli_game.py:207-212 | Arrangement number k is live exactly at the positions of the k-th tuple |
| Cli.Marked | cli_game.py:209-211 | Marking a tuple gives a list of n shells |
| Cli.MarkedAt | cli_game.py:209-211 | The marked list is live exactly at the tuple's positions |
| Cli.MarkCombination | cli_game.py:207-212 | Marking the k-th tuple gives arrangement number k |
| Cli.Mark | cli_game.py:209-211 | The inner loop computes the marked list |
| Cli.GenerateBinaryNumbers | cli_game.py:200-214 | ValueError exactly unless 0 <= X <= N; otherwise n choose x lists, the k-th being arrangement number k |
| Cli.Arrangements | cli_game.py:207-212 | The outer loop yields n choose x lists, the k-th being arrangement number k |
| Cli.Arrangement | cli_game.py:208-212 | One pass yields arrangement number k |
| Cli.BinomialCoefficient | cli_game.py:216-221 | ValueError exactly unless 0 <= X <= N; otherwise N choose X |
| Cli.StartTable | cli_game.py:16-37 | The table of a new board is well formed over the five kinds, with a five-kind record for each player |
| Cli.InitSpec | cli_game.py:16-37 | A board that `__init__` builds is well formed |
| Cli.InitShells | cli_game.py:16-37 | `__init__` succeeds exactly when 0 <= live <= total, and otherwise raises ValueError; the shells are then `total` long with `live` live, charges are `charge_count`, player 0 moves, nobody holds an item |
| Cli.Drawn | cli_game.py:52 | Every draw of `random.choice(POSSIBLE_ITEMS)` is one of the five kinds |
| Cli.Dropped | cli_game.py:49-53 | One player's loop keeps a record of the five kinds |
| Cli.DroppedCount | cli_game.py:49-53 | A player holding at most 8 items ends with min(held + n, 8); one holding more is never stopped, since the loop only checks for exactly 8 |
| Cli.Give | cli_game.py:47-53 | `give_items` keeps both records over the five kinds |
| Cli.Restocked | cli_game.py:47-53 | Replacing the records keeps the table well formed |
| Cli.Deal | cli_game.py:47-53 | `give_items` changes only the item records |
| Cli.DealCount | cli_game.py:47-53 | Every player holding at most 8 items ends with min(held + max(0, item_count), 8) |
| Cli.NewRoundsSpec | cli_game.py:39-44 | `new_rounds` keeps the board well formed |
| Cli.Reloaded | cli_game.py:40-42 | Loading new shells keeps the table |
| Cli.NewRoundsShells | cli_game.py:39-44 | A new round has 2 to 8 shells, at least one live and one blank; only the shells and, when dropping, the records change |
| Cli.Shot | cli_game.py:113-116 | A shot keeps the board well formed |
| Cli.ApplySpec | cli_game.py:109-138 | `make_move` up to the reload keeps the board well formed |
| Cli.MakeMoveSpec | cli_game.py:109-144 | `make_move` keeps the board well formed |
| Cli.MakeMoveReloads | cli_game.py:140-142 | A move that uses up the last shell hands the turn to player 0 and loads 2 to 8 shells with at least one live and one blank |
| Cli.MakeMoveShots | cli_game.py:113-116 | 'op' reports the damage (0, 1, or 2 with the saw) and 'self' its negation; both drop the front shell |
| Cli.MakeMoveSpends | cli_game.py:117-138 | An item move spends one of its kind from the mover's record, held or not, and leaves the other record |
| Cli.MakeMoveHealsAndCuffs | cli_game.py:117-135 | Cigarettes heal the mover by one, capped at `max_charges`; handcuffs add one handcuff in effect and set `_skip_next` |
| Cli.MakeMoveIgnores | cli_game.py:109-138 | A string that names no move of this board reports None and changes nothing |
| Cli.MovesListed | cli_game.py:101-107 | The moves are 'op', 'self', then exactly the mover's held kinds not in effect, each once |
| Cli.CopySpec | cli_game.py:156-163 | A copy is a well-formed board |
| Cli.CopyEquals | cli_game.py:156-177 | The copy keeps charges, turn, shells, records and effects; it equals the original exactly when the original has `max_charges` 0, no pending skip and no public chamber; cigarettes on the copy leave at most 0 charges |
| Cli.Board.constructor | cli_game.py:16-37 | The constructed board is the new table with the given shells |
| Cli.Board.NewRounds | cli_game.py:39-44 | The method leaves the board of `new_rounds` |
| Cli.Board.Reload | cli_game.py:40-42 | The method loads the drawn arrangement |
| Cli.Board.GiveItems | cli_game.py:47-53 | The method leaves the board of `give_items` |
| Cli.Board.ShotgunInfo | cli_game.py:55-57 | The method returns the live count and the length |
| Cli.Board.Winner | cli_game.py:59-66 | The method returns the winner of the charges |
| Cli.Board.SwitchTurn | cli_game.py:149-151 | The turn passes to the opponent and nothing else changes |
| Cli.Board.Fire | cli_game.py:68-99 | The method returns the damage of `fire` and leaves its table and shells; an empty shotgun raises IndexError and keeps the shells |
| Cli.Board.Hit | cli_game.py:87-94 | A live shell deals the damage of `Hurt` and changes nothing else |
| Cli.Board.Switch | cli_game.py:74-85 | The inner `switch()` changes only what the switch changes |
| Cli.Board.Moves | cli_game.py:101-107 | The method returns the listed moves |
| Cli.Board.MakeMove | cli_game.py:109-144 | The method leaves the result and board of `make_move` |
| Cli.Board.ApplyMove | cli_game.py:109-138 | The method leaves the result and board of `make_move` up to the reload |
| Cli.Board.UseItem | cli_game.py:117-138 | The method spends from the mover's record and leaves the item's effect |
| Cli.Board.SpendItem | cli_game.py:117-138 | One item of the kind leaves the mover's record and nothing else changes |
| Cli.Board.UseSpent | cli_game.py:117-138 | The spent item's effect is that of the specification |
| Cli.Board.Copy | cli_game.py:156-163 | The copy is a fresh board holding the copied state |
| Cli.Board.Equals | cli_game.py:165-177 | `__eq__` holds exactly when every field matches |
| Cli.DropTo | cli_game.py:49-53 | The inner loop computes one player's drop |
| Cli.New | cli_game.py:16-37 | The constructor raises what `__init__` raises, and otherwise returns a fresh board in the state `__init__` gives |
| MpGame.OrderDistinct | buckshot_roulette/mp_game.py:96 | The ten kinds of `POSSIBLE_ITEMS` are distinct |
| MpGame.OrderAsLater | buckshot_roulette/mp_game.py:96 | The kinds are those of the later N-player board plus meds |
| MpGame.ItemTotalSumsAll | buckshot_roulette/mp_game.py:20-21 | `item_count()` sums every field of the record |
| MpGame.ItemCountTen | buckshot_roulette/mp_game.py:8-21 | `item_count()` is the sum of the ten counts |
| MpGame.HeldWithout | buckshot_roulette/mp_game.py:65-84 | Iterating a record skips a kind it does not hold |
| MpGame.IterationAsLater | buckshot_roulette/mp_game.py:65-84 | With no meds, iterating a record lists the same kinds in the same order as the later board's record |
| MpGame.Lookup | buckshot_roulette/mp_game.py:86-93 | `GameStatus(v)` finds the member whose value is v, and raises exactly when no member has it |
| MpGame.LookupInt | buckshot_roulette/mp_game.py:86-93 | An integer seat number finds a member only for 6 (`SAWED_OFF`), since the other values are one-element tuples |
| MpGame.Charges | buckshot_roulette/mp_game.py:100 | A zero or None charge count is drawn in 3..5; any other is kept |
| MpGame.Fresh | buckshot_roulette/mp_game.py:99-114 | The board before its `give_items` keeps the board invariant |
| MpGame.OffsetToIdx | buckshot_roulette/mp_game.py:167-168 | `offset_to_idx` gives a seat in range |
| MpGame.IdxToOffset | buckshot_roulette/mp_game.py:169-170 | `idx_to_offset` gives an offset in range |
| MpGame.OffsetRoundTrip | buckshot_roulette/mp_game.py:167-170 | `idx_to_offset` undoes `offset_to_idx` modulo the seat count |
| MpGame.IdxRoundTrip | buckshot_roulette/mp_game.py:167-170 | `offset_to_idx` undoes `idx_to_offset` modulo the seat count |
| MpGame.Offsets | buckshot_roulette/mp_game.py:174-175 | The j-th offset is `idx_to_offset` of the j-th seat |
| MpGame.LivingPlayersListed | buckshot_roulette/mp_game.py:172-176 | The seats listed are exactly those with charges left, in increasing order, and the j-th offset leads back to the j-th seat |
| MpGame.GlobalCount | buckshot_roulette/mp_game.py:134-137 | The global count of a kind is its sum over all records |
| MpGame.ChoicesMembers | buckshot_roulette/mp_game.py:142-147 | The drop choices are exactly the kinds below both caps, without the saw on a board of at most 2 charges |
| MpGame.MedsNeverOffered | buckshot_roulette/mp_game.py:97-98 | Meds are never a drop choice: both their caps are 0 |
| MpGame.Gift | buckshot_roulette/mp_game.py:142-151 | A successful drop is a record this board can hold; a failure is IndexError |
| MpGame.CreditedRec | buckshot_roulette/mp_game.py:150-151 | Crediting kinds other than meds keeps a record this board can hold |
| MpGame.Gifts | buckshot_roulette/mp_game.py:134-151 | Each seat's drop is computed from its record and the global count as the call starts |
| MpGame.GiveFrom | buckshot_roulette/mp_game.py:138-151 | The loop from one seat on keeps every record one this board can hold, and can only raise IndexError |
| MpGame.GiveItemsSpec | buckshot_roulette/mp_game.py:133-151 | `give_items` keeps every record one this board can hold, and can only raise IndexError |
| MpGame.GiveFromAt | buckshot_roulette/mp_game.py:138-151 | After the loop a seat holds its drop or its original record; a seat that is not reached keeps its record |
| MpGame.GiftCount | buckshot_roulette/mp_game.py:142-151 | A drop fails exactly when there is nothing to choose and a positive count; otherwise it adds exactly max(0, min(item_count, 8 - held)) items |
| MpGame.GiftKinds | buckshot_roulette/mp_game.py:142-151 | Every kind a drop raises was a choice: never meds, never the saw on a board of at most 2 charges |
| MpGame.GiveItemsEffect | buckshot_roulette/mp_game.py:133-151 | A seat gains at most min(item_count, 8 - held) items, only of kinds below both caps as the call starts; seats from the first holding exactly 8 on get nothing |
| MpGame.SumKindZero | buckshot_roulette/mp_game.py:134-137 | On empty records every global count is 0 |
| MpGame.GiveFresh | buckshot_roulette/mp_game.py:133-151 | On empty records `give_items` never raises and gives every seat exactly max(0, min(item_count, 8)) items |
| MpGame.GiftFresh | buckshot_roulette/mp_game.py:142-151 | An empty record's drop succeeds while nobody holds a magnifying glass |
| MpGame.GiveFreshFrom | buckshot_roulette/mp_game.py:138-151 | From a seat on, with every drop giving n items to an empty record, the loop succeeds and every seat ends with n items |
| MpGame.ValidSequences | buckshot_roulette/mp_game.py:119-123 | Only 2, 3 and 4 players have sequences; each has at least 9 pairs with at least one live, at least one blank and at most 8 shells |
| MpGame.ReloadSpec | buckshot_roulette/mp_game.py:125-131 | `reload` keeps the board invariant |
| MpGame.Arranged | buckshot_roulette/mp_game.py:128-131 | The rest of `reload` keeps the board invariant |
| MpGame.ReloadRaises | buckshot_roulette/mp_game.py:125-127 | A player count without sequences clears the statuses and raises KeyError, and only then |
| MpGame.ReloadEffect | buckshot_roulette/mp_game.py:125-131 | Otherwise the statuses are cleared and (live, total - live) is one of the count's pairs, so 1 <= live < total <= 8; only the items may change besides, and without a drop they do not |
| MpGame.SwitchFrom | buckshot_roulette/mp_game.py:156-165 | The scan keeps the board invariant |
| MpGame.SwitchTurnSpec | buckshot_roulette/mp_game.py:153-165 | `switch_turn` keeps the board invariant |
| MpGame.SwitchFromOnlySix | buckshot_roulette/mp_game.py:156-165 | The scan can only hand the turn to seat 6 (which must have charges left) and otherwise raises ValueError; it changes only the turn and the statuses, which can only lose `SAWED_OFF` |
| MpGame.SwitchTurnRaises | buckshot_roulette/mp_game.py:153-165 | With at most 6 seats `switch_turn` always raises ValueError and changes nothing |
| MpGame.Mirror | buckshot_roulette/mp_game.py:95-114 | This board's seats, turn, direction, records and statuses form a valid later N-player board |
| MpGame.MovesSpec | buckshot_roulette/mp_game.py:178-211 | `moves()` keeps the board invariant and may only clear statuses |
| MpGame.MovesOwnList | buckshot_roulette/mp_game.py:194-204 | Without adrenaline the moves are a shot at every living offset, then each held kind but the jammer and a jam per nonzero living offset for a held jammer, all owned by the last living offset |
| MpGame.OffsetsAsLater | buckshot_roulette/mp_game.py:174-175 | The offsets of seats are those the later board computes |
| MpGame.MovesNeverMeds | buckshot_roulette/mp_game.py:178-211 | No listed move uses meds |
| MpGame.TakeFrom | buckshot_roulette/mp_game.py:219-226 | The record a move uses is a seat in range, reached through Python list indexing |
| MpGame.Spend | buckshot_roulette/mp_game.py:239-284 | Spending keeps the board invariant |
| MpGame.UseSpec | buckshot_roulette/mp_game.py:250-286 | The item branches keep the board invariant |
| MpGame.SpentEffect | buckshot_roulette/mp_game.py:250-286 | An item's effect keeps the board invariant |
| MpGame.MakeMoveSpec | buckshot_roulette/mp_game.py:213-286 | `make_move` keeps the board invariant |
| MpGame.MakeMoveRaises | buckshot_roulette/mp_game.py:219-248 | `make_move` raises ValueError under adrenaline with no target (changing nothing), for every shot (before any damage) and for a jam (after spending the jammer); meds raise without spending |
| MpGame.MakeMoveSpends | buckshot_roulette/mp_game.py:239-284 | Every item of the board takes exactly one of its kind from the record used and changes no other count; meds and unknown names take nothing |
| MpGame.ItemEffects | buckshot_roulette/mp_game.py:258-285 | Cigarettes heal the mover by one, capped at `max_charges`; the inverter flips the caller's front shell and marks the uncertainty; the remote reverses the direction |
| MpGame.BeerKeepsShells | buckshot_roulette/mp_game.py:261-268 | Beer reports the front shell when more than one is left, but the caller's list keeps every shell |
| MpGame.BurnerPeeks | buckshot_roulette/mp_game.py:269-273 | With more than two shells the phone reports a shell at a position from 2 to len - 1 |
| MpGame.InitSpec | buckshot_roulette/mp_game.py:99-115 | `__init__` keeps the board invariant |
| MpGame.InitDeals | buckshot_roulette/mp_game.py:99-115 | A new board never raises; every seat has `max_charges` charges and 2 to 5 items, the start seat moves and there is no status |
| MpGame.CountAll | buckshot_roulette/mp_game.py:134-137 | The loop computes the global count |
| MpGame.DealTo | buckshot_roulette/mp_game.py:139-151 | The loop body computes one seat's drop |
| MpGame.GiveAll | buckshot_roulette/mp_game.py:133-151 | The method computes `give_items` |
| MpGame.GiveLoop | buckshot_roulette/mp_game.py:138-151 | The loop computes the drops seat by seat |
| MpGame.GiveTurn | buckshot_roulette/mp_game.py:138-151 | One pass either raises what the loop raises or keeps the loop invariant for the next seat |
| MpGame.BuckshotRoulette.constructor | buckshot_roulette/mp_game.py:99-114 | The constructed board is the fresh board before dealing |
| MpGame.BuckshotRoulette.GiveItems | buckshot_roulette/mp_game.py:133-151 | The method leaves the result and records of `give_items` |
| MpGame.BuckshotRoulette.Reload | buckshot_roulette/mp_game.py:125-131 | The method leaves the result and board of `reload` |
| MpGame.BuckshotRoulette.SwitchTurn | buckshot_roulette/mp_game.py:153-165 | The method leaves the result and board of `switch_turn` |
| MpGame.BuckshotRoulette.Moves | buckshot_roulette/mp_game.py:178-211 | The method leaves the result and board of `moves()` |
| MpGame.BuckshotRoulette.MakeMove | buckshot_roulette/mp_game.py:213-286 | The method leaves the result, board and caller's shells of `make_move` |
| MpGame.BuckshotRoulette.Take | buckshot_roulette/mp_game.py:219-226 | The method picks the mover's record, or under adrenaline the target's and uses the adrenaline up; a missing target raises ValueError, an out-of-range one IndexError, neither changing anything |
| MpGame.BuckshotRoulette.UseItem | buckshot_roulette/mp_game.py:250-286 | The method leaves the result, board and shells of the item's branch |
| MpGame.BuckshotRoulette.UseSpent | buckshot_roulette/mp_game.py:250-286 | The method leaves the item's effect |
| MpGame.New | buckshot_roulette/mp_game.py:99-115 | The constructor returns a fresh board in the state `__init__` gives |
| MultiplayerAi.Nones | buckshot_roulette/multiplayer/ai.py:106 | `[None] * n` has max(n, 0) entries, all unknown |
| MultiplayerAi.CountKnown | buckshot_roulette/multiplayer/ai.py:79-84 | The number of entries known to be v is at most the number of entries |
| MultiplayerAi.HiddenSplit | buckshot_roulette/multiplayer/ai.py:75-84 | Every live shell is known live or left open, and likewise every blank one, so the reduced counts are the open shells of each kind |
| MultiplayerAi.HiddenNone | buckshot_roulette/multiplayer/ai.py:86-89 | With no open shell of one kind left, every open shell is of the other kind |
| MultiplayerAi.ShellAtSound | buckshot_roulette/multiplayer/ai.py:61-91 | When the knowledge agrees with the shells and the board's counts are theirs, a known answer is the shell there, and an unknown answer means both a live and a blank shell are still open |
| MultiplayerAi.TailSlice | buckshot_roulette/multiplayer/ai.py:112 | `ks[-t:]` for t > 0 is the last min(t, len) entries |
| MultiplayerAi.Normalised | buckshot_roulette/multiplayer/ai.py:104-114 | The trimmed list has `total` entries: fresh unknown entries for an empty list (the live count deciding a one-shell load), the last `total` entries of a longer list, a shorter list padded with unknown entries |
| MultiplayerAi.NormalisedSound | buckshot_roulette/multiplayer/ai.py:104-114 | Knowledge right about a suffix of the shells is right about them once trimmed, and so is fresh knowledge |
| MultiplayerAi.FirstFrom | buckshot_roulette/multiplayer/ai.py:122-158 | The scan returns the first move the rules take, every earlier move being passed over, or none when all are passed over |
| MultiplayerAi.Opponents | buckshot_roulette/multiplayer/ai.py:197 | The opponents are exactly the other seats with charges left |
| MultiplayerAi.SelectOpponent | buckshot_roulette/multiplayer/ai.py:186-200 | The seat picked is a living opponent, or the dealer's own seat |
| MultiplayerAi.Fallback | buckshot_roulette/multiplayer/ai.py:161-175 | The fallback is a shot without target; with the front shell known, or one shell left, it is `shoot_0` exactly when the shell is not known live or the picked seat number is 0 |
| MultiplayerAi.FallbackIntended | buckshot_roulette/multiplayer/ai.py:161-175 | The corrected fallback is a shot without target |
| MultiplayerAi.FallbackShootsSelf | buckshot_roulette/multiplayer/ai.py:163-167 | As written, a dealer in seat 1 of three that knows the front shell is live plays `shoot_0`, which is a shot at itself |
| MultiplayerAi.IntendedShootsOpponent | buckshot_roulette/multiplayer/ai.py:163-167 | Corrected, a dealer on its own turn that knows the front shell is live shoots a living opponent whenever one is left |
| MultiplayerAi.ChoiceSpec | buckshot_roulette/multiplayer/ai.py:93-184 | `choice` leaves the trimmed knowledge and the board that `moves()` leaves |
| MultiplayerAi.ChoiceFirstRule | buckshot_roulette/multiplayer/ai.py:116-179 | A move played with a target is a listed entry the rules take and every entry before it is passed over; a shot is played only when the rules take none |
| MultiplayerAi.OwnMoveSpec | buckshot_roulette/multiplayer/ai.py:206-214 | `on_own_move` raises only on an empty list or a burner-phone result that does not fit |
| MultiplayerAi.ShellsAfter | buckshot_roulette/multiplayer/ai.py:206-214 | The dealer's own move never adds shells |
| MultiplayerAi.SuffixSound | buckshot_roulette/multiplayer/ai.py:111-112 | Knowledge right about the shells is right, once trimmed, about any back part of them |
| MultiplayerAi.WholeSound | buckshot_roulette/multiplayer/ai.py:111-114 | Knowledge right about the shells is right about them untrimmed |
| MultiplayerAi.OwnMoveSound | buckshot_roulette/multiplayer/ai.py:206-214 | The dealer's own moves, with truthful results, never raise and keep its knowledge right about the shells left |
| MultiplayerAi.LearnSound | buckshot_roulette/multiplayer/ai.py:209-212 | Recording the shell at a position keeps the knowledge right |
| MultiplayerAi.InvertSound | buckshot_roulette/multiplayer/ai.py:213-214 | The inverter flips the front shell and the dealer's knowledge of it together |
| MultiplayerAi.OpponentMoveSpec | buckshot_roulette/multiplayer/ai.py:202-204 | Another player's shot or beer drops exactly one entry from a non-empty list; other moves keep the length |
| MultiplayerAi.OpponentMoveSound | buckshot_roulette/multiplayer/ai.py:202-204 | Another player's move other than the inverter keeps the knowledge right |
| MultiplayerAi.OpponentInverterMisleads | buckshot_roulette/multiplayer/ai.py:202-204 | After an opponent's inverter, a dealer that knew the front shell was live still believes it while the shell is now blank |
| MultiplayerAi.ReloadSound | buckshot_roulette/multiplayer/ai.py:217-226 | Knowing nothing about a new load is right about any shells |
| MultiplayerAi.Dealer.constructor | buckshot_roulette/multiplayer/ai.py:50-59 | A new dealer plays its seat and knows nothing |
| MultiplayerAi.Dealer.ShellAt | buckshot_roulette/multiplayer/ai.py:61-91 | The loop computes the deduced shell |
| MultiplayerAi.Dealer.Trim | buckshot_roulette/multiplayer/ai.py:104-114 | The method trims the knowledge to the load |
| MultiplayerAi.Dealer.Choice | buckshot_roulette/multiplayer/ai.py:93-184 | The method returns the move of `choice` and leaves its knowledge and board |
| MultiplayerAi.Dealer.OnOwnMove | buckshot_roulette/multiplayer/ai.py:206-214 | The method applies `on_own_move`, or raises and keeps the knowledge |
| MultiplayerAi.Dealer.OnOpponentMove | buckshot_roulette/multiplayer/ai.py:202-204 | The method applies `on_opponent_move` |
| MultiplayerAi.Dealer.OnReload | buckshot_roulette/multiplayer/ai.py:217-226 | After a reload nothing is known about the new load |
| MultiplayerAi.RandomSpec | buckshot_roulette/multiplayer/ai.py:233-235 | The random player plays a listed entry, targeting its owner unless that is itself, and errs exactly when `moves()` does |
| MultiplayerAi.Random.constructor | buckshot_roulette/multiplayer/ai.py:229-231 | A new random player plays its seat |
| MultiplayerAi.Random.Choice | buckshot_roulette/multiplayer/ai.py:233-235 | The method returns the random player's move and leaves the board `moves()` leaves |
| Ai.Falses | buckshot_roulette/ai.py:64 | `[False] * n` has n entries, none seen |
| Ai.MarkedSplit | buckshot_roulette/ai.py:40-53 | Every shell of a kind is either seen or not, so the reduced counts are the unseen shells of each kind |
| Ai.UnmarkedNone | buckshot_roulette/ai.py:55-58 | With no unseen shell of one kind, every unseen shell is of the other kind |
| Ai.MarkedSeen | buckshot_roulette/ai.py:48-53 | Guns that agree on the seen shells have the same seen counts of each kind |
| Ai.ShellAtSpec | buckshot_roulette/ai.py:36-60 | `shell_at` raises IndexError exactly for a position past the list |
| Ai.ShellAtSound | buckshot_roulette/ai.py:36-60 | Whenever the dealer gives an answer about a shell, it is the shell there |
| Ai.ShellAtSeenOnly | buckshot_roulette/ai.py:36-60 | Although it reads the board's own shells, the dealer's answer depends only on the length, the live count and the seen shells |
| Ai.Fitted | buckshot_roulette/ai.py:66-69 | The trimmed list has the gun's length: the last entries of a longer list, a shorter one padded with unseen entries |
| Ai.Started | buckshot_roulette/ai.py:63-65 | A new dealer's list has one entry per shell, only the last one seen |
| Ai.ExtendWith | buckshot_roulette/ai.py:73-76 | The scanned moves are the listed moves followed by the added kinds, and nothing else |
| Ai.Wants | buckshot_roulette/ai.py:81-106 | A rule raises only IndexError or what `shell_at(0)` raised |
| Ai.FirstFrom | buckshot_roulette/ai.py:81-106 | The scan returns the first move the rules take, every earlier move being passed over, or none when all are passed over |
| Ai.Decide | buckshot_roulette/ai.py:81-123 | The move decided is one of the dealer's own listed moves or a shot |
| Ai.Fallback | buckshot_roulette/ai.py:108-115 | The fallback is always 'op' or 'self' |
| Ai.Settle | buckshot_roulette/ai.py:116-123 | A taken move is played when listed, else adrenaline when listed; otherwise RuntimeError. What is played is always listed |
| Ai.Scanned | buckshot_roulette/ai.py:71-76 | Under adrenaline the opponent's held items are added; every added move comes with adrenaline listed |
| Ai.ChoiceSpec | buckshot_roulette/ai.py:62-123 | With no list and an empty gun `choice` raises IndexError; otherwise it leaves the trimmed list and the board `moves()` leaves |
| Ai.ChoiceSettles | buckshot_roulette/ai.py:116-123 | The RuntimeError `choice` guards against never happens, and an item played is always one the board listed |
| Ai.FallbackDeduced | buckshot_roulette/ai.py:108-113 | When the front shell is deduced (or is the last one), the fallback shoots the opponent exactly when it is live |
| Ai.PostSpec | buckshot_roulette/ai.py:125-133 | `post` keeps the length of an existing list |
| Ai.ShotTrimmedLater | buckshot_roulette/ai.py:126-128 | The shot arm never matches a string, yet the next `choice` trims the shot shell away just as dropping it would |
| Ai.PostMarksShown | buckshot_roulette/ai.py:125-133 | After `post` a position is seen exactly when it was seen before or the glass or the phone showed it |
| Ai.Dealer.constructor | buckshot_roulette/ai.py:32-34 | A new dealer plays its seat and has no list yet |
| Ai.Dealer.ShellAt | buckshot_roulette/ai.py:36-60 | The method computes `shell_at` |
| Ai.Dealer.Fit | buckshot_roulette/ai.py:63-69 | The list is set up on first use and trimmed to the gun; a fresh list for an empty gun raises IndexError |
| Ai.Dealer.Choice | buckshot_roulette/ai.py:62-123 | The method returns the move of `choice` and leaves its list and board |
| Ai.Dealer.Scan | buckshot_roulette/ai.py:73-76 | The method computes the scanned moves |
| Ai.Dealer.Rules | buckshot_roulette/ai.py:81-123 | The method computes the decision over the scanned moves |
| Ai.Dealer.Post | buckshot_roulette/ai.py:125-133 | The method applies `post`, or raises and keeps the list |
| Ai.MovesNonEmpty | buckshot_roulette/game.py:166-183 | `moves()` never comes back empty, so `random.choice` always has a move |
| Ai.RandomSpec | buckshot_roulette/ai.py:141-142 | The random player plays a listed move and leaves the board `moves()` leaves |
| Ai.RandomPlays | buckshot_roulette/ai.py:141-142 | The random player always has a move to play |
| Ai.Random.Choice | buckshot_roulette/ai.py:141-142 | The method returns the random player's move and leaves the board `moves()` leaves |
| StatEngine.Pow2 | stat_engine.py:138-140 | Each doubling factor is at least 1 |
| StatEngine.Mixture | stat_engine.py:133-145 | A mixture of two values in [0, B] with weights X/N and (N-X)/N is in [0, B] |
| StatEngine.ExpectedValueBounds | stat_engine.py:121-147 | With 0 <= X <= N the expected damage of a bundle is never negative, and at most 1 doubled once per saw or handcuffs |
| StatEngine.BeerKeepsOdds | stat_engine.py:141-147 | A beer alone keeps the chance that the next shell is live: X/N |
| StatEngine.Avail | stat_engine.py:62 | `tuple(items_available.values())` has one count per kind of the record |
| StatEngine.ExpectedValue | stat_engine.py:121-147 | `expected_value` of any bundle is never negative |
| StatEngine.PenaltyAsWritten | stat_engine.py:76-81 | As written, the loop charges the i-th key of `item_value` against the i-th count of the record; the penalty is never negative and is 0 for the empty bundle |
| StatEngine.PenaltyOfOne | stat_engine.py:76-81 | Corrected, a single-kind bundle costs that kind's value divided by the copies held, and nothing when none is held |
| StatEngine.PenaltyMisread | stat_engine.py:62-81 | As written, one beer with two beers and no handcuffs held costs nothing, where its own count gives 0.1 / 2 |
| StatEngine.IntendedScore | stat_engine.py:66-83 | The corrected score is at most the expected gain of the bundle, and the empty bundle scores 0 |
| StatEngine.ScoreMisread | stat_engine.py:62-83 | With two beers and nothing else held, the beer bundle scores 0.05 more as written than corrected, for any X and N |
| StatEngine.Score | stat_engine.py:66-83 | `evaluate_action` as written scores at most the expected gain of the bundle, and the empty bundle scores 0 |
| StatEngine.Beers | stat_engine.py:41 | `['beer'] * k` has max(k, 0) entries, all beer |
| StatEngine.Legal | stat_engine.py:43-45 | A kind is kept exactly when it is one of the kinds looked at and a listed move |
| StatEngine.Bundles | stat_engine.py:47-61 | The empty bundle is always an action |
| StatEngine.CombosFromPool | stat_engine.py:50 | A combination of size k has k entries, each taken from the pool in order |
| StatEngine.CombosValid | stat_engine.py:51-61 | A combination of a list with no beer after a magnifying glass has none either |
| StatEngine.ValidTail | stat_engine.py:52-59 | The tail of a valid list is valid, and has no beer if the list starts with a magnifying glass |
| StatEngine.PoolValid | stat_engine.py:41-45 | The magnifying glass comes last in the pool, so the pool is valid, and it holds only the four bundle kinds |
| StatEngine.FilterKeepsAll | stat_engine.py:51-61 | Every combination of the pool passes the validity test and is a bundle |
| StatEngine.BundlesAll | stat_engine.py:47-61 | The validity test drops nothing: the actions are the empty bundle and every combination of the pool |
| StatEngine.BundlesBundled | stat_engine.py:47-61 | Every action takes its kinds from the pool |
| StatEngine.Uncut | stat_engine.py:18-21 | Removing cigarettes only removes, and keeps the list when they are not listed |
| StatEngine.NeverShootsSelfLive | stat_engine.py:11-64 | Whatever the record, the engine never shoots itself while the front shell is live, provided a public chamber tells the truth |
| StatEngine.RankedLead | stat_engine.py:41-64 | The lead of the best bundle is 'op', a held beer, or a listed move |
| StatEngine.ChosenLegal | stat_engine.py:11-64 | With the mover's record and no beer in effect, the engine picks one of the mover's legal moves |
| StatEngine.ShortcutListed | stat_engine.py:18-39 | A shortcut is a shot or a listed move |
| StatEngine.Chosen | stat_engine.py:11-64 | No move `best_move` may return is the unknown move |
| StatEngine.StatEngine.constructor | stat_engine.py:7-9 | A new engine plays its seat |
| StatEngine.StatEngine.BestMove | stat_engine.py:11-64 | `best_move` raises AssertionError exactly when it is not the engine's turn; otherwise it picks a move the engine's rules choose |
| StatEngine.StatEngine.Rank | stat_engine.py:41-64 | The method picks the lead of a best-scoring bundle, by the score as written |
| StatEngine.StatEngine.EvaluateAction | stat_engine.py:66-83 | The method computes a bundle's score as written: expected gain less the penalty as written |
| StatEngine.StatEngine.Best | stat_engine.py:62-63 | The bundle picked is an action that no other outscores, by the score as written |
| StatEngine.PoolOf | stat_engine.py:41-45 | The loop builds the pool |
| StatEngine.CheckBundle | stat_engine.py:52-59 | The loop finds a bundle valid exactly when no beer follows a magnifying glass |
| StatEngine.Actions | stat_engine.py:47-61 | The loops build every valid combination of every size, with the empty bundle |
| StatEngine.AddValid | stat_engine.py:51-61 | The loop adds exactly the valid combinations of one size |
| StatEngine.Aim | stat_engine.py:167-169 | The target is undecided exactly when the front shell is unknown |
| StatEngine.ItemRule | stat_engine.py:171-181 | A held kind's rule returns only the use of that kind, and raises IndexError exactly for cigarettes read at a seat outside the charges |
| StatEngine.FirstRule | stat_engine.py:171-181 | The scan returns what the first firing rule returns, or none when no rule fires |
| StatEngine.DealerKnownFront | stat_engine.py:164-195 | When the front shell is known and no item rule fires, the dealer shoots the opponent exactly when that shell is live |
| StatEngine.SawRuleFires | stat_engine.py:180-181 | With a live front known, a held saw makes some rule fire |
| StatEngine.DealerSpec | stat_engine.py:156-195 | `DealerEngine.best_move` raises only IndexError and only with cigarettes held, never returns the unknown move, and uses only a held kind |
| StatEngine.Fallback | stat_engine.py:183-195 | With no item rule firing the dealer shoots and forgets the shell; a decided aim at the opponent shoots the opponent, one at itself shoots itself |
| StatEngine.DealerLastShell | stat_engine.py:165-195 | With one shell left the dealer uses only cigarettes, the saw on a live shell, or shoots the opponent exactly when that shell is live |
| StatEngine.DealerEngine.constructor | stat_engine.py:151-154 | A new dealer plays its seat, knows no shell and aims at the opponent |
| StatEngine.DealerEngine.BestMove | stat_engine.py:156-195 | The method returns the dealer's move and leaves the known shell and target its rules give |
| StatEngine.DealerEngine.Resolve | stat_engine.py:183-195 | The method applies the saw override, forgets the shell and returns the shot of the dealer's fallback |
| StatEngine.LegalGlassLast | stat_engine.py:41-45 | The single-use pool holds only the saw, handcuffs and glass, and the glass can only come last |
| StatEngine.Penalty | stat_engine.py:76-81 | Corrected, each kind is charged against its own count; the penalty is never negative and is 0 for the empty bundle |
| NewEngine.AboveOrder | new_engine.py:142-144 | `>` on utilities, with -inf below every value and +inf above, is a strict total order |
| NewEngine.Heuristic | new_engine.py:149-155 | `heuristic_value` raises IndexError exactly when eval_for is outside -2..1 |
| NewEngine.HeuristicZeroSum | new_engine.py:149-155 | The heuristic is zero-sum for players 0 and 1; -1 reads as player 1, and any index outside -2..1 raises IndexError |
| NewEngine.Without | new_engine.py:27-35 | `moves.remove(m)` drops one entry when m is listed and none otherwise |
| NewEngine.WithoutMembers | new_engine.py:27-35 | Removing m keeps every other move, and on a list without repeats leaves no m |
| NewEngine.DropIfMembers | new_engine.py:28-35 | A conditional removal keeps a list without repeats, and drops exactly m when the condition holds |
| NewEngine.Prune | new_engine.py:28-35 | The pruning drops at most four moves and adds none |
| NewEngine.MovesUnique | cli_game.py:101-107 | `moves()` lists no move twice |
| NewEngine.PruneRules | new_engine.py:21-35 | The searched moves are the listed moves but cigarettes, keeping 'self' only with the front known blank or no live shell, the glass only with the chamber unknown and two shells or more, the saw only when the opponent has other than 1 charge and no saw is in effect, handcuffs only with two shells or more; 'op' always stays |
| NewEngine.PositiveSpend | new_engine.py:105-137 | Spending a held kind lowers the number of held units by one |
| NewEngine.PositiveOther | new_engine.py:105-137 | Spending a kind outside the count leaves it |
| NewEngine.Spend | new_engine.py:105-137 | Spending from the mover's record keeps the board well formed |
| NewEngine.SpendStock | new_engine.py:105-137 | Spending a held item lowers the stock by exactly one |
| NewEngine.After | new_engine.py:104-140 | The board after a move's own spending is well formed |
| NewEngine.Local | new_engine.py:40-51 | The search's switch as written keeps the board well formed |
| NewEngine.LocalIsGame | new_engine.py:40-51 | With at most half a handcuff in effect, the search's switch after any shot but a blank at oneself is the game's switch (cli_game.py:74-85) with the chamber hidden |
| NewEngine.LocalLosesHandcuffTurn | new_engine.py:40-51 | With one handcuff in effect and no skip pending, the game's shot at the opponent keeps the turn, while the search's switch passes it |
| NewEngine.Switched | new_engine.py:40-51 | The corrected switch keeps the board well formed |
| NewEngine.SwitchedIsGame | new_engine.py:40-51 | After any shot but a blank at oneself the corrected switch is the game's switch (cli_game.py:74-85) with the chamber hidden, so handcuffs keep the turn |
| NewEngine.ShotChild | new_engine.py:68-103 | A shot's child has one shell fewer, and is missing (`remove` raises) exactly when no shell of that outcome is left |
| NewEngine.ShotChildTurn | new_engine.py:40-103 | A searched shot copy has the saw off, the chamber unknown and no skip pending; after any shot but a blank at oneself the turn passes whatever handcuffs are in effect, which lose half |
| NewEngine.ShotChildIsFire | new_engine.py:68-103 | When the outcome is the front shell and at most half a handcuff is in effect, the searched child is the copy after the game's `fire` (sawed self-hits left out) |
| NewEngine.HitIsHurt | new_engine.py:71-74 | With at most half a handcuff in effect, the search's hit damage and switch agree with the game's hit and switch |
| NewEngine.Peeked | new_engine.py:104-116 | The child after the glass keeps the shells and the stock |
| NewEngine.Ejected | new_engine.py:117-130 | The child after a beer has one shell fewer, and is missing exactly when no shell of that outcome is left |
| NewEngine.Raised | new_engine.py:131-140 | The child after the saw or handcuffs keeps the shells and the stock |
| NewEngine.HitProb | new_engine.py:57-61 | The hit probability is in [0, 1] |
| NewEngine.Search | new_engine.py:15-146 | `expectimax` leaves a well-formed board with the same shells, and returns no move exactly at a leaf (depth 0, a winner or no shell) |
| NewEngine.Scan | new_engine.py:53-146 | The loop over the moves keeps the board well formed and the shells, and always returns a move |
| NewEngine.MoveValue | new_engine.py:55-141 | A shot's utility is computed only when a live shell is left for a positive hit chance and a blank one for a chance below 1 |
| NewEngine.ShotBranch | new_engine.py:70-101 | One outcome of a shot is searched only when a shell of that outcome is left; otherwise `remove` raises |
| NewEngine.ShotValue | new_engine.py:68-103 | A shot's utility is computed only when a live shell is left for a positive hit chance and a blank one for a chance below 1 |
| NewEngine.SearchedReady | new_engine.py:21-38 | At least one move is searched, and every searched item is held |
| NewEngine.AfterReady | new_engine.py:55-141 | Each move's spending leaves the later moves searchable and the shells unchanged |
| NewEngine.ScanStep | new_engine.py:55-145 | One pass of the loop: the utility of the move, then the maximum moves on exactly when it is strictly larger |
| NewEngine.CountTrueMembers | new_engine.py:72-80 | Some shell is live exactly when the live count is positive, and some is blank exactly when it is below the length |
| NewEngine.ChanceBranches | new_engine.py:57-130 | With the chamber unknown, the hit probability times the shell count is the live count, and each outcome has positive weight exactly when its child exists, so no `remove` of a searched branch raises |
| NewEngine.ShareOfLive | new_engine.py:57 | X/N times N is X; it is positive exactly when X > 0 and below 1 exactly when X < N |
| NewEngine.SearchStops | new_engine.py:17-38 | A leaf scores the heuristic; cigarettes below the maximum charge are worth infinity; a single move left is worth 0; all three leave the board |
| NewEngine.SearchMoveListed | new_engine.py:15-146 | The move returned is listed: cigarettes only below the maximum charge and with infinity, otherwise a move that survived pruning |
| NewEngine.ScanPicksListed | new_engine.py:53-146 | The loop returns one of the moves it scans |
| NewEngine.Utilities | new_engine.py:55-141 | The loop computes one utility per remaining move, or the first error |
| NewEngine.ScanFirstBest | new_engine.py:53-146 | The loop returns the first of the largest utilities, or keeps the maximum it started with; it raises exactly when some utility raises |
| NewEngine.FirstBestStep | new_engine.py:142-144 | One step of the strict `>`: the first value either beats the maximum or not |
| NewEngine.SearchedUtilities | new_engine.py:55-141 | There is one utility per searched move |
| NewEngine.SearchFirstBest | new_engine.py:53-146 | Past its stops the search returns the first searched move of largest utility, and raises exactly when some utility raises |
| NewEngine.ScanSpends | new_engine.py:104-140 | The loop spends each scanned item at most once from the mover's record |
| NewEngine.SpendStep | new_engine.py:104-140 | One move's spending keeps that invariant |
| NewEngine.SpentLater | new_engine.py:104-140 | The invariant holds once the loop is done |
| NewEngine.SearchSpends | new_engine.py:15-146 | `expectimax` leaves shells, charges, turn, effects and the opponent's record; the chamber may become unknown; each of the mover's items is spent at most once, only for a searched move |
| NewEngine.Take | new_engine.py:104-140 | The method spends from the mover's record as specified |
| NewEngine.Settle | new_engine.py:40-51 | The method applies the search's switch as written to a copy |
| NewEngine.ShotBoard | new_engine.py:71-98 | The method returns a fresh copy for a shot's outcome after the switch as written, or none exactly when `remove` raises |
| NewEngine.ShotBranchUtility | new_engine.py:70-101 | The method computes one outcome's weighted value, searched from the child as written |
| NewEngine.ShotUtility | new_engine.py:68-103 | The method computes a shot's utility as written |
| NewEngine.GlassBranchUtility | new_engine.py:106-116 | The method computes one shown chamber's weighted value |
| NewEngine.GlassUtility | new_engine.py:104-116 | The method computes the glass's utility and spends the glass |
| NewEngine.BeerBranchUtility | new_engine.py:120-130 | The method computes one ejected shell's weighted value |
| NewEngine.BeerUtility | new_engine.py:117-130 | The method computes the beer's utility and spends the beer |
| NewEngine.EffectUtility | new_engine.py:131-140 | The method computes the saw's or handcuffs' utility and spends it |
| NewEngine.MoveUtility | new_engine.py:56-140 | The method computes a move's utility as written and leaves the board after the move's spending |
| NewEngine.PrunedMoves | new_engine.py:21-35 | The method computes the searched moves |
| NewEngine.Expectimax | new_engine.py:15-146 | The method returns the move and utility of the search as written and leaves the board the search leaves |

## Left out

- `Items.__mul__` and `Items.__imul__` truncate float products; the boards never call them.
- The `BuckshotGame` drivers (`buckshot_roulette/multiplayer/game.py:166-231`) shuffle, call the agents and print in a loop; they add no rule of their own.
- `RoundConfig.__init__` draws random sequences and item counts; the model takes the sequences and caps as given in a `Config`.
- `__str__`, `__repr__` and `to_json` are presentation only.
- Randomness (`random.choice`, `random.choices`, `random.randint`, `random.shuffle`, `random.random`) is not drawn. Each draw is a parameter of the operation that makes it.
- Floating-point arithmetic is exact `real` arithmetic. `float('inf')` is a separate utility value. Rounding of the probabilities and utilities is not modelled.
- `functools.lru_cache` and the `cache_max` memo table of `new_engine.py:1-13` only cache `expectimax` results, so the model searches without them.
- `StatEngine.seq_eval` (`stat_engine.py:85-119`) builds a `sympy` formula for printing and is not part of this model.
- `StatEngine.StatEngine.BestMove`, `StatEngine.DealerEngine.BestMove`: `board.p1_items` and `board.p2_items` are not attributes of the `cli_game.py` board. The model takes the mover's record as a parameter `inv` instead of raising AttributeError.
- `StatEngine.DealerEngine.BestMove`: the order in which Python iterates the held kinds is a parameter `held`.
- `Singleplayer.InitSpec`, `Singleplayer.New`: the starting player must be 0 or 1. Any other value makes every later turn index invalid.
- `MpGame.New`: the player count must be at least 1 and the starting player one of the seats.
- `StatEngine.ExpectedValue`: a bundle may hold only beer, saw, handcuffs and the glass. These are the only kinds the action pool is built from.
- `Game.InitSpec`, `Singleplayer.InitSpec`: a `None` charge or round count is written as 0. Python treats the two alike, since both are falsy.
- `Cli.InitSpec`: only a `None` round count is written as 0. `charge_count` is a required argument there and is taken as given.
- `NewEngine.ShotChildIsFire`, `NewEngine.HitIsHurt`: a handcuff in effect (more than half) is left out. The search as written then passes the turn that the game's `fire` keeps; `NewEngine.ShotChildTurn` and `NewEngine.LocalLosesHandcuffTurn` state what the search does instead.
- `NewEngine.ShotChildIsFire`: two shots are left out. A sawed shot at oneself deals 1 damage in the search and 2 in the game's `fire`. After a blank at oneself the search clears the saw and the chamber, and the game's `fire` leaves both.
- `NewEngine`: item records and effects are taken to hold exactly the five kinds of `cli_game.py`.
- `Common.PyIndex` models negative list indices. Positions that the Python code computes and that cannot be negative are `nat`s.
- `cli_game.py`'s `live_round` and `opponent` are one-line accessors; the model reads the front shell and `1 - current_turn` directly.
- `__hash__` of the boards is left out. That of `buckshot_roulette/singleplayer/game.py:324-333` reads an attribute `_shotgun` that the board does not have.
- The initial load of `buckshot_roulette/game.py:72` writes `[False * (total - live)]`, a list of one blank. `Game.LoadedCount` models it as written.

## Findings

| source | as written | input that shows it | evidently intended | confidence | as-written member | corrected member |
|---|---|---|---|---|---|---|
| buckshot_roulette/mp_game.py:86-93 | The members of `GameStatus` are tuples, so `GameStatus(n)` finds only the member with value 6, and `switch_turn` raises ValueError otherwise | A board of at most six players, any turn | Look each seat's jam status up by its number, as `buckshot_roulette/multiplayer/game.py:288-304` does | not executed | MpGame.SwitchTurnRaises | MultiplayerGame.SwitchTurnFinds |
| buckshot_roulette/mp_game.py:229 | `int(move.split('_')[0])` parses the word "shoot", so every shot raises ValueError | The move "shoot_1" | Parse the offset after the underscore | not executed | MpGame.MakeMoveRaises | MultiplayerGame.ShootEffect |
| buckshot_roulette/mp_game.py:261-268 | The beer rebinds a local name, so the board's shells are never ejected | A beer used with two or more shells loaded | Drop the front shell from the board's shells | not executed | MpGame.BeerKeepsShells | MultiplayerGame.BeerEjects |
| buckshot_roulette/multiplayer/ai.py:163-175 | The fallback shot passes a seat index where an offset is expected | Three players, dealer in seat 1, all with 3 charges, front shell known live: the dealer shoots offset 0, itself | Shoot the offset of an opponent | not executed | MultiplayerAi.FallbackShootsSelf | MultiplayerAi.IntendedShootsOpponent |
| stat_engine.py:62-81 | The penalty (`StatEngine.PenaltyAsWritten`, used by `StatEngine.Score`) reads the count of the kind at the loop index of another tuple | A bundle of one beer with two beers and no handcuffs held costs 0 | Divide each kind's value by its own count, 0.05 here (`StatEngine.Penalty`, `StatEngine.IntendedScore`) | not executed | StatEngine.ScoreMisread | StatEngine.PenaltyOfOne |
| new_engine.py:40-51 | The search's switch (`NewEngine.Local`, used by `NewEngine.ShotChild` and `NewEngine.Search`) takes off half a handcuff but never sets `_skip_next`, so it always passes the turn | One handcuff in effect, no skip pending, a shot at the opponent | Keep the turn, as the game's `fire` does (`cli_game.py:74-85`): `NewEngine.Switched` | not executed | NewEngine.LocalLosesHandcuffTurn | NewEngine.SwitchedIsGame |
