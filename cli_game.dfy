/** cli_game.py: the console board with five item kinds, and the helpers
    that list every arrangement of a round's shells.

    `generate_binary_numbers(X, N)` builds, for each set of X positions
    `itertools.combinations` yields, the list of N shells live exactly at
    those positions; `Combination` numbers those sets as the library lists
    them and `Marked` is the list built from one, so the k-th list is
    arrangement number k of the Shells module.

    The board's state as a value is the `Game.Board` of the nine-kind board
    (the fields every two-player board has, plus the shells), here with
    records and effects over the five kinds of this board.  The random draws
    are parameters. */
module Cli {
  import opened Common
  import opened Inventory
  import opened Shells
  import opened Duel
  import Game

  // ------------------------------------------------- generate_binary_numbers

  /** Each position of c, one further on. */
  function Shift(c: seq<nat>): (r: seq<nat>)
    ensures |r| == |c| && forall i :: 0 <= i < |c| ==> r[i] == c[i] + 1
  {
    if c == [] then [] else [c[0] + 1] + Shift(c[1..])
  }

  /** A position is in the shifted list exactly when the one before it is
      in the list. */
  lemma {:induction false} ShiftMembers(c: seq<nat>, q: nat)
    ensures q in Shift(c) <==> q >= 1 && q - 1 in c
  {
    if c != [] {
      ShiftMembers(c[1..], q);
      assert Shift(c) == [c[0] + 1] + Shift(c[1..]);
      assert c == [c[0]] + c[1..];
    }
  }

  /** The k-th tuple `itertools.combinations(range(n), x)` yields: the
      tuples holding position 0 come first, then the others, each group in
      the same order one position further on. */
  function Combination(x: nat, n: nat, k: nat): (r: seq<nat>)
    requires k < Choose(n, x)
    ensures |r| == x && forall i :: 0 <= i < |r| ==> r[i] < n
    decreases n
  {
    if n == 0 then []
    else if k < LiveFirst(x, n) then [0] + Shift(Combination(x - 1, n - 1, k))
    else Shift(Combination(x, n - 1, k - LiveFirst(x, n)))
  }

  /** Arrangement number k has its live shells exactly at the positions of
      the k-th tuple. */
  lemma {:induction false} CombinationMembers(x: nat, n: nat, k: nat, p: nat)
    requires k < Choose(n, x) && p < n
    ensures Unrank(x, n, k)[p] <==> p in Combination(x, n, k)
    decreases n
  {
    var lf := LiveFirst(x, n);
    if k < lf {
      assert Unrank(x, n, k) == [true] + Unrank(x - 1, n - 1, k);
      ShiftMembers(Combination(x - 1, n - 1, k), p);
      if p > 0 {
        CombinationMembers(x - 1, n - 1, k, p - 1);
      }
    } else {
      assert Unrank(x, n, k) == [false] + Unrank(x, n - 1, k - lf);
      ShiftMembers(Combination(x, n - 1, k - lf), p);
      if p > 0 {
        CombinationMembers(x, n - 1, k - lf, p - 1);
      }
    }
  }

  /** `[False] * N` with `True` set at each of `indices`, in turn. */
  function Marked(indices: seq<nat>, n: nat): (r: seq<bool>)
    requires forall i :: 0 <= i < |indices| ==> indices[i] < n
    ensures |r| == n
  {
    if indices == [] then seq(n, _ => false)
    else Marked(indices[..|indices| - 1], n)[indices[|indices| - 1] := true]
  }

  /** The marked list is live exactly at the given positions. */
  lemma {:induction false} MarkedAt(indices: seq<nat>, n: nat, p: nat)
    requires forall i :: 0 <= i < |indices| ==> indices[i] < n
    requires p < n
    ensures Marked(indices, n)[p] <==> p in indices
  {
    if indices != [] {
      var last := |indices| - 1;
      MarkedAt(indices[..last], n, p);
      assert indices == indices[..last] + [indices[last]];
    }
  }

  /** Marking the k-th tuple gives arrangement number k. */
  lemma MarkCombination(x: nat, n: nat, k: nat)
    requires k < Choose(n, x)
    ensures Marked(Combination(x, n, k), n) == Unrank(x, n, k)
  {
    forall p | 0 <= p < n
      ensures Marked(Combination(x, n, k), n)[p] == Unrank(x, n, k)[p]
    {
      MarkedAt(Combination(x, n, k), n, p);
      CombinationMembers(x, n, k, p);
    }
  }

  /** The inner loop of `generate_binary_numbers`: `[False] * N`, then
      `binary_number[index] = True` for each index of the tuple. */
  method Mark(indices: seq<nat>, n: nat) returns (bits: seq<bool>)
    requires forall i :: 0 <= i < |indices| ==> indices[i] < n
    ensures bits == Marked(indices, n)
  {
    bits := seq(n, _ => false);
    for j := 0 to |indices|
      invariant bits == Marked(indices[..j], n)
    {
      assert indices[..j + 1][..j] == indices[..j];
      bits := bits[indices[j] := true];
    }
    assert indices[..|indices|] == indices;
  }

  /** `generate_binary_numbers(X, N)`: ValueError unless 0 <= X <= N;
      otherwise every arrangement of X live shells among N, arrangement
      number k in place k.  The Shells module shows that these are all the
      lists of N shells with X live, each once (UnrankInjective,
      UnrankSurjective), in the order of their sets of live positions
      (UnrankOrdered). */
  method GenerateBinaryNumbers(x: int, n: int) returns (r: Result<seq<seq<bool>>>)
    ensures r.Err? <==> x > n || x < 0 || n < 0
    ensures r.Err? ==> r.error == ValueError
    ensures r.Ok? ==> |r.value| == Choose(n, x)
    ensures r.Ok? ==> forall k :: 0 <= k < |r.value| ==> r.value[k] == Unrank(x, n, k)
  {
    if x > n || x < 0 || n < 0 {
      return Err(ValueError);
    }
    var all := Arrangements(x, n);
    return Ok(all);
  }

  /** The loop of `generate_binary_numbers` once its arguments are valid:
      one list per tuple, in the tuples' order. */
  method Arrangements(x: nat, n: nat) returns (out: seq<seq<bool>>)
    ensures |out| == Choose(n, x)
    ensures forall k :: 0 <= k < |out| ==> out[k] == Unrank(x, n, k)
  {
    var count := Choose(n, x);
    out := [];
    var k: nat := 0;
    while k < count
      invariant k <= count
      invariant |out| == k
      invariant forall i :: 0 <= i < k ==> out[i] == Unrank(x, n, i)
    {
      var bits := Arrangement(x, n, k);
      out := out + [bits];
      k := k + 1;
    }
  }

  /** One pass of that loop: the k-th tuple, marked. */
  method Arrangement(x: nat, n: nat, k: nat) returns (bits: seq<bool>)
    requires k < Choose(n, x)
    ensures bits == Unrank(x, n, k)
  {
    var indices := Combination(x, n, k);
    bits := Mark(indices, n);
    MarkCombination(x, n, k);
  }

  /** `binomial_coefficient(X, N)`: ValueError unless 0 <= X <= N;
      otherwise `N! // (X! (N-X)!)`, which is the number of arrangements of
      X live shells among N, so the length of `generate_binary_numbers(X, N)`. */
  function BinomialCoefficient(x: int, n: int): (r: Result<int>)
    ensures r.Err? <==> x < 0 || n < 0 || x > n
    ensures r.Err? ==> r.error == ValueError
    ensures r.Ok? ==> r.value == Choose(n, x)
  {
    if x < 0 || n < 0 || x > n then Err(ValueError)
    else
      FactorialQuotient(n, x);
      Ok(Factorial(n) / (Factorial(x) * Factorial(n - x)))
  }

  // ------------------------------------------------------------------ board

  /** The board's `POSSIBLE_ITEMS`, which is also the key order of its
      records. */
  const FiveKinds: seq<Kind> := [Handcuffs, MagnifyingGlass, Beer, Cigarettes, Saw]

  lemma FiveKindsDistinct()
    ensures Distinct(FiveKinds)
  {
  }

  predicate BoardOk(b: Game.Board) {
    TableOk(FiveKinds, b.table)
  }

  predicate FiveCover(items: seq<Counts>) {
    |items| == 2 && Covers(items[0], FiveKinds) && Covers(items[1], FiveKinds)
  }

  /** The draws of a new round: `randint(2, 8)` shells is 2 + totalRoll % 7,
      `randint(1, total - 1)` live ones is 1 + liveRoll % (total - 1),
      `random.choice` over the arrangements takes number pick modulo their
      count, `give_items(randint(1, 4))` deals 1 + itemRoll % 4 items, and
      picks(p)(j) is player p's j-th `random.choice(POSSIBLE_ITEMS)`. */
  datatype Draws = Draws(totalRoll: nat, liveRoll: nat, pick: nat, itemRoll: nat, picks: nat -> nat -> nat)

  /** The table of a new board: both players at `charge_count`, player 0 to
      move, empty records, nothing in effect, no skip pending, the chamber
      unknown. */
  function StartTable(maxCharges: int): (r: Table)
    ensures TableOk(FiveKinds, r) && FiveCover(r.items)
  {
    Table(maxCharges, [maxCharges, maxCharges], 0, [Zero(FiveKinds), Zero(FiveKinds)],
          NoneActive(FiveKinds), false, None)
  }

  /** `Board(charge_count, total_rounds, live_rounds)`: a zero or None round
      count is drawn; more live shells than shells raises ValueError, and so
      does `generate_binary_numbers` for a negative count.  No items are
      given. */
  function InitSpec(chargeCount: int, totalRounds: int, liveRounds: Option<int>, d: Draws): (r: Result<Game.Board>)
    ensures r.Ok? ==> BoardOk(r.value)
  {
    var total := if totalRounds != 0 then totalRounds else 2 + d.totalRoll % 7;
    var live := if liveRounds.None? then total / 2 else liveRounds.value;
    if live > total || live < 0 || total < 0 then Err(ValueError)
    else Ok(Game.Board(StartTable(chargeCount), Shuffled(live, total, d.pick)))
  }

  /** A new board exists exactly when 0 <= live <= total; its shells are
      then `total` long with `live` of them live, its charges are exactly
      `charge_count`, player 0 moves and nobody holds an item. */
  lemma InitShells(chargeCount: int, totalRounds: int, liveRounds: Option<int>, d: Draws)
    ensures var r := InitSpec(chargeCount, totalRounds, liveRounds, d);
      var total := if totalRounds != 0 then totalRounds else 2 + d.totalRoll % 7;
      var live := if liveRounds.None? then total / 2 else liveRounds.value;
      && (r.Ok? <==> 0 <= live <= total)
      && (r.Err? ==> r.error == ValueError)
      && (r.Ok? ==>
            && |r.value.shotgun| == total && CountTrue(r.value.shotgun) == live
            && r.value.table.maxCharges == chargeCount && r.value.table.charges == [chargeCount, chargeCount]
            && r.value.table.currentTurn == 0
            && r.value.table.items == [Zero(FiveKinds), Zero(FiveKinds)])
  {
  }

  /** Draw j of `random.choice(POSSIBLE_ITEMS)`. */
  function Drawn(draw: nat -> nat, j: nat): (r: Kind)
    ensures r in FiveKinds
  {
    FiveKinds[draw(j) % 5]
  }

  /** The inner loop of `give_items` for one player from draw j on: stop
      when the record holds exactly 8 items, else add the drawn kind. */
  function Dropped(player: Counts, itemCount: int, draw: nat -> nat, j: nat): (r: Counts)
    requires Covers(player, FiveKinds)
    ensures Covers(r, FiveKinds)
    decreases itemCount - j
  {
    if j >= itemCount || ItemCount(player, FiveKinds) == MaxHeld then player
    else
      var k := Drawn(draw, j);
      Dropped(player[k := player[k] + 1], itemCount, draw, j + 1)
  }

  /** A player holding at most 8 items is dealt items until `item_count`
      are drawn or 8 are held; one holding more (which the board never
      reaches) is never stopped, since the loop only checks for exactly 8. */
  lemma {:induction false} DroppedCount(player: Counts, itemCount: int, draw: nat -> nat, j: nat)
    requires Covers(player, FiveKinds)
    ensures var held := ItemCount(player, FiveKinds);
      var after := ItemCount(Dropped(player, itemCount, draw, j), FiveKinds);
      var n := Max(0, itemCount - j);
      && (held <= MaxHeld ==> after == Min(held + n, MaxHeld))
      && (held > MaxHeld ==> after == held + n)
    decreases itemCount - j
  {
    if j < itemCount && ItemCount(player, FiveKinds) != MaxHeld {
      var k := Drawn(draw, j);
      FiveKindsDistinct();
      ItemCountBump(player, FiveKinds, k, 1);
      DroppedCount(player[k := player[k] + 1], itemCount, draw, j + 1);
    }
  }

  /** `give_items(item_count)` on the records: each player's own loop. */
  function Give(items: seq<Counts>, itemCount: int, picks: nat -> nat -> nat): (r: seq<Counts>)
    requires FiveCover(items)
    ensures FiveCover(r)
  {
    [Dropped(items[0], itemCount, picks(0), 0), Dropped(items[1], itemCount, picks(1), 0)]
  }

  /** The table with the records `xs`. */
  function Restocked(t: Table, xs: seq<Counts>): (r: Table)
    requires TableOk(FiveKinds, t) && FiveCover(xs)
    ensures TableOk(FiveKinds, r)
  {
    t.(items := xs)
  }

  /** `give_items(item_count)` on a board: only the records change. */
  function Deal(b: Game.Board, itemCount: int, picks: nat -> nat -> nat): (r: Game.Board)
    requires BoardOk(b)
    ensures BoardOk(r) && r.shotgun == b.shotgun && r.table == b.table.(items := r.table.items)
  {
    Game.Board(Restocked(b.table, Give(b.table.items, itemCount, picks)), b.shotgun)
  }

  /** Every player holding at most 8 items ends with
      min(held + max(0, item_count), 8) of them. */
  lemma DealCount(b: Game.Board, itemCount: int, picks: nat -> nat -> nat, p: nat)
    requires BoardOk(b) && p < 2 && ItemCount(b.table.items[p], FiveKinds) <= MaxHeld
    ensures var held := ItemCount(b.table.items[p], FiveKinds);
      ItemCount(Deal(b, itemCount, picks).table.items[p], FiveKinds) == Min(held + Max(0, itemCount), MaxHeld)
  {
    DroppedCount(b.table.items[p], itemCount, picks(p), 0);
  }

  /** `new_rounds(drop_items)`: 2 to 8 shells of which 1 to total - 1 are
      live, picked among all their arrangements; then, when dropping items,
      `give_items(randint(1, 4))`. */
  function NewRoundsSpec(b: Game.Board, dropItems: bool, d: Draws): (r: Game.Board)
    requires BoardOk(b)
    ensures BoardOk(r)
  {
    var b1 := Reloaded(b, d);
    if dropItems then Deal(b1, 1 + d.itemRoll % 4, d.picks) else b1
  }

  /** The board with the new round's shells. */
  function Reloaded(b: Game.Board, d: Draws): (r: Game.Board)
    requires BoardOk(b)
    ensures BoardOk(r) && r.table == b.table
  {
    var total := 2 + d.totalRoll % 7;
    var live := 1 + d.liveRoll % (total - 1);
    b.(shotgun := Shuffled(live, total, d.pick))
  }

  /** A new round has 2 to 8 shells, at least one live and at least one
      blank; only the shells and, when dropping, the records change. */
  lemma NewRoundsShells(b: Game.Board, dropItems: bool, d: Draws)
    requires BoardOk(b)
    ensures var b' := NewRoundsSpec(b, dropItems, d);
      && 2 <= |b'.shotgun| <= 8 && 1 <= CountTrue(b'.shotgun) <= |b'.shotgun| - 1
      && b'.table == b.table.(items := b'.table.items)
      && (!dropItems ==> b'.table == b.table)
  {
  }

  /** A shot in `make_move`: 'op' reports the damage, 'self' its negation;
      an empty shotgun raises IndexError. */
  function Shot(b: Game.Board, atOpponent: bool): (r: (Result<Info>, Game.Board))
    requires BoardOk(b)
    ensures BoardOk(r.1)
  {
    var f := Fire(b.table, b.shotgun, atOpponent);
    if f.0.Err? then (Err(f.0.error), b.(table := f.1))
    else (Ok(Num(if atOpponent then f.0.value.0 else -f.0.value.0)), Game.Board(f.1, f.0.value.1))
  }

  /** `make_move` up to the reload.  Every item move takes from the mover's
      record; a string naming no move of this board does nothing. */
  function ApplySpec(b: Game.Board, move: Move): (r: (Result<Info>, Game.Board))
    requires BoardOk(b)
    ensures BoardOk(r.1)
  {
    match move
    case ShootOpponent => Shot(b, true)
    case ShootSelf => Shot(b, false)
    case Use(k) =>
      if k in FiveKinds then Game.After(UseItem(FiveKinds, b.table, b.table.currentTurn, k, b.shotgun, 0, false), b.shotgun)
      else (Ok(Nothing), b)
    case Unknown => (Ok(Nothing), b)
  }

  /** `make_move(move, load_new)`: the move, then, when `load_new` is set
      and no shell is left, the turn goes back to player 0 and
      `new_rounds()` loads the next round. */
  function MakeMoveSpec(b: Game.Board, move: Move, loadNew: bool, d: Draws): (r: (Result<Info>, Game.Board))
    requires BoardOk(b)
    ensures BoardOk(r.1)
  {
    var a := ApplySpec(b, move);
    if a.0.Ok? && loadNew && a.1.shotgun == [] then
      (a.0, NewRoundsSpec(a.1.(table := a.1.table.(currentTurn := 0)), true, d))
    else a
  }

  /** A move that uses up the last shell with `load_new` set hands the turn
      to player 0 and loads 2 to 8 shells with at least one live and one
      blank. */
  lemma MakeMoveReloads(b: Game.Board, move: Move, d: Draws)
    requires BoardOk(b)
    requires var a := ApplySpec(b, move); a.0.Ok? && a.1.shotgun == []
    ensures var b' := MakeMoveSpec(b, move, true, d).1;
      && b'.table.currentTurn == 0
      && 2 <= |b'.shotgun| <= 8 && 1 <= CountTrue(b'.shotgun) <= |b'.shotgun| - 1
  {
    var a := ApplySpec(b, move);
    NewRoundsShells(a.1.(table := a.1.table.(currentTurn := 0)), true, d);
  }

  /** 'self' reports the negated damage, 'op' the damage, and both drop the
      front shell. */
  lemma MakeMoveShots(b: Game.Board)
    requires BoardOk(b) && b.shotgun != []
    ensures var d := if !b.shotgun[0] then 0 else if b.table.active[Saw] > 0.0 then 2 else 1;
      && ApplySpec(b, ShootSelf) == (Ok(Num(-d)), ApplySpec(b, ShootSelf).1)
      && ApplySpec(b, ShootOpponent) == (Ok(Num(d)), ApplySpec(b, ShootOpponent).1)
      && ApplySpec(b, ShootSelf).1.shotgun == b.shotgun[1..]
      && ApplySpec(b, ShootOpponent).1.shotgun == b.shotgun[1..]
  {
    FireDamage(b.table, b.shotgun, false);
    FireDamage(b.table, b.shotgun, true);
  }

  /** An item move of the board spends one item of its kind from the
      mover's record, whether or not the mover held one, and leaves the
      other record alone. */
  lemma MakeMoveSpends(b: Game.Board, k: Kind)
    requires BoardOk(b) && k in FiveKinds
    ensures var t' := ApplySpec(b, Use(k)).1.table;
      var ct := b.table.currentTurn;
      && t'.items[ct] == b.table.items[ct][k := b.table.items[ct][k] - 1]
      && t'.items[1 - ct] == b.table.items[1 - ct]
  {
    ApplyUse(b, k);
    FiveKindsDistinct();
    UseItemSpends(FiveKinds, b.table, b.table.currentTurn, k, b.shotgun, 0, false);
  }

  /** An item move of the board is the shared item branch on the mover's
      record, with the shotgun kept. */
  lemma ApplyUse(b: Game.Board, k: Kind)
    requires BoardOk(b) && k in FiveKinds
    ensures ApplySpec(b, Use(k)).1.table == UseItem(FiveKinds, b.table, b.table.currentTurn, k, b.shotgun, 0, false).1
  {
  }

  /** Cigarettes heal the mover by one but never above `max_charges`;
      handcuffs put one more handcuff in effect and set `_skip_next`. */
  lemma MakeMoveHealsAndCuffs(b: Game.Board)
    requires BoardOk(b)
    ensures var t' := ApplySpec(b, Use(Cigarettes)).1.table;
      var ct := b.table.currentTurn;
      t'.charges == b.table.charges[ct := Min(b.table.charges[ct] + 1, b.table.maxCharges)]
    ensures var t' := ApplySpec(b, Use(Handcuffs)).1.table;
      t'.active == b.table.active[Handcuffs := b.table.active[Handcuffs] + 1.0] && t'.skipNext
  {
  }

  /** A string that names no move of this board ('inverter' among them)
      reports None and changes nothing. */
  lemma MakeMoveIgnores(b: Game.Board, move: Move)
    requires BoardOk(b) && (move == Unknown || (move.Use? && move.kind !in FiveKinds))
    ensures ApplySpec(b, move) == (Ok(Nothing), b)
  {
  }

  /** `moves()`: 'op', 'self', then each held kind not in effect, in
      `POSSIBLE_ITEMS` order. */
  function MovesSpec(t: Table): (r: seq<Move>)
    requires TableOk(FiveKinds, t)
  {
    [ShootOpponent, ShootSelf] + ItemMoves(FiveKinds, t.items[t.currentTurn], t.active)
  }

  /** The moves are both shots and then exactly the mover's held kinds
      that are not in effect, each once. */
  lemma MovesListed(t: Table)
    requires TableOk(FiveKinds, t)
    ensures var ms := MovesSpec(t);
      && |ms| >= 2 && ms[0] == ShootOpponent && ms[1] == ShootSelf
      && (forall m :: m in ms[2..] <==>
            m.Use? && m.kind in FiveKinds && t.items[t.currentTurn][m.kind] > 0 && t.active[m.kind] == 0.0)
      && (forall i, j :: 2 <= i < j < |ms| ==> ms[i] != ms[j])
  {
    var ms := MovesSpec(t);
    var held := ItemMoves(FiveKinds, t.items[t.currentTurn], t.active);
    FiveKindsDistinct();
    ItemMovesMembers(FiveKinds, t.items[t.currentTurn], t.active);
    assert ms[2..] == held;
    forall i, j | 2 <= i < j < |ms| ensures ms[i] != ms[j] {
      assert ms[i] == held[i - 2] && ms[j] == held[j - 2];
    }
  }

  /** `copy()`: a board made with `charge_count=0`, into which charges,
      turn, shells, records and effects are copied; `max_charges` stays 0,
      `_skip_next` False and `chamber_public` None. */
  function CopySpec(b: Game.Board): (r: Game.Board)
    requires BoardOk(b)
    ensures BoardOk(r)
  {
    Game.Board(b.table.(maxCharges := 0, skipNext := false, chamberPublic := None), b.shotgun)
  }

  /** The copy keeps charges, turn, shells, records and effects.  It equals
      the original exactly when the original has `max_charges` 0, no
      pending skip and no public chamber; and since its `max_charges` is 0,
      cigarettes on the copy leave the mover with at most 0 charges. */
  lemma CopyEquals(b: Game.Board)
    requires BoardOk(b)
    ensures var c := CopySpec(b);
      && c.shotgun == b.shotgun && c.table.charges == b.table.charges
      && c.table.currentTurn == b.table.currentTurn
      && c.table.items == b.table.items && c.table.active == b.table.active
      && (c == b <==> b.table.maxCharges == 0 && !b.table.skipNext && b.table.chamberPublic == None)
      && ApplySpec(c, Use(Cigarettes)).1.table.charges[c.table.currentTurn] <= 0
  {
  }

  /** `Board`, the board of cli_game.py. */
  class Board {
    var maxCharges: int
    var charges: seq<int>
    var currentTurn: int
    var shotgun: seq<bool>
    var items: seq<Counts>
    var active: Active
    var skipNext: bool
    var chamberPublic: Option<bool>

    /** The board's fields as a value. */
    function Snap(): Game.Board
      reads this
    {
      Game.Board(Table(maxCharges, charges, currentTurn, items, active, skipNext, chamberPublic), shotgun)
    }

    predicate Valid()
      reads this
    {
      BoardOk(Snap())
    }

    /** `__init__` once its shells are drawn. */
    constructor (maxCharges: int, shotgun: seq<bool>)
      ensures Snap() == Game.Board(StartTable(maxCharges), shotgun)
      ensures Valid() && this.maxCharges == maxCharges && !skipNext && chamberPublic == None
    {
      this.maxCharges := maxCharges;
      charges := [maxCharges, maxCharges];
      currentTurn := 0;
      this.shotgun := shotgun;
      items := [Zero(FiveKinds), Zero(FiveKinds)];
      active := NoneActive(FiveKinds);
      skipNext := false;
      chamberPublic := None;
    }

    /** `new_rounds(drop_items)`. */
    method NewRounds(dropItems: bool, d: Draws)
      requires Valid()
      modifies this
      ensures Snap() == NewRoundsSpec(old(Snap()), dropItems, d)
      ensures Valid()
    {
      Reload(d);
      if dropItems {
        GiveItems(1 + d.itemRoll % 4, d.picks);
      }
    }

    /** The shells of `new_rounds`: `random.choice` among all arrangements. */
    method Reload(d: Draws)
      requires Valid()
      modifies this
      ensures Snap() == Reloaded(old(Snap()), d)
      ensures Valid()
    {
      var total := 2 + d.totalRoll % 7;
      var live := 1 + d.liveRoll % (total - 1);
      var all := GenerateBinaryNumbers(live, total);
      ChoosePositive(total, live);
      shotgun := all.value[d.pick % |all.value|];
    }

    /** `give_items(item_count)`: each player's loop in turn. */
    method GiveItems(itemCount: int, picks: nat -> nat -> nat)
      requires Valid()
      modifies this
      ensures Snap() == Deal(old(Snap()), itemCount, picks)
      ensures Valid()
    {
      ghost var start := items;
      for p := 0 to 2
        invariant FiveCover(items) && Valid()
        invariant forall q :: 0 <= q < p ==> items[q] == Dropped(start[q], itemCount, picks(q), 0)
        invariant forall q :: p <= q < 2 ==> items[q] == start[q]
        invariant Snap() == old(Snap()).(table := old(Snap()).table.(items := items))
      {
        var given := DropTo(items[p], itemCount, picks(p));
        items := items[p := given];
      }
      assert items == Give(start, itemCount, picks);
    }

    /** `shotgun_info()`. */
    method ShotgunInfo() returns (live: nat, length: nat)
      ensures (live, length) == Game.ShotgunInfoSpec(Snap())
    {
      live := CountTrue(shotgun);
      length := |shotgun|;
    }

    /** `winner()`. */
    method Winner() returns (r: Option<nat>)
      requires Valid()
      ensures r == Duel.Winner(charges)
    {
      if charges[0] < 1 {
        return Some(1);
      } else if charges[1] < 1 {
        return Some(0);
      }
      return None;
    }

    /** `switch_turn()`. */
    method SwitchTurn()
      modifies this
      ensures Snap() == old(Snap()).(table := old(Snap()).table.(currentTurn := Opponent(old(currentTurn))))
    {
      currentTurn := if currentTurn == 0 then 1 else 0;
    }

    /** `fire(at_opponent)`: the damage. */
    method Fire(atOpponent: bool) returns (r: Result<int>)
      requires Valid()
      modifies this
      ensures var f := Duel.Fire(old(Snap()).table, old(shotgun), atOpponent);
        && r == (if f.0.Ok? then Ok(f.0.value.0) else Err(f.0.error))
        && Snap() == Game.Board(f.1, if f.0.Ok? then f.0.value.1 else old(shotgun))
      ensures Valid()
    {
      ghost var t := old(Snap()).table;
      var target := (currentTurn + (if atOpponent then 1 else 0)) % 2;
      if shotgun == [] {
        return Err(IndexError);
      }
      var isHit := shotgun[0];
      shotgun := shotgun[1..];
      chamberPublic := None;
      assert target == Target(t, atOpponent) && Snap().table == t.(chamberPublic := None);
      if isHit {
        var damage := Hit(target);
        Switch(atOpponent, isHit);
        r := Ok(damage);
      } else if atOpponent {
        Switch(atOpponent, isHit);
        r := Ok(0);
      } else {
        r := Ok(0);
      }
      assert Duel.Fire(t, old(shotgun), atOpponent) == (Ok((r.value, shotgun)), Snap().table);
    }

    /** A live shell in `fire`. */
    method Hit(target: nat) returns (damage: int)
      requires Shaped(Snap().table) && target < 2
      modifies this
      ensures var h := Hurt(old(Snap()).table, target);
        damage == h.0 && Snap() == old(Snap()).(table := h.1)
    {
      damage := 1;
      if active[Saw] > 0.0 {
        active := active[Saw := 0.0];
        damage := 2;
      }
      charges := charges[target := charges[target] - damage];
    }

    /** The inner `switch()` of `fire`. */
    method Switch(atOpponent: bool, isHit: bool)
      requires Shaped(Snap().table)
      modifies this
      ensures Snap() == old(Snap()).(table := Duel.Switch(old(Snap()).table, atOpponent, isHit))
    {
      active := active[Saw := 0.0];
      if active[Handcuffs] > 0.5 {
        if !atOpponent && !isHit {
          return;
        }
        active := active[Handcuffs := active[Handcuffs] - 0.5];
        skipNext := true;
      }
      if skipNext {
        skipNext := false;
      } else {
        SwitchTurn();
      }
    }

    /** `moves()`. */
    method Moves() returns (r: seq<Move>)
      requires Valid()
      ensures r == MovesSpec(Snap().table)
    {
      var listed := ListItems(FiveKinds, items[currentTurn], active);
      r := [ShootOpponent, ShootSelf] + listed;
    }

    /** `make_move(move, load_new)`; d holds the draws of a reload. */
    method MakeMove(move: Move, loadNew: bool, d: Draws) returns (r: Result<Info>)
      requires Valid()
      modifies this
      ensures (r, Snap()) == MakeMoveSpec(old(Snap()), move, loadNew, d)
      ensures Valid()
    {
      r := ApplyMove(move);
      ghost var a := Snap();
      if r.Ok? && loadNew && |shotgun| == 0 {
        currentTurn := 0;
        assert Snap() == a.(table := a.table.(currentTurn := 0));
        NewRounds(true, d);
      }
    }

    /** `make_move` up to the reload. */
    method ApplyMove(move: Move) returns (r: Result<Info>)
      requires Valid()
      modifies this
      ensures (r, Snap()) == ApplySpec(old(Snap()), move)
      ensures Valid()
    {
      match move {
        case ShootOpponent =>
          var f := Fire(true);
          r := if f.Ok? then Ok(Num(f.value)) else Err(f.error);
        case ShootSelf =>
          var f := Fire(false);
          r := if f.Ok? then Ok(Num(-f.value)) else Err(f.error);
        case Use(k) =>
          if k in FiveKinds {
            r := UseItem(k);
          } else {
            r := Ok(Nothing);
          }
        case Unknown =>
          r := Ok(Nothing);
      }
    }

    /** An item move: `items[<kind>] -= 1` on the mover's record, then the
        item's effect. */
    method UseItem(k: Kind) returns (r: Result<Info>)
      requires Valid() && k in FiveKinds
      modifies this
      ensures (r, Snap()) == Game.After(Duel.UseItem(FiveKinds, old(Snap()).table, old(currentTurn), k, old(shotgun), 0, false), old(shotgun))
      ensures Valid()
    {
      SpendItem(k);
      r := UseSpent(k);
    }

    /** `items[<kind>] -= 1` on the mover's record. */
    method SpendItem(k: Kind)
      requires Valid() && k in FiveKinds
      modifies this
      ensures Snap() == Game.Board(Spend(old(Snap()).table, old(currentTurn), k), old(shotgun))
      ensures Valid()
    {
      FiveKindsDistinct();
      SpendOne(FiveKinds, old(Snap()).table, currentTurn, k);
      items := items[currentTurn := items[currentTurn][k := items[currentTurn][k] - 1]];
    }

    /** What an item does once spent. */
    method UseSpent(k: Kind) returns (r: Result<Info>)
      requires Valid() && k in FiveKinds
      modifies this
      ensures (r, Snap()) == Game.After(Effect(FiveKinds, old(Snap()).table, k, old(shotgun), 0, false), old(shotgun))
      ensures Valid()
    {
      r := Ok(Nothing);
      match k {
        case Handcuffs =>
          active := active[Handcuffs := active[Handcuffs] + 1.0];
          skipNext := true;
        case MagnifyingGlass =>
          if shotgun == [] {
            return Err(IndexError);
          }
          r := Ok(Shell(shotgun[0]));
          chamberPublic := Some(shotgun[0]);
        case Beer =>
          if |shotgun| > 1 {
            r := Ok(Shell(shotgun[0]));
            shotgun := shotgun[1..];
          } else {
            shotgun := [];
          }
        case Cigarettes =>
          charges := charges[currentTurn := Min(charges[currentTurn] + 1, maxCharges)];
        case Saw =>
          active := active[Saw := active[Saw] + 1.0];
      }
    }

    /** `copy()`; the shells the new board draws for itself are overwritten. */
    method Copy() returns (c: Board)
      requires Valid()
      ensures fresh(c) && c.Snap() == CopySpec(Snap())
      ensures c.Valid()
    {
      c := new Board(0, []);
      c.charges := charges;
      c.currentTurn := currentTurn;
      c.shotgun := shotgun;
      c.items := items;
      c.active := active;
      assert c.Snap().table == Snap().table.(maxCharges := 0, skipNext := false, chamberPublic := None);
    }

    /** `__eq__`: every field. */
    method Equals(other: Board) returns (r: bool)
      ensures r <==> Snap() == other.Snap()
    {
      r := maxCharges == other.maxCharges && charges == other.charges && currentTurn == other.currentTurn
        && shotgun == other.shotgun && items == other.items && active == other.active
        && skipNext == other.skipNext && chamberPublic == other.chamberPublic;
    }
  }

  /** The inner loop of `give_items` for one player. */
  method DropTo(player: Counts, itemCount: int, draw: nat -> nat) returns (r: Counts)
    requires Covers(player, FiveKinds)
    ensures r == Dropped(player, itemCount, draw, 0)
  {
    r := player;
    var j: nat := 0;
    while j < itemCount
      invariant Covers(r, FiveKinds)
      invariant Dropped(r, itemCount, draw, j) == Dropped(player, itemCount, draw, 0)
      decreases itemCount - j
    {
      if ItemCount(r, FiveKinds) == MaxHeld {
        break;
      }
      var item := FiveKinds[draw(j) % 5];
      r := r[item := r[item] + 1];
      j := j + 1;
    }
  }

  /** `Board(charge_count, total_rounds, live_rounds)`. */
  method New(chargeCount: int, totalRounds: int, liveRounds: Option<int>, d: Draws) returns (r: Result<Board>)
    ensures r.Err? ==> InitSpec(chargeCount, totalRounds, liveRounds, d) == Err(r.error)
    ensures r.Ok? ==> fresh(r.value) && r.value.Valid()
    ensures r.Ok? ==> InitSpec(chargeCount, totalRounds, liveRounds, d) == Ok(r.value.Snap())
  {
    var total := if totalRounds != 0 then totalRounds else 2 + d.totalRoll % 7;
    var live := if liveRounds.None? then total / 2 else liveRounds.value;
    if live > total {
      return Err(ValueError);
    }
    var all := GenerateBinaryNumbers(live, total);
    if all.Err? {
      assert InitSpec(chargeCount, totalRounds, liveRounds, d) == Err(ValueError);
      return Err(all.error);
    }
    ChoosePositive(total, live);
    var shells := all.value[d.pick % |all.value|];
    assert shells == Shuffled(live, total, d.pick);
    var b := new Board(chargeCount, shells);
    assert InitSpec(chargeCount, totalRounds, liveRounds, d) == Ok(Game.Board(StartTable(chargeCount), shells));
    return Ok(b);
  }
}
