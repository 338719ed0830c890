/** buckshot_roulette/singleplayer/game.py: the two-player board that does
    not hold the shells.  The caller keeps the shell list, passes it to
    `fire` and `make_move` and gets back what is left of it; the board
    only records how many shells there are (`total`) and how many are live
    (`live`), and who starts each round (`starter`).

    `Board` is the board's state as a value; the functions below say what
    each method does to it, and the class `BuckshotRoulette` at the end
    updates its fields as the Python code does, each method proved to
    follow its function.  The random draws are parameters. */
module Singleplayer {
  import opened Common
  import opened Inventory
  import opened Duel
  import Game

  datatype Board = Board(table: Table, starter: int, total: int, live: int)

  predicate BoardOk(b: Board) {
    TableOk(NineKinds, b.table) && (b.starter == 0 || b.starter == 1)
  }

  /** The draws of a new round: `randint(2, 8)` shells is 2 + totalRoll % 7,
      `give_items(randint(2, 5))` deals 2 + itemRoll % 4 items, and picks(p)
      are player p's `random.choices` draws. */
  datatype Draws = Draws(totalRoll: nat, itemRoll: nat, picks: nat -> nat -> nat)

  /** The table of a board just built, before any item is given: both
      players at full charge, `starter` to move, empty records, nothing in
      effect, no skip pending, the chamber unknown. */
  function StartTable(maxCharges: int, starter: int): (r: Table)
    requires starter == 0 || starter == 1
    ensures TableOk(NineKinds, r) && BothCover(r.items)
  {
    Table(maxCharges, [maxCharges, maxCharges], starter, [Zero(NineKinds), Zero(NineKinds)],
          NoneActive(NineKinds), false, None)
  }

  /** `give_items(item_count)` on a board: only the records change. */
  function Deal(b: Board, itemCount: int, picks: nat -> nat -> nat): (r: (Result<()>, Board))
    requires BoardOk(b)
    ensures BoardOk(r.1) && r.1 == b.(table := b.table.(items := r.1.table.items))
  {
    var g := GiveItems(b.table.maxCharges, b.table.items, itemCount, picks);
    (g.0, b.(table := Game.Restocked(b.table, g.1)))
  }

  /** Each player gains only what `Gained` allows from `give_items`. */
  lemma DealGains(b: Board, itemCount: int, picks: nat -> nat -> nat)
    requires BoardOk(b)
    ensures var after := Deal(b, itemCount, picks).1.table.items;
      && Gained(b.table.maxCharges, itemCount, b.table.items[0], after[0])
      && Gained(b.table.maxCharges, itemCount, b.table.items[1], after[1])
  {
    var g := Duel.GiveItems(b.table.maxCharges, b.table.items, itemCount, picks).1;
    GiveItemsEffect(b.table.maxCharges, b.table.items, itemCount, picks);
    assert Deal(b, itemCount, picks).1.table.items == g;
  }

  /** On two empty records `give_items` never raises and deals each player
      exactly min(item_count, 8) items, none for a count below 1. */
  lemma DealFresh(b: Board, itemCount: int, picks: nat -> nat -> nat)
    requires BoardOk(b) && b.table.items == [Zero(NineKinds), Zero(NineKinds)]
    ensures var (r, b') := Deal(b, itemCount, picks);
      && r == Ok(())
      && ItemCount(b'.table.items[0], NineKinds) == Max(0, Min(itemCount, MaxHeld))
      && ItemCount(b'.table.items[1], NineKinds) == Max(0, Min(itemCount, MaxHeld))
  {
    GiveFresh(b.table.maxCharges, itemCount, picks);
  }

  /** The shell count of a new board: `total_rounds`, or `randint(2, 8)`
      when it is 0 or None. */
  function Total(totalRounds: int, d: Draws): (r: int)
    ensures totalRounds == 0 ==> 2 <= r <= 8
    ensures totalRounds != 0 ==> r == totalRounds
  {
    if totalRounds != 0 then totalRounds else 2 + d.totalRoll % 7
  }

  /** The live count of a new board: `live_rounds`, or half the shells
      rounded down. */
  function Live(totalRounds: int, liveRounds: Option<int>, d: Draws): int {
    if liveRounds.None? then Total(totalRounds, d) / 2 else liveRounds.value
  }

  /** `__init__(starter, charge_count, total_rounds, live_rounds)`.  A zero
      charge count or shell count (Python's falsy 0 or None) is drawn; more
      live shells than shells raises ValueError. */
  function InitSpec(starter: int, chargeCount: int, totalRounds: int, liveRounds: Option<int>, chargeRoll: nat, d: Draws)
    : (r: Result<Board>)
    requires starter == 0 || starter == 1
    ensures r.Ok? ==> BoardOk(r.value)
  {
    var total := Total(totalRounds, d);
    var live := Live(totalRounds, liveRounds, d);
    if live > total then Err(ValueError)
    else Stocked(Fresh(starter, chargeCount, totalRounds, liveRounds, chargeRoll, d), 2 + d.itemRoll % 4, d.picks)
  }

  /** The board `__init__` builds before `give_items`: full charges, the
      shell counts, and two empty records. */
  function Fresh(starter: int, chargeCount: int, totalRounds: int, liveRounds: Option<int>, chargeRoll: nat, d: Draws)
    : (r: Board)
    requires starter == 0 || starter == 1
    ensures BoardOk(r) && r.table.items == [Zero(NineKinds), Zero(NineKinds)]
  {
    Board(StartTable(Game.Charges(chargeCount, chargeRoll), starter), starter, Total(totalRounds, d), Live(totalRounds, liveRounds, d))
  }

  /** The board `__init__` returns once `give_items` has run, unless that
      raises. */
  function Stocked(b: Board, itemCount: int, picks: nat -> nat -> nat): (r: Result<Board>)
    requires BoardOk(b)
    ensures r.Ok? ==> BoardOk(r.value)
  {
    var g := Deal(b, itemCount, picks);
    if g.0.Err? then Err(g.0.error) else Ok(g.1)
  }

  /** A new board exists exactly when there are no more live shells than
      shells; otherwise `__init__` raises ValueError. */
  lemma InitRejects(starter: int, chargeCount: int, totalRounds: int, liveRounds: Option<int>, chargeRoll: nat, d: Draws)
    requires starter == 0 || starter == 1
    ensures var r := InitSpec(starter, chargeCount, totalRounds, liveRounds, chargeRoll, d);
      && (r.Ok? <==> Live(totalRounds, liveRounds, d) <= Total(totalRounds, d))
      && (r.Err? ==> r.error == ValueError)
  {
    if Live(totalRounds, liveRounds, d) <= Total(totalRounds, d) {
      InitOk(starter, chargeCount, totalRounds, liveRounds, chargeRoll, d);
    }
  }

  /** When no more shells are live than exist, `__init__` builds the new
      table and deals both players their items. */
  lemma InitOk(starter: int, chargeCount: int, totalRounds: int, liveRounds: Option<int>, chargeRoll: nat, d: Draws)
    requires starter == 0 || starter == 1
    requires Live(totalRounds, liveRounds, d) <= Total(totalRounds, d)
    ensures var b := Fresh(starter, chargeCount, totalRounds, liveRounds, chargeRoll, d);
      InitSpec(starter, chargeCount, totalRounds, liveRounds, chargeRoll, d) == Ok(Deal(b, 2 + d.itemRoll % 4, d.picks).1)
  {
    StockedFresh(Fresh(starter, chargeCount, totalRounds, liveRounds, chargeRoll, d), 2 + d.itemRoll % 4, d.picks);
  }

  /** On two empty records `give_items` cannot raise. */
  lemma StockedFresh(b: Board, itemCount: int, picks: nat -> nat -> nat)
    requires BoardOk(b) && b.table.items == [Zero(NineKinds), Zero(NineKinds)]
    ensures Stocked(b, itemCount, picks) == Ok(Deal(b, itemCount, picks).1)
  {
    DealFresh(b, itemCount, picks);
  }

  /** A new board records its shell and live counts and its starter, who
      moves first; both players have all the charges, nothing is in effect,
      no skip is pending and the chamber is unknown. */
  lemma InitBoard(starter: int, chargeCount: int, totalRounds: int, liveRounds: Option<int>, chargeRoll: nat, d: Draws)
    requires starter == 0 || starter == 1
    requires InitSpec(starter, chargeCount, totalRounds, liveRounds, chargeRoll, d).Ok?
    ensures var b := InitSpec(starter, chargeCount, totalRounds, liveRounds, chargeRoll, d).value;
      && b.starter == starter && b.table.currentTurn == starter
      && b.total == Total(totalRounds, d) && b.live == Live(totalRounds, liveRounds, d) && b.live <= b.total
      && b.table.maxCharges == Game.Charges(chargeCount, chargeRoll)
      && b.table.charges == [b.table.maxCharges, b.table.maxCharges]
      && (forall k :: k in NineKinds ==> b.table.active[k] == 0.0)
      && !b.table.skipNext && b.table.chamberPublic == None
  {
  }

  /** Each player of a new board holds exactly 2 + itemRoll % 4 items. */
  lemma InitItems(starter: int, chargeCount: int, totalRounds: int, liveRounds: Option<int>, chargeRoll: nat, d: Draws)
    requires starter == 0 || starter == 1
    requires InitSpec(starter, chargeCount, totalRounds, liveRounds, chargeRoll, d).Ok?
    ensures var b := InitSpec(starter, chargeCount, totalRounds, liveRounds, chargeRoll, d).value;
      && ItemCount(b.table.items[0], NineKinds) == 2 + d.itemRoll % 4
      && ItemCount(b.table.items[1], NineKinds) == 2 + d.itemRoll % 4
  {
    InitRejects(starter, chargeCount, totalRounds, liveRounds, chargeRoll, d);
    InitOk(starter, chargeCount, totalRounds, liveRounds, chargeRoll, d);
    DealFresh(Fresh(starter, chargeCount, totalRounds, liveRounds, chargeRoll, d), 2 + d.itemRoll % 4, d.picks);
  }

  /** `new_rounds(drop_items)`: `randint(2, 8)` shells, half of them
      (rounded down) live; then, when dropping items,
      `give_items(randint(2, 5))`. */
  function NewRoundsSpec(b: Board, dropItems: bool, d: Draws): (r: (Result<()>, Board))
    requires BoardOk(b)
    ensures BoardOk(r.1)
  {
    MaybeDeal(Recounted(b, 2 + d.totalRoll % 7), dropItems, 2 + d.itemRoll % 4, d.picks)
  }

  /** The closing `if drop_items: self.give_items(item_count)`. */
  function MaybeDeal(b: Board, dropItems: bool, itemCount: int, picks: nat -> nat -> nat): (r: (Result<()>, Board))
    requires BoardOk(b)
    ensures BoardOk(r.1)
  {
    if dropItems then Deal(b, itemCount, picks) else (Ok(()), b)
  }

  /** The board recording `total` shells, half of them (rounded down) live. */
  function Recounted(b: Board, total: int): (r: Board)
    requires BoardOk(b)
    ensures BoardOk(r) && r.table == b.table && r.starter == b.starter
    ensures r.total == total && r.live == total / 2
  {
    b.(total := total, live := total / 2)
  }

  /** A new round has 2 to 8 shells, half of them (rounded down) live.  Only
      the counts and, when dropping, the records change; without dropping
      nothing can fail. */
  lemma NewRoundsCounts(b: Board, dropItems: bool, d: Draws)
    requires BoardOk(b)
    ensures var (r, b') := NewRoundsSpec(b, dropItems, d);
      && 2 <= b'.total <= 8 && b'.live == b'.total / 2 && b'.starter == b.starter
      && b'.table == b.table.(items := b'.table.items)
      && (!dropItems ==> r == Ok(()) && b'.table == b.table)
  {
  }

  /** The board with the table `t`. */
  function Under(b: Board, u: (Result<(Info, seq<bool>)>, Table)): (r: (Result<(Info, seq<bool>)>, Board))
    ensures r.0 == u.0 && r.1 == b.(table := u.1)
  {
    (u.0, b.(table := u.1))
  }

  /** `make_move` up to the reload: the adrenaline head and the move, with a
      string that names no move reporting "INVALID_MOVE". */
  function ApplySpec(b: Board, move: Move, shotgun: seq<bool>, pick: nat, coin: bool): (r: (Result<(Info, seq<bool>)>, Board))
    requires BoardOk(b)
    ensures BoardOk(r.1) && r.1.starter == b.starter && r.1.total == b.total && r.1.live == b.live
  {
    Under(b, Apply(b.table, move, shotgun, pick, coin, Invalid))
  }

  /** `make_move(move, shotgun, load_new)`: the move; then, when `load_new`
      is set and no shell is left, the turn goes back to the starter and
      `new_rounds()` draws the next counts; otherwise, unless the move was
      the inverter, `total` and `live` become the length and the live count
      of the shells left.  The result is what the move reports together
      with the shells left. */
  function MakeMoveSpec(b: Board, move: Move, shotgun: seq<bool>, loadNew: bool, pick: nat, coin: bool, d: Draws)
    : (r: (Result<(Info, seq<bool>)>, Board))
    requires BoardOk(b)
    ensures BoardOk(r.1)
  {
    var a := ApplySpec(b, move, shotgun, pick, coin);
    if a.0.Err? then a
    else
      var rest := a.0.value.1;
      if loadNew && rest == [] then
        var n := NewRoundsSpec(a.1.(table := a.1.table.(currentTurn := b.starter)), true, d);
        (if n.0.Err? then Err(n.0.error) else a.0, n.1)
      else if move != Use(Inverter) then (a.0, a.1.(total := |rest|, live := CountTrue(rest)))
      else a
  }

  /** A move that uses up the last shell with `load_new` set hands the turn
      to the starter and records 2 to 8 new shells, half of them live; the
      shells handed back are the empty list. */
  lemma MakeMoveReloads(b: Board, move: Move, shotgun: seq<bool>, pick: nat, coin: bool, d: Draws)
    requires BoardOk(b)
    requires var a := ApplySpec(b, move, shotgun, pick, coin); a.0.Ok? && a.0.value.1 == []
    ensures var (r, b') := MakeMoveSpec(b, move, shotgun, true, pick, coin, d);
      && b'.table.currentTurn == b.starter && b'.starter == b.starter
      && 2 <= b'.total <= 8 && b'.live == b'.total / 2
      && (r.Ok? ==> r.value.1 == [])
  {
    var a := ApplySpec(b, move, shotgun, pick, coin);
    NewRoundsCounts(a.1.(table := a.1.table.(currentTurn := b.starter)), true, d);
  }

  /** Without a reload, every move but the inverter leaves `total` and
      `live` equal to the length and the live count of the shells handed
      back; after the inverter they keep their old values, although the
      front shell has flipped. */
  lemma MakeMoveCounts(b: Board, move: Move, shotgun: seq<bool>, loadNew: bool, pick: nat, coin: bool, d: Draws)
    requires BoardOk(b)
    requires var a := ApplySpec(b, move, shotgun, pick, coin); a.0.Ok? && !(loadNew && a.0.value.1 == [])
    ensures var (r, b') := MakeMoveSpec(b, move, shotgun, loadNew, pick, coin, d);
      var a := ApplySpec(b, move, shotgun, pick, coin);
      && r == a.0 && b'.table == a.1.table && b'.starter == b.starter
      && (move != Use(Inverter) ==> b'.total == |r.value.1| && b'.live == CountTrue(r.value.1))
      && (move == Use(Inverter) ==> b'.total == b.total && b'.live == b.live)
  {
  }

  /** A string that names no move reports "INVALID_MOVE" and hands the
      shells back untouched; it still clears a pending adrenaline. */
  lemma MakeMoveInvalid(b: Board, move: Move, shotgun: seq<bool>, pick: nat, coin: bool)
    requires BoardOk(b) && (move == Unknown || (move.Use? && move.kind !in NineKinds))
    ensures var a := ApplySpec(b, move, shotgun, pick, coin);
      a.0 == Ok((Invalid, shotgun)) && a.1.table == Disarmed(b.table)
  {
  }

  /** 'self' reports the negated damage of the shot, 'op' the damage; both
      hand back the shells after the front one. */
  lemma MakeMoveShots(b: Board, shotgun: seq<bool>, pick: nat, coin: bool)
    requires BoardOk(b) && shotgun != []
    ensures var d := if !shotgun[0] then 0 else if b.table.active[Saw] > 0.0 then 2 else 1;
      && ApplySpec(b, ShootSelf, shotgun, pick, coin).0 == Ok((Num(-d), shotgun[1..]))
      && ApplySpec(b, ShootOpponent, shotgun, pick, coin).0 == Ok((Num(d), shotgun[1..]))
  {
    FireDamage(Disarmed(b.table), shotgun, false);
    FireDamage(Disarmed(b.table), shotgun, true);
  }

  /** What `__eq__` compares: every field but the starter. */
  function Compared(b: Board): (Table, int, int) {
    (b.table, b.total, b.live)
  }

  /** Two boards that differ only in their starter are equal by `__eq__`,
      and boards that differ in any other field are not. */
  lemma ComparedIgnoresStarter(b: Board, c: Board)
    ensures Compared(b) == Compared(c) <==> b.(starter := c.starter) == c
  {
  }

  /** `BuckshotRoulette`, the board of buckshot_roulette/singleplayer/game.py. */
  class BuckshotRoulette {
    var maxCharges: int
    var charges: seq<int>
    var starter: int
    var currentTurn: int
    var total: int
    var live: int
    var items: seq<Counts>
    var active: Active
    var skipNext: bool
    var chamberPublic: Option<bool>

    /** The board's fields as a value. */
    function Snap(): Board
      reads this
    {
      Board(Table(maxCharges, charges, currentTurn, items, active, skipNext, chamberPublic), starter, total, live)
    }

    predicate Valid()
      reads this
    {
      BoardOk(Snap())
    }

    /** `__init__` once the charge count and the shell counts are drawn and
        checked, up to its closing `give_items`: the table of a new board. */
    constructor (maxCharges: int, starter: int, total: int, live: int)
      requires starter == 0 || starter == 1
      ensures Snap() == Board(StartTable(maxCharges, starter), starter, total, live)
      ensures Valid()
    {
      this.maxCharges := maxCharges;
      charges := [maxCharges, maxCharges];
      this.starter := starter;
      currentTurn := starter;
      this.total := total;
      this.live := live;
      items := [Zero(NineKinds), Zero(NineKinds)];
      active := NoneActive(NineKinds);
      skipNext := false;
      chamberPublic := None;
    }

    /** `new_rounds(drop_items)`. */
    method NewRounds(dropItems: bool, d: Draws) returns (r: Result<()>)
      requires Valid()
      modifies this
      ensures (r, Snap()) == NewRoundsSpec(old(Snap()), dropItems, d)
      ensures Valid()
    {
      Recount(2 + d.totalRoll % 7);
      r := MaybeGive(dropItems, 2 + d.itemRoll % 4, d.picks);
    }

    /** The closing `if drop_items: self.give_items(item_count)`. */
    method MaybeGive(dropItems: bool, itemCount: int, picks: nat -> nat -> nat) returns (r: Result<()>)
      requires Valid()
      modifies this
      ensures (r, Snap()) == MaybeDeal(old(Snap()), dropItems, itemCount, picks)
      ensures Valid()
    {
      r := Ok(());
      if dropItems {
        r := GiveItems(itemCount, picks);
      }
    }

    /** The shell counts of a new round. */
    method Recount(n: int)
      requires Valid()
      modifies this
      ensures Snap() == Recounted(old(Snap()), n) && Valid()
    {
      total := n;
      live := n / 2;
    }

    /** `give_items(item_count)`. */
    method GiveItems(itemCount: int, picks: nat -> nat -> nat) returns (r: Result<()>)
      requires Valid()
      modifies this
      ensures (r, Snap()) == Deal(old(Snap()), itemCount, picks)
      ensures Valid()
    {
      r, items := GiveAll(maxCharges, items, itemCount, picks);
    }

    /** `winner()`. */
    method Winner() returns (r: Option<nat>)
      requires Valid()
      ensures r == Duel.Winner(charges)
    {
      if charges[0] < 1 {
        return Some(1);
      } else if charges[1] < 1 {
        return Some(0);
      }
      return None;
    }

    /** `switch_turn()`. */
    method SwitchTurn()
      modifies this
      ensures Snap() == old(Snap()).(table := old(Snap()).table.(currentTurn := Opponent(old(currentTurn))))
    {
      currentTurn := if currentTurn == 0 then 1 else 0;
    }

    /** `fire(shotgun, at_opponent)`: the damage and the shells after the
        front one. */
    method Fire(shotgun: seq<bool>, atOpponent: bool) returns (r: Result<(int, seq<bool>)>)
      requires Valid()
      modifies this
      ensures (r, Snap().table) == Duel.Fire(old(Snap()).table, shotgun, atOpponent)
      ensures Snap() == old(Snap()).(table := Snap().table)
      ensures Valid()
    {
      ghost var t := old(Snap()).table;
      var target := (currentTurn + (if atOpponent then 1 else 0)) % 2;
      if shotgun == [] {
        return Err(IndexError);
      }
      var isHit := shotgun[0];
      var rest := shotgun[1..];
      chamberPublic := None;
      assert target == Target(t, atOpponent) && Snap().table == t.(chamberPublic := None);
      if isHit {
        var damage := Hit(target);
        Switch(atOpponent, isHit);
        r := Ok((damage, rest));
      } else if atOpponent {
        Switch(atOpponent, isHit);
        r := Ok((0, rest));
      } else {
        r := Ok((0, rest));
      }
      assert Duel.Fire(t, shotgun, atOpponent) == (r, Snap().table);
    }

    /** A live shell in `fire`. */
    method Hit(target: nat) returns (damage: int)
      requires Shaped(Snap().table) && target < 2
      modifies this
      ensures var h := Hurt(old(Snap()).table, target);
        damage == h.0 && Snap() == old(Snap()).(table := h.1)
    {
      damage := 1;
      if active[Saw] > 0.0 {
        active := active[Saw := 0.0];
        damage := 2;
      }
      charges := charges[target := charges[target] - damage];
    }

    /** The inner `switch()` of `fire`. */
    method Switch(atOpponent: bool, isHit: bool)
      requires Shaped(Snap().table)
      modifies this
      ensures Snap() == old(Snap()).(table := Duel.Switch(old(Snap()).table, atOpponent, isHit))
    {
      active := active[Saw := 0.0];
      if active[Handcuffs] > 0.5 {
        if !atOpponent && !isHit {
          return;
        }
        active := active[Handcuffs := active[Handcuffs] - 0.5];
        skipNext := true;
      }
      if skipNext {
        skipNext := false;
      } else {
        SwitchTurn();
      }
    }

    /** `legal_items()`. */
    method LegalItems() returns (r: seq<Kind>)
      requires Valid()
      ensures r == Duel.LegalItems(NineKinds, active)
    {
      r := ListLegal(NineKinds, active);
    }

    /** `moves()`: with nothing to list under adrenaline, the adrenaline is
        cleared and the list made again. */
    method Moves() returns (r: seq<Move>)
      requires Valid()
      modifies this
      ensures (r, Snap().table) == Duel.Moves(old(Snap()).table)
      ensures Snap() == old(Snap()).(table := Snap().table)
      ensures Valid()
      decreases if active[Adrenaline] > 0.0 then 1 else 0
    {
      if active[Adrenaline] > 0.0 {
        r := ListItems(NineKinds, items[Opponent(currentTurn)], active);
        if |r| == 0 {
          active := active[Adrenaline := 0.0];
          r := Moves();
        }
      } else {
        var listed := ListItems(NineKinds, items[currentTurn], active);
        r := [ShootOpponent, ShootSelf] + listed;
      }
    }

    /** `make_move(move, shotgun, load_new)`; `pick` is the burner phone's
        draw, `coin` the meds' `random.random() > 0.5`, d the draws of a
        reload. */
    method MakeMove(move: Move, shotgun: seq<bool>, loadNew: bool, pick: nat, coin: bool, d: Draws)
      returns (r: Result<(Info, seq<bool>)>)
      requires Valid()
      modifies this
      ensures (r, Snap()) == MakeMoveSpec(old(Snap()), move, shotgun, loadNew, pick, coin, d)
      ensures Valid()
    {
      r := ApplyMove(move, shotgun, pick, coin);
      if r.Err? {
        return;
      }
      var rest := r.value.1;
      if loadNew && |rest| == 0 {
        ghost var a := Snap();
        currentTurn := starter;
        assert Snap() == a.(table := a.table.(currentTurn := a.starter));
        var n := NewRounds(true, d);
        if n.Err? {
          r := Err(n.error);
        }
        return;
      }
      if move != Use(Inverter) {
        total := |rest|;
        live := CountTrue(rest);
      }
    }

    /** `make_move` up to the reload: the adrenaline head, then the move. */
    method ApplyMove(move: Move, shotgun: seq<bool>, pick: nat, coin: bool) returns (r: Result<(Info, seq<bool>)>)
      requires Valid()
      modifies this
      ensures (r, Snap()) == ApplySpec(old(Snap()), move, shotgun, pick, coin)
      ensures Valid()
    {
      var o := currentTurn;
      if active[Adrenaline] > 0.0 {
        o := Opponent(currentTurn);
        active := active[Adrenaline := 0.0];
      }
      assert o == Taker(old(Snap()).table) && Snap() == old(Snap()).(table := Disarmed(old(Snap()).table));
      match move {
        case ShootOpponent =>
          var f := Fire(shotgun, true);
          r := if f.Ok? then Ok((Num(f.value.0), f.value.1)) else Err(f.error);
        case ShootSelf =>
          var f := Fire(shotgun, false);
          r := if f.Ok? then Ok((Num(-f.value.0), f.value.1)) else Err(f.error);
        case Use(k) =>
          if k in NineKinds {
            r := UseItem(o, k, shotgun, pick, coin);
          } else {
            r := Ok((Invalid, shotgun));
          }
        case Unknown =>
          r := Ok((Invalid, shotgun));
      }
    }

    /** `items.<kind> -= 1` on record o. */
    method SpendItem(o: nat, k: Kind)
      requires Valid() && o < 2 && k in NineKinds
      modifies this
      ensures Snap() == old(Snap()).(table := Spend(old(Snap()).table, o, k))
      ensures Valid()
    {
      NineKindsDistinct();
      SpendOne(NineKinds, old(Snap()).table, o, k);
      items := items[o := items[o][k := items[o][k] - 1]];
    }

    /** An item move spending from record o. */
    method UseItem(o: nat, k: Kind, shotgun: seq<bool>, pick: nat, coin: bool) returns (r: Result<(Info, seq<bool>)>)
      requires Valid() && o < 2 && k in NineKinds
      modifies this
      ensures (r, Snap()) == Under(old(Snap()), Duel.UseItem(NineKinds, old(Snap()).table, o, k, shotgun, pick, coin))
      ensures Valid()
    {
      SpendItem(o, k);
      if k in {Handcuffs, MagnifyingGlass, Beer, Cigarettes, Saw} {
        r := UseEarly(k, shotgun);
      } else {
        r := UseLater(k, shotgun, pick, coin);
      }
    }

    /** The effects of the first five kinds of that `match`, once spent. */
    method UseEarly(k: Kind, shotgun: seq<bool>) returns (r: Result<(Info, seq<bool>)>)
      requires Valid() && k in {Handcuffs, MagnifyingGlass, Beer, Cigarettes, Saw}
      modifies this
      ensures (r, Snap()) == Under(old(Snap()), Effect(NineKinds, old(Snap()).table, k, shotgun, 0, false))
      ensures Valid()
    {
      r := Ok((Nothing, shotgun));
      match k {
        case Handcuffs =>
          active := active[Handcuffs := active[Handcuffs] + 1.0];
          skipNext := true;
        case MagnifyingGlass =>
          if shotgun == [] {
            return Err(IndexError);
          }
          r := Ok((Shell(shotgun[0]), shotgun));
          chamberPublic := Some(shotgun[0]);
        case Beer =>
          if |shotgun| > 1 {
            r := Ok((Shell(shotgun[0]), shotgun[1..]));
          } else {
            r := Ok((Nothing, []));
          }
        case Cigarettes =>
          charges := charges[currentTurn := Min(charges[currentTurn] + 1, maxCharges)];
        case Saw =>
          active := active[Saw := active[Saw] + 1.0];
      }
    }

    /** The effects of the other kinds of that `match`, once spent. */
    method UseLater(k: Kind, shotgun: seq<bool>, pick: nat, coin: bool) returns (r: Result<(Info, seq<bool>)>)
      requires Valid() && k in NineKinds && k !in {Handcuffs, MagnifyingGlass, Beer, Cigarettes, Saw}
      modifies this
      ensures (r, Snap()) == Under(old(Snap()), Effect(NineKinds, old(Snap()).table, k, shotgun, pick, coin))
      ensures Valid()
    {
      r := Ok((Nothing, shotgun));
      match k {
        case Inverter =>
          if shotgun == [] {
            return Err(IndexError);
          }
          r := Ok((Nothing, shotgun[0 := !shotgun[0]]));
        case BurnerPhone =>
          if |shotgun| > 1 {
            var idx := 1 + pick % (|shotgun| - 1);
            r := Ok((Peek(idx, shotgun[idx]), shotgun));
          }
        case Meds =>
          if coin {
            charges := charges[currentTurn := Min(charges[currentTurn] + 2, maxCharges)];
          } else {
            charges := charges[currentTurn := charges[currentTurn] - 1];
          }
        case Adrenaline =>
          active := active[Adrenaline := active[Adrenaline] + 1.0];
        case _ =>
      }
    }

    /** `copy()`: a new board into which every field is copied, so the
        values it drew for itself are all overwritten. */
    method Copy(chargeRoll: nat) returns (c: BuckshotRoulette)
      requires Valid()
      ensures fresh(c) && c.Snap() == Snap()
      ensures c.Valid()
    {
      c := new BuckshotRoulette(Game.Charges(0, chargeRoll), 0, 0, 0);
      c.Overwrite(maxCharges, charges, starter, currentTurn, total, live, items, active, skipNext, chamberPublic);
    }

    /** The field-by-field assignments of `copy()`, on the new board. */
    method Overwrite(maxCharges: int, charges: seq<int>, starter: int, currentTurn: int, total: int, live: int,
                     items: seq<Counts>, active: Active, skipNext: bool, chamberPublic: Option<bool>)
      modifies this
      ensures Snap() == Board(Table(maxCharges, charges, currentTurn, items, active, skipNext, chamberPublic), starter, total, live)
    {
      this.maxCharges := maxCharges;
      this.charges := charges;
      this.starter := starter;
      this.currentTurn := currentTurn;
      this.total := total;
      this.live := live;
      this.items := items;
      this.active := active;
      this.skipNext := skipNext;
      this.chamberPublic := chamberPublic;
    }

    /** `__eq__`: every field but the starter. */
    method Equals(other: BuckshotRoulette) returns (r: bool)
      ensures r <==> Compared(Snap()) == Compared(other.Snap())
    {
      r := maxCharges == other.maxCharges && charges == other.charges && currentTurn == other.currentTurn
        && total == other.total && live == other.live && items == other.items && active == other.active
        && skipNext == other.skipNext && chamberPublic == other.chamberPublic;
    }
  }

  /** `BuckshotRoulette(starter, charge_count, total_rounds, live_rounds)`. */
  method New(starter: int, chargeCount: int, totalRounds: int, liveRounds: Option<int>, chargeRoll: nat, d: Draws)
    returns (r: Result<BuckshotRoulette>)
    requires starter == 0 || starter == 1
    ensures r.Err? ==> InitSpec(starter, chargeCount, totalRounds, liveRounds, chargeRoll, d) == Err(r.error)
    ensures r.Ok? ==> fresh(r.value) && r.value.Valid()
    ensures r.Ok? ==> InitSpec(starter, chargeCount, totalRounds, liveRounds, chargeRoll, d) == Ok(r.value.Snap())
  {
    var maxCharges := Game.Charges(chargeCount, chargeRoll);
    var total := Total(totalRounds, d);
    var live := Live(totalRounds, liveRounds, d);
    if live > total {
      return Err(ValueError);
    }
    var b := new BuckshotRoulette(maxCharges, starter, total, live);
    var given := b.GiveItems(2 + d.itemRoll % 4, d.picks);
    InitOk(starter, chargeCount, totalRounds, liveRounds, chargeRoll, d);
    return Ok(b);
  }
}
