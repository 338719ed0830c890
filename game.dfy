/** buckshot_roulette/game.py: the two-player board that keeps its own
    shells in the `_shotgun` field.

    `Board` is the board's state as a value (the fields every two-player
    board has, plus `_shotgun`); the functions below say what each method
    of the Python class does to it, and the class `BuckshotRoulette` at the
    end updates its fields step by step as the Python code does, each
    method proved to follow its function.  The random draws are
    parameters: `Draws` gathers those of loading a new round. */
module Game {
  import opened Common
  import opened Inventory
  import opened Shells
  import opened Duel

  datatype Board = Board(table: Table, shotgun: seq<bool>)

  predicate BoardOk(b: Board) {
    TableOk(NineKinds, b.table)
  }

  /** The draws of loading a round: `randint(2, 8)` shells is
      2 + totalRoll % 7, `shuffle` gives arrangement `pick`,
      `give_items(randint(2, 5))` deals 2 + itemRoll % 4 items, and
      picks(p) are player p's `random.choices` draws. */
  datatype Draws = Draws(totalRoll: nat, pick: nat, itemRoll: nat, picks: nat -> nat -> nat)

  /** `[True] * n`. */
  function Lives(n: int): (r: seq<bool>)
    ensures |r| == Max(0, n)
    decreases n
  {
    if n <= 0 then [] else [true] + Lives(n - 1)
  }

  /** `[True] * n` holds only live shells. */
  lemma {:induction false} LivesCount(n: int)
    ensures CountTrue(Lives(n)) == Max(0, n)
    decreases n
  {
    if n > 0 {
      LivesCount(n - 1);
      assert Lives(n)[1..] == Lives(n - 1);
    }
  }

  /** The shells `__init__` loads before shuffling:
      `[True] * live + [False * (total - live)]`.  The last part multiplies
      `False` rather than the list, so it is the one-element list `[0]`: a
      single blank, whatever `total` is. */
  function Loaded(live: int): (r: seq<bool>)
  {
    Lives(live) + [false]
  }

  /** The initial load holds max(live, 0) live shells and exactly one blank. */
  lemma LoadedCount(live: int)
    ensures |Loaded(live)| == Max(0, live) + 1
    ensures CountTrue(Loaded(live)) == Max(0, live)
  {
    LivesCount(live);
    CountTrueAppend(Lives(live), [false]);
    assert CountTrue([false]) == 0;
  }

  /** The table of a board just built, before any item is given: both
      players at full charge, player 0 to move, empty records, nothing in
      effect, no skip pending, the chamber unknown. */
  function NewTable(maxCharges: int): (r: Table)
    ensures TableOk(NineKinds, r) && BothCover(r.items)
  {
    Table(maxCharges, [maxCharges, maxCharges], 0, [Zero(NineKinds), Zero(NineKinds)],
          NoneActive(NineKinds), false, None)
  }

  /** The table with the records `xs`. */
  function Restocked(t: Table, xs: seq<Counts>): (r: Table)
    requires TableOk(NineKinds, t) && BothCover(xs)
    ensures TableOk(NineKinds, r)
  {
    t.(items := xs)
  }

  /** The shells of a new board: the initial load, shuffled into
      arrangement `pick`. */
  function LoadShells(live: int, pick: nat): (r: seq<bool>)
    ensures |r| == Max(0, live) + 1 && CountTrue(r) == Max(0, live)
  {
    LoadedCount(live);
    var loaded := Loaded(live);
    Shuffled(CountTrue(loaded), |loaded|, pick)
  }

  /** `give_items(item_count)` on a board: only the records change. */
  function Deal(b: Board, itemCount: int, picks: nat -> nat -> nat): (r: (Result<()>, Board))
    requires BoardOk(b)
    ensures BoardOk(r.1) && r.1.shotgun == b.shotgun && r.1.table == b.table.(items := r.1.table.items)
  {
    var g := GiveItems(b.table.maxCharges, b.table.items, itemCount, picks);
    (g.0, Board(Restocked(b.table, g.1), b.shotgun))
  }

  /** Each player gains only what `Gained` allows from `give_items`. */
  lemma DealGains(b: Board, itemCount: int, picks: nat -> nat -> nat)
    requires BoardOk(b)
    ensures var after := Deal(b, itemCount, picks).1.table.items;
      && Gained(b.table.maxCharges, itemCount, b.table.items[0], after[0])
      && Gained(b.table.maxCharges, itemCount, b.table.items[1], after[1])
  {
    var g := Duel.GiveItems(b.table.maxCharges, b.table.items, itemCount, picks).1;
    GiveItemsEffect(b.table.maxCharges, b.table.items, itemCount, picks);
    assert Deal(b, itemCount, picks).1.table.items == g;
  }

  /** On two empty records `give_items` never raises and deals each player
      exactly min(item_count, 8) items, none for a count below 1. */
  lemma DealFresh(b: Board, itemCount: int, picks: nat -> nat -> nat)
    requires BoardOk(b) && b.table.items == [Zero(NineKinds), Zero(NineKinds)]
    ensures var (r, b') := Deal(b, itemCount, picks);
      && r == Ok(())
      && ItemCount(b'.table.items[0], NineKinds) == Max(0, Min(itemCount, MaxHeld))
      && ItemCount(b'.table.items[1], NineKinds) == Max(0, Min(itemCount, MaxHeld))
  {
    GiveFresh(b.table.maxCharges, itemCount, picks);
  }

  /** The charge count of a new board: `charge_count`, or `randint(2, 4)`
      (2 + chargeRoll % 3) when it is 0 or None. */
  function Charges(chargeCount: int, chargeRoll: nat): (r: int)
    ensures chargeCount == 0 ==> 2 <= r <= 4
    ensures chargeCount != 0 ==> r == chargeCount
  {
    if chargeCount != 0 then chargeCount else 2 + chargeRoll % 3
  }

  /** The live count of a new board: `live_rounds`, or half the round count
      (`total_rounds`, or `randint(2, 8)` when it is 0 or None). */
  function LiveOf(totalRounds: int, liveRounds: Option<int>, d: Draws): int {
    var total := if totalRounds != 0 then totalRounds else 2 + d.totalRoll % 7;
    if liveRounds.None? then total / 2 else liveRounds.value
  }

  /** `__init__(charge_count, total_rounds, live_rounds)`.  A zero charge
      count or round count (Python's falsy 0 or None) is drawn; more live
      shells than shells raises ValueError. */
  function InitSpec(chargeCount: int, totalRounds: int, liveRounds: Option<int>, chargeRoll: nat, d: Draws)
    : (r: Result<Board>)
    ensures r.Ok? ==> BoardOk(r.value)
  {
    var total := if totalRounds != 0 then totalRounds else 2 + d.totalRoll % 7;
    var live := LiveOf(totalRounds, liveRounds, d);
    if live > total then Err(ValueError)
    else Stocked(Fresh(chargeCount, totalRounds, liveRounds, chargeRoll, d), 2 + d.itemRoll % 4, d.picks)
  }

  /** The board `__init__` builds before `give_items`: full charges, the
      loaded shells, and two empty records. */
  function Fresh(chargeCount: int, totalRounds: int, liveRounds: Option<int>, chargeRoll: nat, d: Draws): (r: Board)
    ensures BoardOk(r) && r.table.items == [Zero(NineKinds), Zero(NineKinds)]
  {
    Board(NewTable(Charges(chargeCount, chargeRoll)), LoadShells(LiveOf(totalRounds, liveRounds, d), d.pick))
  }

  /** The board `__init__` returns once `give_items` has run, unless that
      raises. */
  function Stocked(b: Board, itemCount: int, picks: nat -> nat -> nat): (r: Result<Board>)
    requires BoardOk(b)
    ensures r.Ok? ==> BoardOk(r.value)
  {
    var g := Deal(b, itemCount, picks);
    if g.0.Err? then Err(g.0.error) else Ok(g.1)
  }

  /** On two empty records `give_items` cannot raise. */
  lemma StockedFresh(b: Board, itemCount: int, picks: nat -> nat -> nat)
    requires BoardOk(b) && b.table.items == [Zero(NineKinds), Zero(NineKinds)]
    ensures Stocked(b, itemCount, picks) == Ok(Deal(b, itemCount, picks).1)
  {
    DealFresh(b, itemCount, picks);
  }

  /** A new board exists exactly when there are no more live shells than
      shells; otherwise `__init__` raises ValueError. */
  lemma InitRejects(chargeCount: int, totalRounds: int, liveRounds: Option<int>, chargeRoll: nat, d: Draws)
    ensures var r := InitSpec(chargeCount, totalRounds, liveRounds, chargeRoll, d);
      var total := if totalRounds != 0 then totalRounds else 2 + d.totalRoll % 7;
      && (r.Ok? <==> LiveOf(totalRounds, liveRounds, d) <= total)
      && (r.Err? ==> r.error == ValueError)
  {
    if LiveOf(totalRounds, liveRounds, d) <= (if totalRounds != 0 then totalRounds else 2 + d.totalRoll % 7) {
      InitOk(chargeCount, totalRounds, liveRounds, chargeRoll, d);
    }
  }

  /** When no more shells are live than exist, `__init__` builds the new
      table, deals both players their items and loads the shells. */
  lemma InitOk(chargeCount: int, totalRounds: int, liveRounds: Option<int>, chargeRoll: nat, d: Draws)
    requires LiveOf(totalRounds, liveRounds, d) <= (if totalRounds != 0 then totalRounds else 2 + d.totalRoll % 7)
    ensures var b := Fresh(chargeCount, totalRounds, liveRounds, chargeRoll, d);
      InitSpec(chargeCount, totalRounds, liveRounds, chargeRoll, d) == Ok(Deal(b, 2 + d.itemRoll % 4, d.picks).1)
  {
    StockedFresh(Fresh(chargeCount, totalRounds, liveRounds, chargeRoll, d), 2 + d.itemRoll % 4, d.picks);
  }

  /** A new board's shells are its live ones and one blank, in some order;
      both players have all the charges; player 0 moves, nothing is in
      effect, and each player holds exactly 2 + itemRoll % 4 items. */
  lemma InitBoard(chargeCount: int, totalRounds: int, liveRounds: Option<int>, chargeRoll: nat, d: Draws)
    requires InitSpec(chargeCount, totalRounds, liveRounds, chargeRoll, d).Ok?
    ensures var b := InitSpec(chargeCount, totalRounds, liveRounds, chargeRoll, d).value;
      var live := LiveOf(totalRounds, liveRounds, d);
      && |b.shotgun| == Max(0, live) + 1 && CountTrue(b.shotgun) == Max(0, live)
      && b.table.maxCharges == Charges(chargeCount, chargeRoll)
      && b.table.charges == [b.table.maxCharges, b.table.maxCharges] && b.table.currentTurn == 0
      && (forall k :: k in NineKinds ==> b.table.active[k] == 0.0)
      && !b.table.skipNext && b.table.chamberPublic == None
  {
  }

  /** Each player of a new board holds exactly 2 + itemRoll % 4 items. */
  lemma InitItems(chargeCount: int, totalRounds: int, liveRounds: Option<int>, chargeRoll: nat, d: Draws)
    requires InitSpec(chargeCount, totalRounds, liveRounds, chargeRoll, d).Ok?
    ensures var b := InitSpec(chargeCount, totalRounds, liveRounds, chargeRoll, d).value;
      && ItemCount(b.table.items[0], NineKinds) == 2 + d.itemRoll % 4
      && ItemCount(b.table.items[1], NineKinds) == 2 + d.itemRoll % 4
  {
    InitRejects(chargeCount, totalRounds, liveRounds, chargeRoll, d);
    InitOk(chargeCount, totalRounds, liveRounds, chargeRoll, d);
    DealFresh(Fresh(chargeCount, totalRounds, liveRounds, chargeRoll, d), 2 + d.itemRoll % 4, d.picks);
  }

  /** `new_rounds(drop_items)`: `randint(2, 8)` shells, half of them
      (rounded down) live, in shuffled order; then, when dropping items,
      `give_items(randint(2, 5))`. */
  function NewRoundsSpec(b: Board, dropItems: bool, d: Draws): (r: (Result<()>, Board))
    requires BoardOk(b)
    ensures BoardOk(r.1)
  {
    var total := 2 + d.totalRoll % 7;
    MaybeDeal(b.(shotgun := Shuffled(total / 2, total, d.pick)), dropItems, 2 + d.itemRoll % 4, d.picks)
  }

  /** The closing `if drop_items: self.give_items(item_count)`. */
  function MaybeDeal(b: Board, dropItems: bool, itemCount: int, picks: nat -> nat -> nat): (r: (Result<()>, Board))
    requires BoardOk(b)
    ensures BoardOk(r.1)
  {
    if dropItems then Deal(b, itemCount, picks) else (Ok(()), b)
  }

  /** A new round has 2 to 8 shells, half of them (rounded down) live.  Only
      the shells and, when dropping, the records change; without dropping
      nothing can fail. */
  lemma NewRoundsShells(b: Board, dropItems: bool, d: Draws)
    requires BoardOk(b)
    ensures var (r, b') := NewRoundsSpec(b, dropItems, d);
      && 2 <= |b'.shotgun| <= 8 && CountTrue(b'.shotgun) == |b'.shotgun| / 2
      && b'.table == b.table.(items := b'.table.items)
      && (!dropItems ==> r == Ok(()) && b'.table == b.table)
  {
  }

  /** `fire(at_opponent)` on the board: the damage, and the board after it. */
  function FireSpec(b: Board, atOpponent: bool): (r: (Result<int>, Board))
    requires BoardOk(b)
    ensures BoardOk(r.1)
  {
    var f := Fire(b.table, b.shotgun, atOpponent);
    if f.0.Err? then (Err(f.0.error), b.(table := f.1))
    else (Ok(f.0.value.0), Board(f.1, f.0.value.1))
  }

  /** What `make_move` reports and the board it leaves, from a move's
      outcome `u` on the shells `shotgun`: an exception leaves the shells. */
  function After(u: (Result<(Info, seq<bool>)>, Table), shotgun: seq<bool>): (r: (Result<Info>, Board))
    ensures r.0.Ok? == u.0.Ok? && r.1.table == u.1
  {
    (if u.0.Ok? then Ok(u.0.value.0) else Err(u.0.error), Board(u.1, if u.0.Ok? then u.0.value.1 else shotgun))
  }

  /** `make_move` up to the reload: the value reported and the board.  An
      exception leaves the shells as they were. */
  function ApplySpec(b: Board, move: Move, pick: nat, coin: bool): (r: (Result<Info>, Board))
    requires BoardOk(b)
    ensures BoardOk(r.1)
  {
    After(Apply(b.table, move, b.shotgun, pick, coin, Nothing), b.shotgun)
  }

  /** `make_move(move, load_new)`: the move, then, when `load_new` is set
      and no shell is left, the turn goes back to player 0 and
      `new_rounds()` loads the next round. */
  function MakeMoveSpec(b: Board, move: Move, loadNew: bool, pick: nat, coin: bool, d: Draws)
    : (r: (Result<Info>, Board))
    requires BoardOk(b)
    ensures BoardOk(r.1)
  {
    var a := ApplySpec(b, move, pick, coin);
    if a.0.Ok? && loadNew && a.1.shotgun == [] then
      var n := NewRoundsSpec(a.1.(table := a.1.table.(currentTurn := 0)), true, d);
      (if n.0.Err? then Err(n.0.error) else a.0, n.1)
    else a
  }

  /** A move that empties the shotgun with `load_new` set hands the turn to
      player 0 and loads 2 to 8 fresh shells, half of them live; without
      `load_new` the board stays empty. */
  lemma MakeMoveReloads(b: Board, move: Move, loadNew: bool, pick: nat, coin: bool, d: Draws)
    requires BoardOk(b)
    requires var a := ApplySpec(b, move, pick, coin); a.0.Ok? && a.1.shotgun == []
    ensures var b' := MakeMoveSpec(b, move, loadNew, pick, coin, d).1;
      && (loadNew ==> b'.table.currentTurn == 0 && 2 <= |b'.shotgun| <= 8 && CountTrue(b'.shotgun) == |b'.shotgun| / 2)
      && (!loadNew ==> b'.shotgun == [])
  {
    if loadNew {
      var a := ApplySpec(b, move, pick, coin);
      NewRoundsShells(a.1.(table := a.1.table.(currentTurn := 0)), true, d);
    }
  }

  /** 'self' reports the negated damage of the shot, 'op' the damage. */
  lemma MakeMoveShots(b: Board, pick: nat, coin: bool)
    requires BoardOk(b) && b.shotgun != []
    ensures var d := if !b.shotgun[0] then 0 else if b.table.active[Saw] > 0.0 then 2 else 1;
      && ApplySpec(b, ShootSelf, pick, coin).0 == Ok(Num(-d))
      && ApplySpec(b, ShootOpponent, pick, coin).0 == Ok(Num(d))
  {
    FireDamage(Disarmed(b.table), b.shotgun, false);
    FireDamage(Disarmed(b.table), b.shotgun, true);
  }

  /** `shotgun_info()`: the number of live shells and the number of shells. */
  function ShotgunInfoSpec(b: Board): (r: (nat, nat))
    ensures r.0 <= r.1 == |b.shotgun|
    ensures r.0 == 0 <==> forall i :: 0 <= i < |b.shotgun| ==> !b.shotgun[i]
  {
    NoLive(b.shotgun);
    (CountTrue(b.shotgun), |b.shotgun|)
  }

  /** A shell list has no live shell exactly when its live count is 0. */
  lemma {:induction false} NoLive(s: seq<bool>)
    ensures CountTrue(s) == 0 <==> forall i :: 0 <= i < |s| ==> !s[i]
  {
    if s != [] {
      NoLive(s[1..]);
      assert forall i :: 1 <= i < |s| ==> s[i] == s[1..][i - 1];
    }
  }

  /** `copy()`: a board made with `charge_count=0`, so with a freshly drawn
      `max_charges` (2 + chargeRoll % 3), into which charges, turn, shells,
      records and effects are copied; `_skip_next` and `chamber_public`
      keep the new board's False and None. */
  function CopySpec(b: Board, chargeRoll: nat): (r: Board)
    requires BoardOk(b)
    ensures BoardOk(r)
  {
    Board(b.table.(maxCharges := Charges(0, chargeRoll), skipNext := false, chamberPublic := None), b.shotgun)
  }

  /** The copy keeps charges, turn, shells, records and effects, and has
      `max_charges` in 2..4.  It equals the original (`__eq__`) exactly when
      the drawn `max_charges` happens to match and the original has no
      pending skip and no public chamber. */
  lemma CopyEquals(b: Board, chargeRoll: nat)
    requires BoardOk(b)
    ensures var c := CopySpec(b, chargeRoll);
      && c.shotgun == b.shotgun && c.table.charges == b.table.charges
      && c.table.currentTurn == b.table.currentTurn
      && c.table.items == b.table.items && c.table.active == b.table.active
      && 2 <= c.table.maxCharges <= 4
      && (c == b <==> b.table.maxCharges == Charges(0, chargeRoll) && !b.table.skipNext && b.table.chamberPublic == None)
  {
  }


  /** `BuckshotRoulette`, the board of buckshot_roulette/game.py. */
  class BuckshotRoulette {
    var maxCharges: int
    var charges: seq<int>
    var currentTurn: int
    var shotgun: seq<bool>
    var items: seq<Counts>
    var active: Active
    var skipNext: bool
    var chamberPublic: Option<bool>

    /** The board's fields as a value. */
    function Snap(): Board
      reads this
    {
      Board(Table(maxCharges, charges, currentTurn, items, active, skipNext, chamberPublic), shotgun)
    }

    predicate Valid()
      reads this
    {
      BoardOk(Snap())
    }

    /** `__init__` once the charge count and the shells are drawn, up to
        its closing `give_items`: the table of a new board. */
    constructor (maxCharges: int, shotgun: seq<bool>)
      ensures Snap() == Board(NewTable(maxCharges), shotgun)
      ensures Valid() && this.maxCharges == maxCharges && !skipNext && chamberPublic == None
    {
      this.maxCharges := maxCharges;
      charges := [maxCharges, maxCharges];
      currentTurn := 0;
      this.shotgun := shotgun;
      items := [Zero(NineKinds), Zero(NineKinds)];
      active := NoneActive(NineKinds);
      skipNext := false;
      chamberPublic := None;
    }

    /** `new_rounds(drop_items)`. */
    method NewRounds(dropItems: bool, d: Draws) returns (r: Result<()>)
      requires Valid()
      modifies this
      ensures (r, Snap()) == NewRoundsSpec(old(Snap()), dropItems, d)
      ensures Valid()
    {
      Reload(2 + d.totalRoll % 7, d.pick);
      r := MaybeGive(dropItems, 2 + d.itemRoll % 4, d.picks);
    }

    /** A new shotgun of `total` shells, half of them (rounded down) live. */
    method Reload(total: nat, pick: nat)
      requires Valid()
      modifies this
      ensures Snap() == old(Snap()).(shotgun := Shuffled(total / 2, total, pick)) && Valid()
    {
      var live := total / 2;
      shotgun := Shuffled(live, total, pick);
    }

    /** The closing `if drop_items: self.give_items(item_count)`. */
    method MaybeGive(dropItems: bool, itemCount: int, picks: nat -> nat -> nat) returns (r: Result<()>)
      requires Valid()
      modifies this
      ensures (r, Snap()) == MaybeDeal(old(Snap()), dropItems, itemCount, picks)
      ensures Valid()
    {
      r := Ok(());
      if dropItems {
        r := GiveItems(itemCount, picks);
      }
    }

    /** `give_items(item_count)`. */
    method GiveItems(itemCount: int, picks: nat -> nat -> nat) returns (r: Result<()>)
      requires Valid()
      modifies this
      ensures (r, Snap()) == Deal(old(Snap()), itemCount, picks)
      ensures Valid()
    {
      r, items := GiveAll(maxCharges, items, itemCount, picks);
    }

    /** `shotgun_info()`. */
    method ShotgunInfo() returns (live: nat, length: nat)
      ensures (live, length) == ShotgunInfoSpec(Snap())
    {
      live := CountTrue(shotgun);
      length := |shotgun|;
    }

    /** `winner()`. */
    method Winner() returns (r: Option<nat>)
      requires Valid()
      ensures r == Duel.Winner(charges)
    {
      if charges[0] < 1 {
        return Some(1);
      } else if charges[1] < 1 {
        return Some(0);
      }
      return None;
    }

    /** `switch_turn()`. */
    method SwitchTurn()
      modifies this
      ensures Snap() == old(Snap()).(table := old(Snap()).table.(currentTurn := Opponent(old(currentTurn))))
    {
      currentTurn := if currentTurn == 0 then 1 else 0;
    }

    /** `fire(at_opponent)`. */
    method Fire(atOpponent: bool) returns (r: Result<int>)
      requires Valid()
      modifies this
      ensures (r, Snap()) == FireSpec(old(Snap()), atOpponent)
      ensures Valid()
    {
      ghost var t := old(Snap()).table;
      var target := (currentTurn + (if atOpponent then 1 else 0)) % 2;
      if shotgun == [] {
        return Err(IndexError);
      }
      var isHit := shotgun[0];
      shotgun := shotgun[1..];
      chamberPublic := None;
      assert target == Target(t, atOpponent) && Snap().table == t.(chamberPublic := None);
      if isHit {
        var damage := Hit(target);
        Switch(atOpponent, isHit);
        r := Ok(damage);
      } else if atOpponent {
        Switch(atOpponent, isHit);
        r := Ok(0);
      } else {
        r := Ok(0);
      }
      assert Duel.Fire(t, old(shotgun), atOpponent) == (Ok((r.value, shotgun)), Snap().table);
    }

    /** A live shell in `fire`. */
    method Hit(target: nat) returns (damage: int)
      requires Shaped(Snap().table) && target < 2
      modifies this
      ensures var h := Hurt(old(Snap()).table, target);
        damage == h.0 && Snap() == old(Snap()).(table := h.1)
    {
      damage := 1;
      if active[Saw] > 0.0 {
        active := active[Saw := 0.0];
        damage := 2;
      }
      charges := charges[target := charges[target] - damage];
    }

    /** The inner `switch()` of `fire`. */
    method Switch(atOpponent: bool, isHit: bool)
      requires Shaped(Snap().table)
      modifies this
      ensures Snap() == old(Snap()).(table := Duel.Switch(old(Snap()).table, atOpponent, isHit))
    {
      active := active[Saw := 0.0];
      if active[Handcuffs] > 0.5 {
        if !atOpponent && !isHit {
          return;
        }
        active := active[Handcuffs := active[Handcuffs] - 0.5];
        skipNext := true;
      }
      if skipNext {
        skipNext := false;
      } else {
        SwitchTurn();
      }
    }

    /** `legal_items()`. */
    method LegalItems() returns (r: seq<Kind>)
      requires Valid()
      ensures r == Duel.LegalItems(NineKinds, active)
    {
      r := ListLegal(NineKinds, active);
    }

    /** `moves()`: with nothing to list under adrenaline, the adrenaline is
        cleared and the list made again. */
    method Moves() returns (r: seq<Move>)
      requires Valid()
      modifies this
      ensures (r, Snap().table) == Duel.Moves(old(Snap()).table) && shotgun == old(shotgun)
      ensures Valid()
      decreases if active[Adrenaline] > 0.0 then 1 else 0
    {
      if active[Adrenaline] > 0.0 {
        r := ListItems(NineKinds, items[Opponent(currentTurn)], active);
        if |r| == 0 {
          active := active[Adrenaline := 0.0];
          r := Moves();
        }
      } else {
        var listed := ListItems(NineKinds, items[currentTurn], active);
        r := [ShootOpponent, ShootSelf] + listed;
      }
    }

    /** `make_move(move, load_new)`; `pick` is the burner phone's draw,
        `coin` the meds' `random.random() > 0.5`, d the draws of a reload. */
    method MakeMove(move: Move, loadNew: bool, pick: nat, coin: bool, d: Draws) returns (r: Result<Info>)
      requires Valid()
      modifies this
      ensures (r, Snap()) == MakeMoveSpec(old(Snap()), move, loadNew, pick, coin, d)
      ensures Valid()
    {
      r := ApplyMove(move, pick, coin);
      ghost var a := Snap();
      if r.Ok? && loadNew && |shotgun| == 0 {
        currentTurn := 0;
        assert Snap() == a.(table := a.table.(currentTurn := 0));
        var n := NewRounds(true, d);
        if n.Err? {
          r := Err(n.error);
        }
      }
    }

    /** `make_move` up to the reload: the adrenaline head, then the move. */
    method ApplyMove(move: Move, pick: nat, coin: bool) returns (r: Result<Info>)
      requires Valid()
      modifies this
      ensures (r, Snap()) == ApplySpec(old(Snap()), move, pick, coin)
      ensures Valid()
    {
      var o := currentTurn;
      if active[Adrenaline] > 0.0 {
        o := Opponent(currentTurn);
        active := active[Adrenaline := 0.0];
      }
      assert o == Taker(old(Snap()).table) && Snap() == Board(Disarmed(old(Snap()).table), old(shotgun));
      match move {
        case ShootOpponent =>
          var f := Fire(true);
          r := if f.Ok? then Ok(Num(f.value)) else Err(f.error);
        case ShootSelf =>
          var f := Fire(false);
          r := if f.Ok? then Ok(Num(-f.value)) else Err(f.error);
        case Use(k) =>
          if k in NineKinds {
            r := UseItem(o, k, pick, coin);
          } else {
            r := Ok(Nothing);
          }
        case Unknown =>
          r := Ok(Nothing);
      }
    }

    /** `items.<kind> -= 1` on record o. */
    method SpendItem(o: nat, k: Kind)
      requires Valid() && o < 2 && k in NineKinds
      modifies this
      ensures Snap() == Board(Spend(old(Snap()).table, o, k), old(shotgun))
      ensures Valid()
    {
      NineKindsDistinct();
      SpendOne(NineKinds, old(Snap()).table, o, k);
      items := items[o := items[o][k := items[o][k] - 1]];
    }

    /** An item move spending from record o. */
    method UseItem(o: nat, k: Kind, pick: nat, coin: bool) returns (r: Result<Info>)
      requires Valid() && o < 2 && k in NineKinds
      modifies this
      ensures (r, Snap()) == After(Duel.UseItem(NineKinds, old(Snap()).table, o, k, old(shotgun), pick, coin), old(shotgun))
      ensures Valid()
    {
      SpendItem(o, k);
      if k in {Handcuffs, MagnifyingGlass, Beer, Cigarettes, Saw} {
        r := UseEarly(k);
      } else {
        r := UseLater(k, pick, coin);
      }
    }

    /** The effects of the first five kinds of that `match`, once spent. */
    method UseEarly(k: Kind) returns (r: Result<Info>)
      requires Valid() && k in {Handcuffs, MagnifyingGlass, Beer, Cigarettes, Saw}
      modifies this
      ensures (r, Snap()) == After(Effect(NineKinds, old(Snap()).table, k, old(shotgun), 0, false), old(shotgun))
      ensures Valid()
    {
      r := Ok(Nothing);
      match k {
        case Handcuffs =>
          active := active[Handcuffs := active[Handcuffs] + 1.0];
          skipNext := true;
        case MagnifyingGlass =>
          if shotgun == [] {
            return Err(IndexError);
          }
          r := Ok(Shell(shotgun[0]));
          chamberPublic := Some(shotgun[0]);
        case Beer =>
          if |shotgun| > 1 {
            r := Ok(Shell(shotgun[0]));
            shotgun := shotgun[1..];
          } else {
            shotgun := [];
          }
        case Cigarettes =>
          charges := charges[currentTurn := Min(charges[currentTurn] + 1, maxCharges)];
        case Saw =>
          active := active[Saw := active[Saw] + 1.0];
      }
    }

    /** The effects of the other kinds of that `match`, once spent. */
    method UseLater(k: Kind, pick: nat, coin: bool) returns (r: Result<Info>)
      requires Valid() && k in NineKinds && k !in {Handcuffs, MagnifyingGlass, Beer, Cigarettes, Saw}
      modifies this
      ensures (r, Snap()) == After(Effect(NineKinds, old(Snap()).table, k, old(shotgun), pick, coin), old(shotgun))
      ensures Valid()
    {
      r := Ok(Nothing);
      match k {
        case Inverter =>
          if shotgun == [] {
            return Err(IndexError);
          }
          shotgun := shotgun[0 := !shotgun[0]];
        case BurnerPhone =>
          if |shotgun| > 1 {
            var idx := 1 + pick % (|shotgun| - 1);
            r := Ok(Peek(idx, shotgun[idx]));
          }
        case Meds =>
          if coin {
            charges := charges[currentTurn := Min(charges[currentTurn] + 2, maxCharges)];
          } else {
            charges := charges[currentTurn := charges[currentTurn] - 1];
          }
        case Adrenaline =>
          active := active[Adrenaline := active[Adrenaline] + 1.0];
        case _ =>
      }
    }

    /** `copy()`; chargeRoll is the new board's `randint(2, 4)` draw.  The
        shells and items the new board draws for itself are overwritten. */
    method Copy(chargeRoll: nat) returns (c: BuckshotRoulette)
      requires Valid()
      ensures fresh(c) && c.Snap() == CopySpec(Snap(), chargeRoll)
      ensures c.Valid()
    {
      c := new BuckshotRoulette(Charges(0, chargeRoll), []);
      c.Overwrite(charges, currentTurn, shotgun, items, active);
    }

    /** The field-by-field assignments of `copy()`, on the new board: the
        charge count, the skip and the chamber keep their fresh values. */
    method Overwrite(charges: seq<int>, currentTurn: int, shotgun: seq<bool>, items: seq<Counts>, active: Active)
      modifies this
      ensures Snap() == Board(old(Snap()).table.(charges := charges, currentTurn := currentTurn, items := items, active := active), shotgun)
    {
      this.charges := charges;
      this.currentTurn := currentTurn;
      this.shotgun := shotgun;
      this.items := items;
      this.active := active;
    }

    /** `__eq__`: every field but none of the identity. */
    method Equals(other: BuckshotRoulette) returns (r: bool)
      ensures r <==> Snap() == other.Snap()
    {
      r := maxCharges == other.maxCharges && charges == other.charges && currentTurn == other.currentTurn
        && shotgun == other.shotgun && items == other.items && active == other.active
        && skipNext == other.skipNext && chamberPublic == other.chamberPublic;
    }
  }

  /** `BuckshotRoulette(charge_count, total_rounds, live_rounds)`. */
  method New(chargeCount: int, totalRounds: int, liveRounds: Option<int>, chargeRoll: nat, d: Draws)
    returns (r: Result<BuckshotRoulette>)
    ensures r.Err? ==> InitSpec(chargeCount, totalRounds, liveRounds, chargeRoll, d) == Err(r.error)
    ensures r.Ok? ==> fresh(r.value) && r.value.Valid()
    ensures r.Ok? ==> InitSpec(chargeCount, totalRounds, liveRounds, chargeRoll, d) == Ok(r.value.Snap())
  {
    var maxCharges := Charges(chargeCount, chargeRoll);
    var total := if totalRounds != 0 then totalRounds else 2 + d.totalRoll % 7;
    var live := LiveOf(totalRounds, liveRounds, d);
    if live > total {
      return Err(ValueError);
    }
    var b := new BuckshotRoulette(maxCharges, LoadShells(live, d.pick));
    var given := b.GiveItems(2 + d.itemRoll % 4, d.picks);
    InitOk(chargeCount, totalRounds, liveRounds, chargeRoll, d);
    return Ok(b);
  }
}
