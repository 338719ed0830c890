/** Rules shared by the three two-player boards: buckshot_roulette/game.py,
    buckshot_roulette/singleplayer/game.py and cli_game.py.

    The three board classes repeat the same code for the turn, the winner,
    a shot with its inner `switch()`, and the item effects; the first two
    also share their item kinds, caps, `moves()`, `legal_items()`,
    `give_items` and the head of `make_move`.  The fields the three boards
    have in common are gathered here in a `Table` value; each board's own
    module adds the fields only it has and declares the class whose methods
    follow these functions. */
module Duel {
  import opened Common
  import opened Inventory

  /** `POSSIBLE_ITEMS` of the nine-kind boards (game.py and singleplayer/game.py). */
  const NineKinds: seq<Kind> := [Handcuffs, MagnifyingGlass, Beer, Cigarettes, Saw, Inverter, BurnerPhone, Meds, Adrenaline]

  /** Their `ITEM_CAPS`: the most of each kind `give_items` lets a player reach. */
  const NineCaps: Counts := map[Handcuffs := 1, MagnifyingGlass := 3, Beer := 2, Cigarettes := 1, Saw := 3,
                                Inverter := 8, BurnerPhone := 1, Meds := 1, Adrenaline := 2]

  lemma NineCapsValues()
    ensures NineCaps[Handcuffs] == 1 && NineCaps[MagnifyingGlass] == 3 && NineCaps[Beer] == 2 && NineCaps[Cigarettes] == 1
    ensures NineCaps[Saw] == 3 && NineCaps[Inverter] == 8 && NineCaps[BurnerPhone] == 1 && NineCaps[Meds] == 1
    ensures NineCaps[Adrenaline] == 2
  {
  }

  /** The most items a player may hold. */
  const MaxHeld := 8

  lemma NineKindsDistinct()
    ensures Distinct(NineKinds)
  {
  }

  /** `_active_items`: how much of each kind is in effect.  The handcuffs
      count goes down in steps of 0.5, so the counts are reals. */
  type Active = map<Kind, real>

  /** `_active_items` of a new board: a zero count for each kind. */
  function NoneActive(order: seq<Kind>): (r: Active)
    ensures forall k :: k in order ==> k in r && r[k] == 0.0
  {
    map k | k in order :: 0.0
  }

  /** A move string: 'op', 'self', an item name, or any other string. */
  datatype Move = ShootOpponent | ShootSelf | Use(kind: Kind) | Unknown

  /** The fields every two-player board has. */
  datatype Table = Table(maxCharges: int, charges: seq<int>, currentTurn: int, items: seq<Counts>,
                         active: Active, skipNext: bool, chamberPublic: Option<bool>)

  /** Two players, a turn that is one of them, and the kinds a shot reads in effect. */
  predicate Shaped(t: Table) {
    |t.charges| == 2 && |t.items| == 2 && (t.currentTurn == 0 || t.currentTurn == 1)
    && Handcuffs in t.active && Saw in t.active
  }

  /** A table of a board whose records and `_active_items` have the kinds of `order`. */
  predicate TableOk(order: seq<Kind>, t: Table) {
    Shaped(t) && Covers(t.items[0], order) && Covers(t.items[1], order)
    && forall k :: k in order ==> k in t.active
  }

  // ------------------------------------------------------------ turn, winner

  /** `opponent()`, and the seat `switch_turn()` passes the turn to. */
  function Opponent(turn: int): (r: nat)
    ensures r < 2 && r != turn
    ensures turn == 0 || turn == 1 ==> r == 1 - turn
  {
    if turn == 0 then 1 else 0
  }

  /** `winner()`: player 1 when player 0 has no charge left, else player 0
      when player 1 has none, else None. */
  function Winner(charges: seq<int>): (r: Option<nat>)
    requires |charges| == 2
    ensures r.None? <==> charges[0] >= 1 && charges[1] >= 1
    ensures r.Some? ==> r.value < 2 && charges[1 - r.value] < 1
    ensures r == Some(0) ==> charges[0] >= 1
  {
    if charges[0] < 1 then Some(1)
    else if charges[1] < 1 then Some(0)
    else None
  }

  /** When exactly one player has charges left, that player is the winner. */
  lemma WinnerSole(charges: seq<int>, w: nat)
    requires |charges| == 2 && w < 2
    requires charges[w] >= 1 && charges[1 - w] < 1
    ensures Winner(charges) == Some(w)
  {
  }

  // ------------------------------------------------------------------ fire

  /** The inner `switch()` of `fire`: the saw wears off; handcuffs above 0.5
      lose 0.5 and set `_skip_next` (except on a blank at oneself, where the
      turn stays); then a set `_skip_next` is consumed, or the turn passes. */
  function Switch(t: Table, atOpponent: bool, isHit: bool): (r: Table)
    requires Shaped(t)
    ensures Shaped(r) && r.active.Keys == t.active.Keys
    ensures r.charges == t.charges && r.items == t.items && r.maxCharges == t.maxCharges
    ensures r.chamberPublic == t.chamberPublic
    ensures Adrenaline in t.active ==> r.active[Adrenaline] == t.active[Adrenaline]
  {
    var t1 := t.(active := t.active[Saw := 0.0]);
    if t1.active[Handcuffs] > 0.5 && !atOpponent && !isHit then t1
    else
      var t2 := if t1.active[Handcuffs] > 0.5
        then t1.(active := t1.active[Handcuffs := t1.active[Handcuffs] - 0.5], skipNext := true)
        else t1;
      if t2.skipNext then t2.(skipNext := false) else t2.(currentTurn := Opponent(t2.currentTurn))
  }

  /** The player a shot hits: `(current_turn + at_opponent) % 2`. */
  function Target(t: Table, atOpponent: bool): (r: nat)
    requires Shaped(t)
    ensures r < 2
    ensures r == (if atOpponent then Opponent(t.currentTurn) else t.currentTurn)
  {
    (t.currentTurn + (if atOpponent then 1 else 0)) % 2
  }

  /** A live shell in `fire`: 1 damage, or 2 with the saw in effect, which
      then stops being in effect, taken off the target's charges. */
  function Hurt(t: Table, target: nat): (r: (int, Table))
    requires Shaped(t) && target < 2
    ensures r.0 == (if t.active[Saw] > 0.0 then 2 else 1)
    ensures Shaped(r.1) && r.1.active.Keys == t.active.Keys && r.1.items == t.items
    ensures Adrenaline in t.active ==> r.1.active[Adrenaline] == t.active[Adrenaline]
    ensures r.1.active[Saw := 0.0] == t.active[Saw := 0.0]
    ensures r.1.currentTurn == t.currentTurn && r.1.skipNext == t.skipNext
  {
    var sawed := t.active[Saw] > 0.0;
    var damage := if sawed then 2 else 1;
    var t1 := if sawed then t.(active := t.active[Saw := 0.0]) else t;
    (damage, t1.(charges := t1.charges[target := t1.charges[target] - damage]))
  }

  /** `fire(at_opponent)` on the shell list `shotgun`: the damage and the
      shells left, and the new table.  An empty list raises IndexError before
      anything changes. */
  function Fire(t: Table, shotgun: seq<bool>, atOpponent: bool): (r: (Result<(int, seq<bool>)>, Table))
    requires Shaped(t)
    ensures Shaped(r.1) && r.1.active.Keys == t.active.Keys && r.1.items == t.items
    ensures Adrenaline in t.active ==> r.1.active[Adrenaline] == t.active[Adrenaline]
  {
    if shotgun == [] then (Err(IndexError), t)
    else
      var target := Target(t, atOpponent);
      var isHit := shotgun[0];
      var t1 := t.(chamberPublic := None);
      if isHit then
        var h := Hurt(t1, target);
        (Ok((h.0, shotgun[1..])), Switch(h.1, atOpponent, isHit))
      else if atOpponent then (Ok((0, shotgun[1..])), Switch(t1, atOpponent, isHit))
      else (Ok((0, shotgun[1..])), t1)
  }

  /** A shot drops exactly the front shell and makes the chamber unknown; a
      live shell deals 1 damage, or 2 with the saw in effect, to the target,
      whose charge is not floored; a blank deals none; nothing else but the
      turn and the effects changes.  With no shell it raises IndexError. */
  lemma FireDamage(t: Table, shotgun: seq<bool>, atOpponent: bool)
    requires Shaped(t)
    ensures var (r, t') := Fire(t, shotgun, atOpponent);
      && (r.Err? <==> shotgun == [])
      && (r.Err? ==> r.error == IndexError && t' == t)
      && (r.Ok? ==>
            var (damage, rest) := r.value;
            var target := Target(t, atOpponent);
            && rest == shotgun[1..]
            && t'.chamberPublic == None
            && damage == (if !shotgun[0] then 0 else if t.active[Saw] > 0.0 then 2 else 1)
            && t'.charges == t.charges[target := t.charges[target] - damage]
            && t'.items == t.items && t'.maxCharges == t.maxCharges)
  {
  }

  /** A blank at oneself keeps the turn, every effect (the saw included)
      and `_skip_next`. */
  lemma FireBlankSelf(t: Table, shotgun: seq<bool>)
    requires Shaped(t) && shotgun != [] && !shotgun[0]
    ensures var t' := Fire(t, shotgun, false).1;
      t'.currentTurn == t.currentTurn && t'.active == t.active && t'.skipNext == t.skipNext
  {
  }

  /** The turn after any other shot: the saw is cleared, handcuffs above 0.5
      lose 0.5, `_skip_next` is cleared, and the turn stays exactly when
      handcuffs above 0.5 or a set `_skip_next` were in effect. */
  lemma FireTurn(t: Table, shotgun: seq<bool>, atOpponent: bool)
    requires Shaped(t) && shotgun != [] && (atOpponent || shotgun[0])
    ensures var t' := Fire(t, shotgun, atOpponent).1;
      var h := t.active[Handcuffs];
      && t'.active == t.active[Saw := 0.0][Handcuffs := if h > 0.5 then h - 0.5 else h]
      && !t'.skipNext
      && t'.currentTurn == (if h > 0.5 || t.skipNext then t.currentTurn else Opponent(t.currentTurn))
  {
    var t1 := t.(chamberPublic := None);
    if shotgun[0] {
      var h := Hurt(t1, Target(t1, atOpponent));
      assert Fire(t, shotgun, atOpponent).1 == Switch(h.1, atOpponent, true);
    } else {
      assert Fire(t, shotgun, atOpponent).1 == Switch(t1, atOpponent, false);
    }
  }

  /** Handcuffs give exactly one extra shot.  Right after the handcuffs move
      (one handcuff in effect and `_skip_next` set), a shot other than a
      blank at oneself keeps the turn and leaves half a handcuff in effect;
      the next such shot passes the turn. */
  lemma HandcuffsOneExtraShot(t: Table, shotgun: seq<bool>, first: bool, second: bool)
    requires Shaped(t) && t.active[Handcuffs] == 1.0 && t.skipNext
    requires |shotgun| >= 2 && (first || shotgun[0]) && (second || shotgun[1])
    ensures var t1 := Fire(t, shotgun, first).1;
      && t1.currentTurn == t.currentTurn && t1.active[Handcuffs] == 0.5 && !t1.skipNext
      && Fire(t1, shotgun[1..], second).1.currentTurn == Opponent(t.currentTurn)
  {
    FireTurn(t, shotgun, first);
    var t1 := Fire(t, shotgun, first).1;
    assert Fire(t, shotgun, first).0.value.1 == shotgun[1..];
    FireTurn(t1, shotgun[1..], second);
  }

  // ------------------------------------------------------------------ moves

  /** The item part of `moves()`: each kind of `order`, in that order, that
      the record `held` has at least one of and that is not in effect. */
  function ItemMoves(order: seq<Kind>, held: Counts, active: Active): (r: seq<Move>)
    requires Covers(held, order) && forall k :: k in order ==> k in active
    ensures |r| <= |order|
  {
    if order == [] then []
    else
      (if held[order[0]] > 0 && active[order[0]] == 0.0 then [Use(order[0])] else [])
      + ItemMoves(order[1..], held, active)
  }

  /** The item moves are exactly the held kinds not in effect, each listed once. */
  lemma {:induction false} ItemMovesMembers(order: seq<Kind>, held: Counts, active: Active)
    requires Covers(held, order) && forall k :: k in order ==> k in active
    ensures forall m :: m in ItemMoves(order, held, active) <==>
      m.Use? && m.kind in order && held[m.kind] > 0 && active[m.kind] == 0.0
    ensures Distinct(order) ==>
      forall i, j :: 0 <= i < j < |ItemMoves(order, held, active)| ==>
        ItemMoves(order, held, active)[i] != ItemMoves(order, held, active)[j]
  {
    if order != [] {
      ItemMovesMembers(order[1..], held, active);
      DistinctTail(order);
      var head := if held[order[0]] > 0 && active[order[0]] == 0.0 then [Use(order[0])] else [];
      var rest := ItemMoves(order[1..], held, active);
      assert ItemMoves(order, held, active) == head + rest;
      if Distinct(order) {
        forall i, j | 0 <= i < j < |head + rest| ensures (head + rest)[i] != (head + rest)[j] {
          if i < |head| {
            assert (head + rest)[j] == rest[j - |head|];
            assert rest[j - |head|] in rest;
          } else {
            assert (head + rest)[i] == rest[i - |head|] && (head + rest)[j] == rest[j - |head|];
          }
        }
      }
    }
  }

  /** The loop `for item in POSSIBLE_ITEMS: if items[item] > 0 and
      _active_items[item] == 0: moves.append(item)`. */
  method ListItems(order: seq<Kind>, held: Counts, active: Active) returns (r: seq<Move>)
    requires Covers(held, order) && forall k :: k in order ==> k in active
    ensures r == ItemMoves(order, held, active)
  {
    r := [];
    var i := |order|;
    while i > 0
      invariant 0 <= i <= |order|
      invariant r == ItemMoves(order[i..], held, active)
    {
      i := i - 1;
      assert order[i..][1..] == order[i + 1..];
      if held[order[i]] > 0 && active[order[i]] == 0.0 {
        r := [Use(order[i])] + r;
      }
    }
    assert order[0..] == order;
  }

  /** `legal_items()`: the kinds of `order` not in effect, whether held or not. */
  function LegalItems(order: seq<Kind>, active: Active): (r: seq<Kind>)
    requires forall k :: k in order ==> k in active
    ensures forall k :: k in r <==> k in order && active[k] == 0.0
  {
    if order == [] then [] else (if active[order[0]] == 0.0 then [order[0]] else []) + LegalItems(order[1..], active)
  }

  /** The `legal_items()` loop. */
  method ListLegal(order: seq<Kind>, active: Active) returns (r: seq<Kind>)
    requires forall k :: k in order ==> k in active
    ensures r == LegalItems(order, active)
  {
    r := [];
    var i := |order|;
    while i > 0
      invariant 0 <= i <= |order|
      invariant r == LegalItems(order[i..], active)
    {
      i := i - 1;
      assert order[i..][1..] == order[i + 1..];
      if active[order[i]] == 0.0 {
        r := [order[i]] + r;
      }
    }
    assert order[0..] == order;
  }

  /** Every item `moves()` may list is a legal item. */
  lemma ItemMovesLegal(order: seq<Kind>, held: Counts, active: Active)
    requires Covers(held, order) && forall k :: k in order ==> k in active
    ensures forall m :: m in ItemMoves(order, held, active) ==> m.Use? && m.kind in LegalItems(order, active)
  {
    ItemMovesMembers(order, held, active);
  }

  /** `moves()` of the nine-kind boards: under adrenaline only the
      opponent's held items not in effect; if there are none, adrenaline is
      cleared and the list is made again; otherwise 'op', 'self' and the
      mover's held items not in effect. */
  function Moves(t: Table): (r: (seq<Move>, Table))
    requires TableOk(NineKinds, t)
    ensures TableOk(NineKinds, r.1)
    decreases if t.active[Adrenaline] > 0.0 then 1 else 0
  {
    if t.active[Adrenaline] > 0.0 then
      var stolen := ItemMoves(NineKinds, t.items[Opponent(t.currentTurn)], t.active);
      if stolen == [] then Moves(t.(active := t.active[Adrenaline := 0.0])) else (stolen, t)
    else ([ShootOpponent, ShootSelf] + ItemMoves(NineKinds, t.items[t.currentTurn], t.active), t)
  }

  /** `moves()` with adrenaline in effect and an opponent item to take:
      exactly the opponent's held items not in effect, never adrenaline
      itself nor a shot, and nothing changes. */
  lemma MovesStolen(t: Table)
    requires TableOk(NineKinds, t) && t.active[Adrenaline] > 0.0
    requires ItemMoves(NineKinds, t.items[Opponent(t.currentTurn)], t.active) != []
    ensures var (ms, t') := Moves(t);
      var opp := t.items[Opponent(t.currentTurn)];
      && t' == t
      && (forall m :: m in ms <==> m.Use? && m.kind in NineKinds && opp[m.kind] > 0 && t.active[m.kind] == 0.0)
      && Use(Adrenaline) !in ms && ShootOpponent !in ms && ShootSelf !in ms
  {
    ItemMovesMembers(NineKinds, t.items[Opponent(t.currentTurn)], t.active);
  }

  /** `moves()` otherwise: 'op', 'self' and then exactly the mover's held
      items not in effect, and the only change is that an adrenaline in
      effect is cleared. */
  lemma MovesOwn(t: Table)
    requires TableOk(NineKinds, t)
    requires t.active[Adrenaline] > 0.0 ==> ItemMoves(NineKinds, t.items[Opponent(t.currentTurn)], t.active) == []
    ensures var (ms, t') := Moves(t);
      && t' == (if t.active[Adrenaline] > 0.0 then t.(active := t.active[Adrenaline := 0.0]) else t)
      && |ms| >= 2 && ms[0] == ShootOpponent && ms[1] == ShootSelf
      && (forall m :: m in ms[2..] <==>
            m.Use? && m.kind in NineKinds && t.items[t.currentTurn][m.kind] > 0 && t'.active[m.kind] == 0.0)
  {
    var t' := if t.active[Adrenaline] > 0.0 then t.(active := t.active[Adrenaline := 0.0]) else t;
    assert Moves(t) == ([ShootOpponent, ShootSelf] + ItemMoves(NineKinds, t'.items[t'.currentTurn], t'.active), t');
    ItemMovesMembers(NineKinds, t.items[t.currentTurn], t'.active);
    assert Moves(t).0[2..] == ItemMoves(NineKinds, t.items[t.currentTurn], t'.active);
  }

  // ---------------------------------------------------------------- items

  /** `items.<kind> -= 1` on record o. */
  function Spend(t: Table, o: nat, k: Kind): (r: Table)
    requires |t.items| == 2 && o < 2 && k in t.items[o]
  {
    t.(items := t.items[o := t.items[o][k := t.items[o][k] - 1]])
  }

  /** Spending takes exactly one item of that kind from record o and leaves
      every other count and the other record as they were. */
  lemma SpendOne(order: seq<Kind>, t: Table, o: nat, k: Kind)
    requires TableOk(order, t) && Distinct(order) && o < 2 && k in order
    ensures var t' := Spend(t, o, k);
      && TableOk(order, t')
      && ItemCount(t'.items[o], order) == ItemCount(t.items[o], order) - 1
      && t'.items[1 - o] == t.items[1 - o]
      && (forall j :: j in order && j != k ==> t'.items[o][j] == t.items[o][j])
      && t'.items[o][k] == t.items[o][k] - 1
  {
    ItemCountBump(t.items[o], order, k, -1);
  }

  /** The item branches of `make_move` for a kind `k` of the board, spent
      from record o.  `pick` draws the burner phone's index and `coin` is the
      meds' `random.random() > 0.5`.  The result is what the move reports and
      the shells left, and the new table; the magnifying glass and the
      inverter on no shell raise IndexError after the item is spent. */
  function UseItem(order: seq<Kind>, t: Table, o: nat, k: Kind, shotgun: seq<bool>, pick: nat, coin: bool)
    : (r: (Result<(Info, seq<bool>)>, Table))
    requires TableOk(order, t) && o < 2 && k in order
    ensures TableOk(order, r.1)
  {
    Effect(order, Spend(t, o, k), k, shotgun, pick, coin)
  }

  /** What an item does once it has been spent. */
  function Effect(order: seq<Kind>, s: Table, k: Kind, shotgun: seq<bool>, pick: nat, coin: bool)
    : (r: (Result<(Info, seq<bool>)>, Table))
    requires TableOk(order, s) && k in order
    ensures TableOk(order, r.1) && r.1.items == s.items
    ensures forall j :: j in s.active && j != k ==> j in r.1.active && r.1.active[j] == s.active[j]
  {
    var ct := s.currentTurn;
    match k
    case Handcuffs =>
      (Ok((Nothing, shotgun)), s.(active := s.active[Handcuffs := s.active[Handcuffs] + 1.0], skipNext := true))
    case MagnifyingGlass =>
      if shotgun == [] then (Err(IndexError), s)
      else (Ok((Shell(shotgun[0]), shotgun)), s.(chamberPublic := Some(shotgun[0])))
    case Beer =>
      if |shotgun| > 1 then (Ok((Shell(shotgun[0]), shotgun[1..])), s) else (Ok((Nothing, [])), s)
    case Cigarettes =>
      (Ok((Nothing, shotgun)), s.(charges := s.charges[ct := Min(s.charges[ct] + 1, s.maxCharges)]))
    case Saw =>
      (Ok((Nothing, shotgun)), s.(active := s.active[Saw := s.active[Saw] + 1.0]))
    case Inverter =>
      if shotgun == [] then (Err(IndexError), s) else (Ok((Nothing, shotgun[0 := !shotgun[0]])), s)
    case BurnerPhone =>
      if |shotgun| > 1 then
        var idx := 1 + pick % (|shotgun| - 1);
        (Ok((Peek(idx, shotgun[idx]), shotgun)), s)
      else (Ok((Nothing, shotgun)), s)
    case Meds =>
      var heal := if coin then Min(s.charges[ct] + 2, s.maxCharges) else s.charges[ct] - 1;
      (Ok((Nothing, shotgun)), s.(charges := s.charges[ct := heal]))
    case Adrenaline =>
      (Ok((Nothing, shotgun)), s.(active := s.active[Adrenaline := s.active[Adrenaline] + 1.0]))
    case _ => (Ok((Nothing, shotgun)), s)
  }

  /** Every item move spends exactly one item of its kind from the record it
      uses, and changes no other record. */
  lemma UseItemSpends(order: seq<Kind>, t: Table, o: nat, k: Kind, shotgun: seq<bool>, pick: nat, coin: bool)
    requires TableOk(order, t) && Distinct(order) && o < 2 && k in order
    ensures var t' := UseItem(order, t, o, k, shotgun, pick, coin).1;
      && t'.items == Spend(t, o, k).items
      && t'.items[o] == t.items[o][k := t.items[o][k] - 1]
      && ItemCount(t'.items[o], order) == ItemCount(t.items[o], order) - 1
      && t'.items[1 - o] == t.items[1 - o]
      && t'.active.Keys == t.active.Keys
      && (forall j :: j in t.active && j != k ==> t'.active[j] == t.active[j])
  {
    SpendOne(order, t, o, k);
  }

  /** Cigarettes heal the mover by one, never above `max_charges`, and never
      lower a charge that was at most the maximum. */
  lemma CigarettesHeal(order: seq<Kind>, t: Table, o: nat, shotgun: seq<bool>, pick: nat, coin: bool)
    requires TableOk(order, t) && o < 2 && Cigarettes in order
    ensures var (r, t') := UseItem(order, t, o, Cigarettes, shotgun, pick, coin);
      var ct := t.currentTurn;
      && r == Ok((Nothing, shotgun))
      && t'.charges[ct] <= t.charges[ct] + 1 && t'.charges[ct] <= t.maxCharges
      && (t.charges[ct] < t.maxCharges ==> t'.charges[ct] == t.charges[ct] + 1)
      && t'.charges[1 - ct] == t.charges[1 - ct]
  {
  }

  /** The magnifying glass reports the front shell and makes it public
      without moving it. */
  lemma MagnifyingGlassShows(order: seq<Kind>, t: Table, o: nat, shotgun: seq<bool>, pick: nat, coin: bool)
    requires TableOk(order, t) && o < 2 && MagnifyingGlass in order && shotgun != []
    ensures var (r, t') := UseItem(order, t, o, MagnifyingGlass, shotgun, pick, coin);
      r == Ok((Shell(shotgun[0]), shotgun)) && t'.chamberPublic == Some(shotgun[0])
  {
  }

  /** Beer with more than one shell ejects and reports the front shell; with
      one shell or none it empties the list and reports nothing. */
  lemma BeerEjects(order: seq<Kind>, t: Table, o: nat, shotgun: seq<bool>, pick: nat, coin: bool)
    requires TableOk(order, t) && o < 2 && Beer in order
    ensures var (r, t') := UseItem(order, t, o, Beer, shotgun, pick, coin);
      && r.Ok? && |r.value.1| == (if |shotgun| > 1 then |shotgun| - 1 else 0)
      && (|shotgun| > 1 ==> r.value == (Shell(shotgun[0]), shotgun[1..]))
      && t'.charges == t.charges && t'.currentTurn == t.currentTurn && t'.active == t.active
  {
  }

  /** The inverter flips the front shell, so the live count moves by one,
      and leaves the others. */
  lemma InverterFlips(order: seq<Kind>, t: Table, o: nat, shotgun: seq<bool>, pick: nat, coin: bool)
    requires TableOk(order, t) && o < 2 && Inverter in order && shotgun != []
    ensures var (r, _) := UseItem(order, t, o, Inverter, shotgun, pick, coin);
      && r.Ok? && |r.value.1| == |shotgun| && r.value.1[0] == !shotgun[0] && r.value.1[1..] == shotgun[1..]
      && CountTrue(r.value.1) == (if shotgun[0] then CountTrue(shotgun) - 1 else CountTrue(shotgun) + 1)
  {
    CountTrueFlipFront(shotgun);
  }

  /** The burner phone, with more than one shell, reports a position other
      than the front together with the shell found there; it moves nothing. */
  lemma BurnerPhonePeeks(order: seq<Kind>, t: Table, o: nat, shotgun: seq<bool>, pick: nat, coin: bool)
    requires TableOk(order, t) && o < 2 && BurnerPhone in order
    ensures var (r, _) := UseItem(order, t, o, BurnerPhone, shotgun, pick, coin);
      && r.Ok? && r.value.1 == shotgun
      && (|shotgun| > 1 ==> r.value.0.Peek? && 1 <= r.value.0.index < |shotgun|
                            && r.value.0.isLive == shotgun[r.value.0.index])
      && (|shotgun| <= 1 ==> r.value.0 == Nothing)
  {
  }

  /** Meds either heal two charges, never above the maximum, or cost one. */
  lemma MedsGamble(order: seq<Kind>, t: Table, o: nat, shotgun: seq<bool>, pick: nat, coin: bool)
    requires TableOk(order, t) && o < 2 && Meds in order
    ensures var (_, t') := UseItem(order, t, o, Meds, shotgun, pick, coin);
      var ct := t.currentTurn;
      && (coin ==> t'.charges[ct] <= t.maxCharges && t'.charges[ct] <= t.charges[ct] + 2)
      && (coin && t.charges[ct] + 2 <= t.maxCharges ==> t'.charges[ct] == t.charges[ct] + 2)
      && (!coin ==> t'.charges[ct] == t.charges[ct] - 1)
  {
  }

  /** The handcuffs, the saw and adrenaline each put one more of their kind
      in effect; the handcuffs also set `_skip_next`. */
  lemma EffectsStart(order: seq<Kind>, t: Table, o: nat, k: Kind, shotgun: seq<bool>, pick: nat, coin: bool)
    requires TableOk(order, t) && o < 2 && k in order && k in {Handcuffs, Saw, Adrenaline}
    ensures var (r, t') := UseItem(order, t, o, k, shotgun, pick, coin);
      && r == Ok((Nothing, shotgun))
      && t'.active == t.active[k := t.active[k] + 1.0]
      && (k == Handcuffs ==> t'.skipNext)
      && t'.charges == t.charges && t'.currentTurn == t.currentTurn
  {
  }

  // -------------------------------------------------------------- make_move

  /** The head of `make_move` on the nine-kind boards: the record the move
      uses is the opponent's under adrenaline, the mover's otherwise. */
  function Taker(t: Table): (r: nat)
    requires TableOk(NineKinds, t)
    ensures r < 2
    ensures t.active[Adrenaline] <= 0.0 ==> r == t.currentTurn
    ensures t.active[Adrenaline] > 0.0 ==> r != t.currentTurn
  {
    if t.active[Adrenaline] > 0.0 then Opponent(t.currentTurn) else t.currentTurn
  }

  /** The table once `make_move` has cleared a pending adrenaline. */
  function Disarmed(t: Table): (r: Table)
    requires TableOk(NineKinds, t)
    ensures TableOk(NineKinds, r) && r.items == t.items
    ensures r.active[Adrenaline] <= 0.0
  {
    t.(active := if t.active[Adrenaline] > 0.0 then t.active[Adrenaline := 0.0] else t.active)
  }

  /** `make_move` of the nine-kind boards up to the reload.  A shot reports
      its damage ('self' negated); a string that names no move of the board
      reports `unmatched`. */
  function Apply(t: Table, move: Move, shotgun: seq<bool>, pick: nat, coin: bool, unmatched: Info)
    : (r: (Result<(Info, seq<bool>)>, Table))
    requires TableOk(NineKinds, t)
    ensures TableOk(NineKinds, r.1)
  {
    var o := Taker(t);
    var t1 := Disarmed(t);
    match move
    case ShootOpponent =>
      var f := Fire(t1, shotgun, true);
      (if f.0.Ok? then Ok((Num(f.0.value.0), f.0.value.1)) else Err(f.0.error), f.1)
    case ShootSelf =>
      var f := Fire(t1, shotgun, false);
      (if f.0.Ok? then Ok((Num(-f.0.value.0), f.0.value.1)) else Err(f.0.error), f.1)
    case Use(k) =>
      if k in NineKinds then UseItem(NineKinds, t1, o, k, shotgun, pick, coin) else (Ok((unmatched, shotgun)), t1)
    case Unknown => (Ok((unmatched, shotgun)), t1)
  }

  /** A shot clears adrenaline and leaves the records. */
  lemma ApplyShot(t: Table, atOpponent: bool, shotgun: seq<bool>, pick: nat, coin: bool, unmatched: Info)
    requires TableOk(NineKinds, t)
    ensures var t' := Apply(t, if atOpponent then ShootOpponent else ShootSelf, shotgun, pick, coin, unmatched).1;
      && t'.active[Adrenaline] == (if t.active[Adrenaline] > 0.0 then 0.0 else t.active[Adrenaline])
      && t'.items == t.items
  {
  }


  /** An item move of the board is `UseItem` on the record `Taker` names. */
  lemma ApplyUse(t: Table, k: Kind, shotgun: seq<bool>, pick: nat, coin: bool, unmatched: Info)
    requires TableOk(NineKinds, t) && k in NineKinds
    ensures Apply(t, Use(k), shotgun, pick, coin, unmatched)
         == UseItem(NineKinds, Disarmed(t), Taker(t), k, shotgun, pick, coin)
  {
  }

  /** `UseItem` on the disarmed table spends from the record `Taker` names. */
  lemma UseDisarmed(t: Table, k: Kind, shotgun: seq<bool>, pick: nat, coin: bool)
    requires TableOk(NineKinds, t) && k in NineKinds
    ensures var t' := UseItem(NineKinds, Disarmed(t), Taker(t), k, shotgun, pick, coin).1;
      var o := Taker(t);
      && (k != Adrenaline ==> t'.active[Adrenaline] == Disarmed(t).active[Adrenaline])
      && t'.items[o] == t.items[o][k := t.items[o][k] - 1] && t'.items[1 - o] == t.items[1 - o]
  {
    var o := Taker(t);
    var s := Disarmed(t);
    SpendsFrom(s, o, k, shotgun, pick, coin);
    assert s.items == t.items;
  }

  /** `UseItem` spends from record o and keeps every other effect, on any
      table of the nine kinds. */
  lemma SpendsFrom(s: Table, o: nat, k: Kind, shotgun: seq<bool>, pick: nat, coin: bool)
    requires TableOk(NineKinds, s) && o < 2 && k in NineKinds
    ensures var t' := UseItem(NineKinds, s, o, k, shotgun, pick, coin).1;
      && (k != Adrenaline ==> t'.active[Adrenaline] == s.active[Adrenaline])
      && t'.items[o] == s.items[o][k := s.items[o][k] - 1] && t'.items[1 - o] == s.items[1 - o]
  {
    NineKindsDistinct();
    UseItemSpends(NineKinds, s, o, k, shotgun, pick, coin);
    assert Adrenaline in NineKinds;
  }

  /** An item move of the board spends one item from the opponent's record
      under adrenaline and from the mover's otherwise, leaves the other
      record, and clears adrenaline unless it is the adrenaline itself. */
  lemma ApplyItem(t: Table, k: Kind, shotgun: seq<bool>, pick: nat, coin: bool, unmatched: Info)
    requires TableOk(NineKinds, t) && k in NineKinds
    ensures var t' := Apply(t, Use(k), shotgun, pick, coin, unmatched).1;
      var o := if t.active[Adrenaline] > 0.0 then Opponent(t.currentTurn) else t.currentTurn;
      && (k != Adrenaline ==> t'.active[Adrenaline] == (if t.active[Adrenaline] > 0.0 then 0.0 else t.active[Adrenaline]))
      && t'.items[o] == t.items[o][k := t.items[o][k] - 1] && t'.items[1 - o] == t.items[1 - o]
  {
    ApplyUse(t, k, shotgun, pick, coin, unmatched);
    UseDisarmed(t, k, shotgun, pick, coin);
  }

  // ----------------------------------------------------------- give_items

  /** The kinds `give_items` may draw for a player: below the cap, and not
      the saw when the board has at most 2 charges. */
  function Choices(maxCharges: int, player: Counts): seq<Kind>
    requires Covers(player, NineKinds)
  {
    var eligible := Eligible(NineKinds, player, NineCaps);
    if maxCharges <= 2 then RemoveFirst(eligible, Saw) else eligible
  }

  /** The choices are the kinds below the cap, without the saw when the
      board has at most 2 charges. */
  lemma ChoicesMembers(maxCharges: int, player: Counts)
    requires Covers(player, NineKinds)
    ensures forall k :: k in Choices(maxCharges, player) <==>
      k in NineKinds && player[k] < NineCaps[k] && !(maxCharges <= 2 && k == Saw)
  {
    NineKindsDistinct();
  }

  /** How many items a player is dealt: `min(item_count, 8 - item_count())`. */
  function Allowance(itemCount: int, held: int): int {
    Min(itemCount, MaxHeld - held)
  }

  /** One player's drop: `random.choices(choices, k=n)` credited to the
      record.  A count n <= 0 draws nothing; an empty list with n > 0 raises
      IndexError. */
  function Gift(maxCharges: int, player: Counts, itemCount: int, draw: nat -> nat): (r: Result<Counts>)
    requires Covers(player, NineKinds)
    ensures r.Ok? ==> Covers(r.value, NineKinds)
  {
    var ch := Choices(maxCharges, player);
    var n := Allowance(itemCount, ItemCount(player, NineKinds));
    ChoicesMembers(maxCharges, player);
    if n <= 0 then Ok(player)
    else if ch == [] then Err(IndexError)
    else Ok(Credited(player, DrawsFrom(ch, n, draw)))
  }

  predicate BothCover(items: seq<Counts>) {
    |items| == 2 && Covers(items[0], NineKinds) && Covers(items[1], NineKinds)
  }

  /** Both drops, where they succeed, keep the records complete. */
  predicate GiftsCover(gifts: seq<Result<Counts>>) {
    |gifts| == 2
    && (gifts[0].Ok? ==> Covers(gifts[0].value, NineKinds))
    && (gifts[1].Ok? ==> Covers(gifts[1].value, NineKinds))
  }

  /** Each player's drop, computed from the record as the call starts: a
      player's record is still that one when the loop reaches it. */
  function Gifts(maxCharges: int, items: seq<Counts>, itemCount: int, draw: nat -> nat -> nat): (r: seq<Result<Counts>>)
    requires BothCover(items)
    ensures GiftsCover(r)
  {
    [Gift(maxCharges, items[0], itemCount, draw(0)), Gift(maxCharges, items[1], itemCount, draw(1))]
  }

  /** Player p holds exactly 8 items: where `give_items` stops. */
  predicate Full(items: seq<Counts>, p: nat)
    requires BothCover(items) && p < 2
  {
    ItemCount(items[p], NineKinds) == MaxHeld
  }

  /** The `give_items` loop from player p on.  It stops at the first player
      holding exactly 8 items; an IndexError leaves the players before it
      credited. */
  function GiveFrom(items: seq<Counts>, gifts: seq<Result<Counts>>, p: nat): (r: (Result<()>, seq<Counts>))
    requires BothCover(items) && GiftsCover(gifts)
    ensures BothCover(r.1)
    decreases 2 - p
  {
    if p >= 2 || Full(items, p) then (Ok(()), items)
    else if gifts[p].Err? then (Err(gifts[p].error), items)
    else GiveFrom(items[p := gifts[p].value], gifts, p + 1)
  }

  /** `give_items(item_count)`; draw(p) are player p's picks. */
  function GiveItems(maxCharges: int, items: seq<Counts>, itemCount: int, draw: nat -> nat -> nat)
    : (r: (Result<()>, seq<Counts>))
    requires BothCover(items)
    ensures BothCover(r.1)
  {
    GiveFrom(items, Gifts(maxCharges, items, itemCount, draw), 0)
  }

  /** `give_items(item_count)`, over the records as a value. */
  method GiveAll(maxCharges: int, items: seq<Counts>, itemCount: int, draw: nat -> nat -> nat)
    returns (res: Result<()>, xs: seq<Counts>)
    requires BothCover(items)
    ensures (res, xs) == GiveItems(maxCharges, items, itemCount, draw)
  {
    res, xs := GiveLoop(maxCharges, items, Gifts(maxCharges, items, itemCount, draw), itemCount, draw);
  }

  /** The loop of `give_items`, with `gifts` the drop of each player. */
  method GiveLoop(maxCharges: int, items: seq<Counts>, ghost gifts: seq<Result<Counts>>, itemCount: int,
                  draw: nat -> nat -> nat) returns (res: Result<()>, xs: seq<Counts>)
    requires BothCover(items) && gifts == Gifts(maxCharges, items, itemCount, draw)
    ensures (res, xs) == GiveFrom(items, gifts, 0)
  {
    xs := items;
    var p := 0;
    while p < 2 && !Full(xs, p)
      invariant GiveInv(items, gifts, xs, p)
      decreases 2 - p
    {
      var failed;
      failed, xs := GiveTurn(maxCharges, items, gifts, xs, p, itemCount, draw);
      if failed.Some? {
        return Err(failed.value), xs;
      }
      p := p + 1;
    }
    GiveStop(items, gifts, xs, p);
    res := Ok(());
  }

  /** One pass of the loop: player p's drop, or the error it raises. */
  method GiveTurn(maxCharges: int, ghost items: seq<Counts>, ghost gifts: seq<Result<Counts>>, xs: seq<Counts>,
                  p: nat, itemCount: int, draws: nat -> nat -> nat) returns (failed: Option<Error>, xs': seq<Counts>)
    requires GiveInv(items, gifts, xs, p) && p < 2 && !Full(xs, p)
    requires gifts == Gifts(maxCharges, items, itemCount, draws)
    ensures failed.Some? ==> (Err(failed.value), xs') == GiveFrom(items, gifts, 0)
    ensures failed.None? ==> GiveInv(items, gifts, xs', p + 1)
  {
    CoverAt(xs, p);
    GiftAt(maxCharges, items, xs, gifts, itemCount, draws, p);
    var g := DealTo(maxCharges, xs[p], itemCount, draws(p));
    if g.Err? {
      GiveErr(items, gifts, xs, p);
      return Some(g.error), xs;
    }
    GiveStep(items, gifts, xs, p);
    return None, xs[p := g.value];
  }

  /** The body of the `give_items` loop for one player. */
  method DealTo(maxCharges: int, player: Counts, itemCount: int, draw: nat -> nat) returns (r: Result<Counts>)
    requires Covers(player, NineKinds)
    ensures r == Gift(maxCharges, player, itemCount, draw)
  {
    var choices := Choices(maxCharges, player);
    var n := Allowance(itemCount, ItemCount(player, NineKinds));
    ChoicesMembers(maxCharges, player);
    if n <= 0 {
      return Ok(player);
    }
    if choices == [] {
      return Err(IndexError);
    }
    var g := Credit(player, DrawsFrom(choices, n, draw));
    return Ok(g);
  }

  lemma CoverAt(xs: seq<Counts>, p: nat)
    requires BothCover(xs) && p < 2
    ensures Covers(xs[p], NineKinds)
  {
    if p == 0 {
      assert Covers(xs[0], NineKinds);
    }
  }

  /** Player p, not yet reached by the loop, still has the record its drop
      was computed from. */
  lemma GiftAt(maxCharges: int, items: seq<Counts>, xs: seq<Counts>, gifts: seq<Result<Counts>>, itemCount: int,
               draws: nat -> nat -> nat, p: nat)
    requires GiveInv(items, gifts, xs, p) && p < 2 && gifts == Gifts(maxCharges, items, itemCount, draws)
    ensures Covers(xs[p], NineKinds) && gifts[p] == Gift(maxCharges, xs[p], itemCount, draws(p))
  {
    if p == 0 {
      assert xs[0] == items[0];
    } else {
      assert xs[1] == items[1];
    }
  }

  /** The loop has credited the players before p and left the others. */
  predicate GiveInv(items: seq<Counts>, gifts: seq<Result<Counts>>, xs: seq<Counts>, p: nat) {
    BothCover(items) && GiftsCover(gifts) && BothCover(xs) && p <= 2
    && (forall i :: p <= i < 2 ==> xs[i] == items[i])
    && GiveFrom(xs, gifts, p) == GiveFrom(items, gifts, 0)
  }

  lemma GiveStep(items: seq<Counts>, gifts: seq<Result<Counts>>, xs: seq<Counts>, p: nat)
    requires GiveInv(items, gifts, xs, p) && p < 2 && !Full(xs, p) && gifts[p].Ok?
    ensures GiveInv(items, gifts, xs[p := gifts[p].value], p + 1)
  {
    assert GiveFrom(xs, gifts, p) == GiveFrom(xs[p := gifts[p].value], gifts, p + 1);
  }

  lemma GiveErr(items: seq<Counts>, gifts: seq<Result<Counts>>, xs: seq<Counts>, p: nat)
    requires GiveInv(items, gifts, xs, p) && p < 2 && !Full(xs, p) && gifts[p].Err?
    ensures (Err(gifts[p].error), xs) == GiveFrom(items, gifts, 0)
  {
    assert GiveFrom(xs, gifts, p) == (Err(gifts[p].error), xs);
  }

  lemma GiveStop(items: seq<Counts>, gifts: seq<Result<Counts>>, xs: seq<Counts>, p: nat)
    requires GiveInv(items, gifts, xs, p) && (p == 2 || Full(xs, p))
    ensures (Ok(()), xs) == GiveFrom(items, gifts, 0)
  {
    assert GiveFrom(xs, gifts, p) == (Ok(()), xs);
  }

  /** A player's drop fails exactly when there is nothing to choose from
      and a positive number to draw; otherwise it adds exactly
      max(0, min(item_count, 8 - held)) items. */
  lemma GiftCount(maxCharges: int, player: Counts, itemCount: int, draw: nat -> nat)
    requires Covers(player, NineKinds)
    ensures var r := Gift(maxCharges, player, itemCount, draw);
      var n := Allowance(itemCount, ItemCount(player, NineKinds));
      && (r.Err? <==> Choices(maxCharges, player) == [] && n > 0)
      && (r.Ok? ==> ItemCount(r.value, NineKinds) == ItemCount(player, NineKinds) + Max(0, n))
  {
    var ch := Choices(maxCharges, player);
    var n := Allowance(itemCount, ItemCount(player, NineKinds));
    if n > 0 && ch != [] {
      ChoicesMembers(maxCharges, player);
      NineKindsDistinct();
      ItemCountCredited(player, DrawsFrom(ch, n, draw), NineKinds);
    }
  }

  /** Every kind a drop raises was a possible choice. */
  lemma GiftKinds(maxCharges: int, player: Counts, itemCount: int, draw: nat -> nat, k: Kind)
    requires Covers(player, NineKinds) && k in NineKinds
    requires var r := Gift(maxCharges, player, itemCount, draw); r.Ok? && r.value[k] != player[k]
    ensures Gift(maxCharges, player, itemCount, draw).value[k] > player[k]
    ensures k in Choices(maxCharges, player)
  {
    var ch := Choices(maxCharges, player);
    var n := Allowance(itemCount, ItemCount(player, NineKinds));
    ChoicesMembers(maxCharges, player);
    assert multiset(DrawsFrom(ch, n, draw))[k] != 0;
  }

  /** The loop over the two players, written out. */
  lemma GiveCases(items: seq<Counts>, gifts: seq<Result<Counts>>)
    requires BothCover(items) && GiftsCover(gifts)
    ensures var full0 := ItemCount(items[0], NineKinds) == MaxHeld;
      var full1 := ItemCount(items[1], NineKinds) == MaxHeld;
      var r := GiveFrom(items, gifts, 0);
      && (full0 ==> r == (Ok(()), items))
      && (!full0 && gifts[0].Err? ==> r == (Err(gifts[0].error), items))
      && (!full0 && gifts[0].Ok? && full1 ==> r == (Ok(()), items[0 := gifts[0].value]))
      && (!full0 && gifts[0].Ok? && !full1 && gifts[1].Err? ==> r == (Err(gifts[1].error), items[0 := gifts[0].value]))
      && (!full0 && gifts[0].Ok? && !full1 && gifts[1].Ok? ==> r == (Ok(()), [gifts[0].value, gifts[1].value]))
  {
    if ItemCount(items[0], NineKinds) != MaxHeld && gifts[0].Ok? {
      var items1 := items[0 := gifts[0].value];
      assert items1[1] == items[1];
      if ItemCount(items[1], NineKinds) != MaxHeld && gifts[1].Ok? {
        assert items1[1 := gifts[1].value] == [gifts[0].value, gifts[1].value];
      }
    }
  }

  /** After the loop a player holds its original record or its drop; all
      keep their records when player 0 holds exactly 8 items. */
  lemma GiveAt(items: seq<Counts>, gifts: seq<Result<Counts>>, q: nat)
    requires BothCover(items) && GiftsCover(gifts) && q < 2
    ensures var r := GiveFrom(items, gifts, 0).1;
      && (r[q] == items[q] || (gifts[q].Ok? && r[q] == gifts[q].value))
      && (ItemCount(items[0], NineKinds) == MaxHeld ==> r == items)
  {
    GiveCases(items, gifts);
  }

  /** What a player may gain from `give_items`: at most
      max(0, min(item_count, 8 - held)) items, and only of kinds below the
      cap, never the saw when the board has at most 2 charges. */
  predicate Gained(maxCharges: int, itemCount: int, before: Counts, after: Counts)
    requires Covers(before, NineKinds) && Covers(after, NineKinds)
  {
    var held := ItemCount(before, NineKinds);
    && held <= ItemCount(after, NineKinds) <= held + Max(0, Allowance(itemCount, held))
    && forall k :: k in NineKinds && after[k] != before[k] ==>
         after[k] > before[k] && before[k] < NineCaps[k] && !(maxCharges <= 2 && k == Saw)
  }

  /** A drop that succeeds gains only what `Gained` allows. */
  lemma GiftGained(maxCharges: int, player: Counts, itemCount: int, draw: nat -> nat)
    requires Covers(player, NineKinds) && Gift(maxCharges, player, itemCount, draw).Ok?
    ensures Gained(maxCharges, itemCount, player, Gift(maxCharges, player, itemCount, draw).value)
  {
    var after := Gift(maxCharges, player, itemCount, draw).value;
    GiftCount(maxCharges, player, itemCount, draw);
    ChoicesMembers(maxCharges, player);
    forall k | k in NineKinds && after[k] != player[k]
      ensures after[k] > player[k] && k in Choices(maxCharges, player)
    {
      GiftKinds(maxCharges, player, itemCount, draw, k);
    }
  }

  /** `give_items`: every player gains only what `Gained` allows, and when
      player 0 holds exactly 8 items nobody gets anything. */
  lemma GiveItemsEffect(maxCharges: int, items: seq<Counts>, itemCount: int, draw: nat -> nat -> nat)
    requires BothCover(items)
    ensures var r := GiveItems(maxCharges, items, itemCount, draw).1;
      && Gained(maxCharges, itemCount, items[0], r[0])
      && Gained(maxCharges, itemCount, items[1], r[1])
      && (ItemCount(items[0], NineKinds) == MaxHeld ==> r == items)
  {
    var r := GiveItems(maxCharges, items, itemCount, draw).1;
    var gifts := Gifts(maxCharges, items, itemCount, draw);
    GiveAt(items, gifts, 0);
    GiveAt(items, gifts, 1);
    if r[0] != items[0] {
      GiftGained(maxCharges, items[0], itemCount, draw(0));
    }
    if r[1] != items[1] {
      GiftGained(maxCharges, items[1], itemCount, draw(1));
    }
  }

  lemma ItemCountCons(c: Counts, k: Kind, rest: seq<Kind>)
    requires Covers(c, [k] + rest)
    ensures ItemCount(c, [k] + rest) == c[k] + ItemCount(c, rest)
  {
    assert ([k] + rest)[1..] == rest;
  }

  /** The nine counts of a record, added up. */
  lemma ItemCountNine(player: Counts)
    requires Covers(player, NineKinds)
    ensures ItemCount(player, NineKinds) == player[Handcuffs] + player[MagnifyingGlass] + player[Beer]
      + player[Cigarettes] + player[Saw] + player[Inverter] + player[BurnerPhone] + player[Meds] + player[Adrenaline]
  {
    var s8: seq<Kind> := [Adrenaline];
    var s7 := [Meds] + s8;
    var s6 := [BurnerPhone] + s7;
    var s5 := [Inverter] + s6;
    var s4 := [Saw] + s5;
    var s3 := [Cigarettes] + s4;
    var s2 := [Beer] + s3;
    var s1 := [MagnifyingGlass] + s2;
    assert NineKinds == [Handcuffs] + s1;
    ItemCountCons(player, Adrenaline, []);
    assert [Adrenaline] + [] == s8;
    ItemCountCons(player, Meds, s8);
    ItemCountCons(player, BurnerPhone, s7);
    ItemCountCons(player, Inverter, s6);
    ItemCountCons(player, Saw, s5);
    ItemCountCons(player, Cigarettes, s4);
    ItemCountCons(player, Beer, s3);
    ItemCountCons(player, MagnifyingGlass, s2);
    ItemCountCons(player, Handcuffs, s1);
  }

  /** A record with no negative count and every kind but the saw at its
      cap holds at least 19 items, more than 8. */
  lemma FullRecord(player: Counts)
    requires Covers(player, NineKinds) && player[Saw] >= 0
    requires player[Handcuffs] >= 1 && player[MagnifyingGlass] >= 3 && player[Beer] >= 2 && player[Cigarettes] >= 1
    requires player[Inverter] >= 8 && player[BurnerPhone] >= 1 && player[Meds] >= 1 && player[Adrenaline] >= 2
    ensures ItemCount(player, NineKinds) > MaxHeld
  {
    ItemCountNine(player);
  }

  /** With no negative count a player's drop never raises: a record with
      nothing left to choose from already holds more than 8 items. */
  lemma GiftNeverFails(maxCharges: int, player: Counts, itemCount: int, draw: nat -> nat)
    requires Covers(player, NineKinds) && forall k :: k in NineKinds ==> player[k] >= 0
    ensures Gift(maxCharges, player, itemCount, draw).Ok?
  {
    GiftCount(maxCharges, player, itemCount, draw);
    if Choices(maxCharges, player) == [] {
      NothingToChoose(maxCharges, player);
    }
  }

  /** A record with no negative saw count and nothing left to choose from
      holds more than 8 items: every other kind is at its cap. */
  lemma NothingToChoose(maxCharges: int, player: Counts)
    requires Covers(player, NineKinds) && Choices(maxCharges, player) == [] && player[Saw] >= 0
    ensures ItemCount(player, NineKinds) > MaxHeld
  {
    AtCap(maxCharges, player, Handcuffs);
    AtCap(maxCharges, player, MagnifyingGlass);
    AtCap(maxCharges, player, Beer);
    AtCap(maxCharges, player, Cigarettes);
    AtCap(maxCharges, player, Inverter);
    AtCap(maxCharges, player, BurnerPhone);
    AtCap(maxCharges, player, Meds);
    AtCap(maxCharges, player, Adrenaline);
    NineCapsValues();
    FullRecord(player);
  }

  lemma AtCap(maxCharges: int, player: Counts, k: Kind)
    requires Covers(player, NineKinds) && Choices(maxCharges, player) == [] && k in NineKinds && k != Saw
    ensures player[k] >= NineCaps[k]
  {
    ChoicesMembers(maxCharges, player);
  }

  /** With no negative count `give_items` never raises. */
  lemma GiveItemsNeverFails(maxCharges: int, items: seq<Counts>, itemCount: int, draw: nat -> nat -> nat)
    requires BothCover(items)
    requires forall p, k :: 0 <= p < 2 && k in NineKinds ==> items[p][k] >= 0
    ensures GiveItems(maxCharges, items, itemCount, draw).0 == Ok(())
  {
    GiftNeverFails(maxCharges, items[0], itemCount, draw(0));
    GiftNeverFails(maxCharges, items[1], itemCount, draw(1));
    GiveCases(items, Gifts(maxCharges, items, itemCount, draw));
  }

  /** On two empty records `give_items` never raises, and it deals each
      player exactly min(item_count, 8) items (none for a count below 1). */
  lemma GiveFresh(maxCharges: int, itemCount: int, draw: nat -> nat -> nat)
    ensures var r := GiveItems(maxCharges, [Zero(NineKinds), Zero(NineKinds)], itemCount, draw);
      && r.0 == Ok(())
      && ItemCount(r.1[0], NineKinds) == Max(0, Min(itemCount, MaxHeld))
      && ItemCount(r.1[1], NineKinds) == Max(0, Min(itemCount, MaxHeld))
  {
    var z := Zero(NineKinds);
    var items := [z, z];
    var gifts := Gifts(maxCharges, items, itemCount, draw);
    FreshGift(maxCharges, itemCount, draw(0));
    FreshGift(maxCharges, itemCount, draw(1));
    ItemCountZero(NineKinds);
    GiveBoth(items, gifts);
  }

  /** An empty record's drop succeeds with exactly max(0, min(item_count, 8)) items. */
  lemma FreshGift(maxCharges: int, itemCount: int, draw: nat -> nat)
    ensures Covers(Zero(NineKinds), NineKinds)
    ensures var r := Gift(maxCharges, Zero(NineKinds), itemCount, draw);
      r.Ok? && ItemCount(r.value, NineKinds) == Max(0, Min(itemCount, MaxHeld))
  {
    var z := Zero(NineKinds);
    ItemCountZero(NineKinds);
    GiftNeverFails(maxCharges, z, itemCount, draw);
    GiftCount(maxCharges, z, itemCount, draw);
  }

  /** Neither player full and both drops made: both records are replaced. */
  lemma GiveBoth(items: seq<Counts>, gifts: seq<Result<Counts>>)
    requires BothCover(items) && GiftsCover(gifts)
    requires !Full(items, 0) && !Full(items, 1) && gifts[0].Ok? && gifts[1].Ok?
    ensures GiveFrom(items, gifts, 0) == (Ok(()), [gifts[0].value, gifts[1].value])
  {
    var items1 := items[0 := gifts[0].value];
    assert items1[1] == items[1];
    assert items1[1 := gifts[1].value] == [gifts[0].value, gifts[1].value];
  }
}
