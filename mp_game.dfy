/** The first N-player board, buckshot_roulette/mp_game.py.

    Its state is that of the later N-player board (seats, a turn, a turn
    direction, one item record per seat and a set of statuses) plus
    `max_charges`, the starting seat and the round counts `reload` sets.
    The shotgun is not stored: `make_move` receives the caller's shell list.
    The file differs from the later board in ways that change what it does:

    - the first six `GameStatus` members are written with a trailing comma,
      so their values are one-element tuples and `GameStatus(n)` finds no
      member for n in 0 .. 5;
    - `make_move` reads the target of `shoot_<k>` and `jammer_<k>` with
      `int(move.split('_')[0])`, which parses the word itself and raises;
    - beer rebinds its local shell list, so the caller's list keeps the shell.

    The record has a meds field, but meds are never given (both caps are 0)
    and never spent (`make_move` raises first), so every record holds 0 meds
    and iterating it lists what the later board's record would list. */
module MpGame {
  import opened Common
  import opened Inventory
  import MG = MultiplayerGame

  /** `POSSIBLE_ITEMS`: the kinds of this board's record, in iteration order. */
  const Order: seq<Kind> := [Saw, MagnifyingGlass, Jammer, Cigarettes, Beer, BurnerPhone, Meds, Adrenaline, Inverter, Remote]

  lemma OrderDistinct()
    ensures Distinct(Order)
  {
  }

  /** The kinds are the later board's and meds. */
  lemma OrderAsLater()
    ensures forall k :: k in Order <==> k in MG.Order || k == Meds
  {
  }

  /** `ITEM_CAPS`. */
  const ItemCaps: Counts := map[Saw := 2, MagnifyingGlass := 2, Jammer := 1, Cigarettes := 1, Beer := 8,
                                BurnerPhone := 8, Meds := 0, Inverter := 4, Adrenaline := 4, Remote := 1]

  /** `GLOBAL_ITEM_CAPS`. */
  const GlobalItemCaps: Counts := map[Saw := 64, MagnifyingGlass := 64, Jammer := 1, Cigarettes := 64, Beer := 64,
                                      BurnerPhone := 64, Meds := 0, Inverter := 64, Adrenaline := 64, Remote := 2]

  const MaxHeld := 8

  // ------------------------------------------------------------------ Items

  /** `Items.item_count()`, the ten fields in the order it adds them. */
  function ItemTotal(c: Counts): int
    requires Covers(c, Order)
  {
    c[Jammer] + c[MagnifyingGlass] + c[Beer] + c[Saw] + c[Cigarettes] + c[Inverter] + c[BurnerPhone]
      + c[Meds] + c[Adrenaline] + c[Remote]
  }

  /** `item_count()` is the sum of every field of the record. */
  lemma ItemTotalSumsAll(c: Counts)
    requires Covers(c, Order)
    ensures ItemTotal(c) == ItemCount(c, Order)
  {
    ItemCountTen(c);
  }

  /** The ten counts of a record, added up in iteration order. */
  lemma ItemCountTen(c: Counts)
    requires Covers(c, Order)
    ensures ItemCount(c, Order) == c[Saw] + c[MagnifyingGlass] + c[Jammer] + c[Cigarettes] + c[Beer] + c[BurnerPhone]
      + c[Meds] + c[Adrenaline] + c[Inverter] + c[Remote]
  {
    var s9: seq<Kind> := [Remote];
    var s8 := [Inverter] + s9;
    var s7 := [Adrenaline] + s8;
    var s6 := [Meds] + s7;
    var s5 := [BurnerPhone] + s6;
    var s4 := [Beer] + s5;
    var s3 := [Cigarettes] + s4;
    var s2 := [Jammer] + s3;
    var s1 := [MagnifyingGlass] + s2;
    assert Order == [Saw] + s1;
    ItemCountTail(c, Remote, []);
    assert [Remote] + [] == s9;
    ItemCountTail(c, Inverter, s9);
    ItemCountTail(c, Adrenaline, s8);
    ItemCountTail(c, Meds, s7);
    ItemCountTail(c, BurnerPhone, s6);
    ItemCountTail(c, Beer, s5);
    ItemCountTail(c, Cigarettes, s4);
    ItemCountTail(c, Jammer, s3);
    ItemCountTail(c, MagnifyingGlass, s2);
    ItemCountTail(c, Saw, s1);
  }

  lemma ItemCountTail(c: Counts, k: Kind, rest: seq<Kind>)
    requires Covers(c, [k] + rest)
    ensures ItemCount(c, [k] + rest) == c[k] + ItemCount(c, rest)
  {
    assert ([k] + rest)[1..] == rest;
  }

  /** A record this board can hold: every field, and no meds. */
  predicate Rec(c: Counts) {
    Covers(c, Order) && c[Meds] == 0
  }

  predicate AllRec(items: seq<Counts>) {
    forall p :: 0 <= p < |items| ==> Rec(items[p])
  }

  /** Iterating a record skips a kind it does not hold. */
  lemma {:induction false} HeldWithout(c: Counts, a: seq<Kind>, k: Kind, b: seq<Kind>)
    requires Covers(c, a + [k] + b) && c[k] < 1
    ensures Held(c, a + [k] + b) == Held(c, a + b)
    decreases |a|
  {
    if a == [] {
      assert a + [k] + b == [k] + b && ([k] + b)[1..] == b && a + b == b;
    } else {
      assert (a + [k] + b)[1..] == a[1..] + [k] + b;
      assert (a + b)[1..] == a[1..] + b;
      HeldWithout(c, a[1..], k, b);
    }
  }

  /** With no meds, iterating this board's record lists the same kinds, in
      the same order, as iterating the later board's record. */
  lemma IterationAsLater(c: Counts)
    requires Rec(c)
    ensures Held(c, Order) == Held(c, MG.Order)
  {
    assert Order == MG.Order[..6] + [Meds] + MG.Order[6..];
    assert MG.Order == MG.Order[..6] + MG.Order[6..];
    HeldWithout(c, MG.Order[..6], Meds, MG.Order[6..]);
  }

  // --------------------------------------------------------------- statuses

  /** The value of a `GameStatus` member: an integer, or the one-element
      tuple a trailing comma makes of it. */
  datatype EnumValue = Int(n: int) | Tuple(n: int)

  /** The members' values as written: `JAMMED_0 = 0,` is the tuple `(0,)`. */
  function ValueOf(st: MG.Status): EnumValue
  {
    match st
    case Jammed0 => Tuple(0)
    case Jammed1 => Tuple(1)
    case Jammed2 => Tuple(2)
    case Jammed3 => Tuple(3)
    case AdrenalineActive => Tuple(4)
    case InverterUncertainty => Tuple(5)
    case SawedOff => Int(6)
  }

  /** `GameStatus(v)`: the member whose value is v; None is the ValueError. */
  function Lookup(v: EnumValue): (r: Option<MG.Status>)
    ensures r.Some? ==> ValueOf(r.value) == v
    ensures r.None? ==> forall st :: ValueOf(st) != v
  {
    match v
    case Int(n) => if n == 6 then Some(MG.SawedOff) else None
    case Tuple(n) =>
      if n == 0 then Some(MG.Jammed0)
      else if n == 1 then Some(MG.Jammed1)
      else if n == 2 then Some(MG.Jammed2)
      else if n == 3 then Some(MG.Jammed3)
      else if n == 4 then Some(MG.AdrenalineActive)
      else if n == 5 then Some(MG.InverterUncertainty)
      else None
  }

  /** Looking a seat number up as an integer finds a member only for 6. */
  lemma LookupInt(n: int)
    ensures Lookup(Int(n)).Some? <==> n == 6
    ensures n == 6 ==> Lookup(Int(n)) == Some(MG.SawedOff)
  {
  }

  // ------------------------------------------------------------------ state

  /** The board's fields as a value; `total` and `live` exist only once
      `reload` has run. */
  datatype State = State(maxCharges: int, playerCount: int, charges: seq<int>, starter: int, currentTurn: int,
                         turnInc: int, items: seq<Counts>, statuses: set<MG.Status>,
                         chamberPublic: Option<bool>, total: Option<int>, live: Option<int>)

  /** What every board satisfies between calls. */
  predicate Inv(s: State) {
    s.playerCount >= 1 && |s.charges| == s.playerCount && |s.items| == s.playerCount && AllRec(s.items)
    && 0 <= s.currentTurn < s.playerCount && (s.turnInc == 1 || s.turnInc == -1)
  }

  /** `max_charges`: the given count, or `randint(3, 5)` when it is None or 0. */
  function Charges(chargeCount: int, chargeRoll: nat): (r: int)
    ensures chargeCount != 0 ==> r == chargeCount
    ensures chargeCount == 0 ==> 3 <= r <= 5
  {
    if chargeCount != 0 then chargeCount else 3 + chargeRoll % 3
  }

  /** The board `__init__` builds before its `give_items`. */
  function Fresh(maxCharges: int, playerCount: nat, startPlayer: int): (r: State)
    requires playerCount >= 1 && 0 <= startPlayer < playerCount
    ensures Inv(r)
  {
    State(maxCharges, playerCount, seq(playerCount, _ => maxCharges), startPlayer, startPlayer, 1,
          seq(playerCount, _ => Zero(Order)), {}, None, None, None)
  }

  // ------------------------------------------------------------------ seats

  /** `offset_to_idx`. */
  function OffsetToIdx(s: State, offset: int): (r: int)
    requires s.playerCount >= 1
    ensures 0 <= r < s.playerCount
  {
    (s.currentTurn + offset) % s.playerCount
  }

  /** `idx_to_offset`. */
  function IdxToOffset(s: State, idx: int): (r: int)
    requires s.playerCount >= 1
    ensures 0 <= r < s.playerCount
  {
    (idx - s.currentTurn) % s.playerCount
  }

  /** `idx_to_offset` undoes `offset_to_idx`, modulo the number of seats. */
  lemma OffsetRoundTrip(s: State, offset: int)
    requires s.playerCount >= 1
    ensures IdxToOffset(s, OffsetToIdx(s, offset)) == offset % s.playerCount
  {
    ShiftBack(s.currentTurn, offset, s.playerCount);
  }

  /** `offset_to_idx` undoes `idx_to_offset`, modulo the number of seats. */
  lemma IdxRoundTrip(s: State, idx: int)
    requires s.playerCount >= 1
    ensures OffsetToIdx(s, IdxToOffset(s, idx)) == idx % s.playerCount
  {
    ShiftForward(s.currentTurn, idx, s.playerCount);
  }

  /** The offsets of a list of seats. */
  function Offsets(s: State, seats: seq<nat>): (r: seq<int>)
    requires s.playerCount >= 1
    ensures |r| == |seats|
    ensures forall j :: 0 <= j < |r| ==> r[j] == IdxToOffset(s, seats[j])
  {
    if seats == [] then [] else [IdxToOffset(s, seats[0])] + Offsets(s, seats[1..])
  }

  /** `living_players(as_offset)`. */
  function LivingPlayers(s: State, asOffset: bool): (r: seq<int>)
    requires Inv(s)
  {
    if asOffset then Offsets(s, MG.Living(s.charges)) else MG.Living(s.charges)
  }

  /** The seats listed are exactly those with charges left, in increasing
      order, and the j-th offset listed leads back to the j-th seat. */
  lemma LivingPlayersListed(s: State)
    requires Inv(s)
    ensures forall i :: i in LivingPlayers(s, false) <==> 0 <= i < s.playerCount && s.charges[i] > 0
    ensures forall j, k :: 0 <= j < k < |LivingPlayers(s, false)| ==> LivingPlayers(s, false)[j] < LivingPlayers(s, false)[k]
    ensures |LivingPlayers(s, true)| == |LivingPlayers(s, false)|
    ensures forall j :: 0 <= j < |LivingPlayers(s, true)| ==>
      OffsetToIdx(s, LivingPlayers(s, true)[j]) == LivingPlayers(s, false)[j]
  {
    var seats := MG.Living(s.charges);
    MG.LivingMembers(s.charges);
    var offsets := Offsets(s, seats);
    forall j | 0 <= j < |offsets| ensures OffsetToIdx(s, offsets[j]) == seats[j] {
      var i := seats[j];
      IdxRoundTrip(s, i);
      ModUnique(i, s.playerCount, 0, i);
    }
  }

  // ------------------------------------------------------------ give_items

  /** A kind's count summed over all records. */
  function SumKind(items: seq<Counts>, k: Kind): int
    requires AllRec(items) && k in Order
  {
    if items == [] then 0 else SumKind(items[..|items| - 1], k) + items[|items| - 1][k]
  }

  /** `global_count`: per kind, the count over all records. */
  function GlobalCount(items: seq<Counts>): (r: Counts)
    requires AllRec(items)
    ensures Covers(r, Order)
    ensures forall k :: k in Order ==> r[k] == SumKind(items, k)
  {
    map k | k in Order :: SumKind(items, k)
  }

  /** `choices`: the kinds below both caps, without the saw when the board
      has at most 2 charges. */
  function Choices(maxCharges: int, player: Counts, global: Counts): (r: seq<Kind>)
    requires Covers(player, Order) && Covers(global, Order)
  {
    var e := EligibleGlobal(Order, player, ItemCaps, global, GlobalItemCaps);
    if maxCharges <= 2 && Saw in e then RemoveFirst(e, Saw) else e
  }

  /** The choices are exactly the kinds below both caps, less the saw on a
      board of at most 2 charges. */
  lemma ChoicesMembers(maxCharges: int, player: Counts, global: Counts)
    requires Covers(player, Order) && Covers(global, Order)
    ensures forall k :: k in Choices(maxCharges, player, global) <==>
      k in Order && player[k] < ItemCaps[k] && global[k] < GlobalItemCaps[k] && !(maxCharges <= 2 && k == Saw)
  {
    OrderDistinct();
  }

  /** Meds are never a choice for a record that holds none: their caps are 0. */
  lemma MedsNeverOffered(maxCharges: int, player: Counts, global: Counts)
    requires Rec(player) && Covers(global, Order)
    ensures Meds !in Choices(maxCharges, player, global)
  {
    ChoicesMembers(maxCharges, player, global);
    assert ItemCaps[Meds] == 0;
  }

  /** One player's drop: `random.choices(choices, k=n)` credited to the
      record, with n = min(item_count, 8 - held).  A count n <= 0 draws
      nothing; an empty list with n > 0 raises IndexError. */
  function Gift(maxCharges: int, player: Counts, global: Counts, itemCount: int, draw: nat -> nat): (r: Result<Counts>)
    requires Rec(player) && Covers(global, Order)
    ensures r.Ok? ==> Rec(r.value)
    ensures r.Err? ==> r.error == IndexError
  {
    var ch := Choices(maxCharges, player, global);
    var n := MG.Allowance(itemCount, ItemCount(player, Order));
    if n == 0 then Ok(player)
    else if ch == [] then Err(IndexError)
    else
      var ks := DrawsFrom(ch, n, draw);
      MedsNeverOffered(maxCharges, player, global);
      CreditedRec(player, ks);
      Ok(Credited(player, ks))
  }

  /** Crediting kinds other than meds keeps a record one this board can hold. */
  lemma CreditedRec(player: Counts, ks: seq<Kind>)
    requires Rec(player) && Meds !in ks && forall k :: k in ks ==> k in Order
    ensures Rec(Credited(player, ks))
  {
    assert multiset(ks)[Meds] == 0;
  }

  predicate GiftsRec(gifts: seq<Result<Counts>>) {
    forall p :: 0 <= p < |gifts| ==> if gifts[p].Ok? then Rec(gifts[p].value) else gifts[p].error == IndexError
  }

  /** Every player's drop, from the records and the counts over all records
      as the call starts. */
  function Gifts(maxCharges: int, items: seq<Counts>, global: Counts, itemCount: int, draw: nat -> nat -> nat)
    : (r: seq<Result<Counts>>)
    requires AllRec(items) && Covers(global, Order)
    ensures |r| == |items| && GiftsRec(r)
    ensures forall p :: 0 <= p < |items| ==> r[p] == Gift(maxCharges, items[p], global, itemCount, draw(p))
  {
    var r := seq(|items|, p requires 0 <= p < |items| => Gift(maxCharges, items[p], global, itemCount, draw(p)));
    assert forall p :: 0 <= p < |r| ==> r[p] == Gift(maxCharges, items[p], global, itemCount, draw(p));
    GiftsAreRec(maxCharges, items, global, itemCount, draw, r);
    r
  }

  lemma GiftsAreRec(maxCharges: int, items: seq<Counts>, global: Counts, itemCount: int, draw: nat -> nat -> nat,
                    r: seq<Result<Counts>>)
    requires AllRec(items) && Covers(global, Order) && |r| == |items|
    requires forall p :: 0 <= p < |r| ==> r[p] == Gift(maxCharges, items[p], global, itemCount, draw(p))
    ensures GiftsRec(r)
  {
    forall p | 0 <= p < |r|
      ensures if r[p].Ok? then Rec(r[p].value) else r[p].error == IndexError
    {
      var g := Gift(maxCharges, items[p], global, itemCount, draw(p));
      assert r[p] == g;
    }
  }

  /** `for player in self.items` from seat p on: each seat takes its drop;
      the loop stops at the first seat holding exactly 8 items, and an
      IndexError leaves the seats before it credited. */
  function GiveFrom(items: seq<Counts>, gifts: seq<Result<Counts>>, p: nat): (r: (Result<()>, seq<Counts>))
    requires AllRec(items) && GiftsRec(gifts) && |gifts| == |items|
    ensures |r.1| == |items| && AllRec(r.1)
    ensures r.0.Err? ==> r.0.error == IndexError
    decreases |items| - p
  {
    if p >= |items| || ItemCount(items[p], Order) == MaxHeld then (Ok(()), items)
    else if gifts[p].Err? then (Err(gifts[p].error), items)
    else GiveFrom(items[p := gifts[p].value], gifts, p + 1)
  }

  /** `give_items(item_count)`; draw(p) are seat p's picks. */
  function GiveItemsSpec(maxCharges: int, items: seq<Counts>, itemCount: int, draw: nat -> nat -> nat)
    : (r: (Result<()>, seq<Counts>))
    requires AllRec(items)
    ensures |r.1| == |items| && AllRec(r.1)
    ensures r.0.Err? ==> r.0.error == IndexError
  {
    GiveFrom(items, Gifts(maxCharges, items, GlobalCount(items), itemCount, draw), 0)
  }

  /** Seat q is reached: no seat up to q holds exactly 8 items. */
  predicate Reached(items: seq<Counts>, q: nat)
    requires AllRec(items) && q < |items|
  {
    forall i :: 0 <= i <= q ==> ItemCount(items[i], Order) != MaxHeld
  }

  /** After the loop a seat holds its drop or its original record; a seat
      that is not reached keeps its record. */
  lemma {:induction false} GiveFromAt(items: seq<Counts>, gifts: seq<Result<Counts>>, p: nat, orig: seq<Counts>, q: nat)
    requires AllRec(items) && GiftsRec(gifts) && AllRec(orig)
    requires |items| == |orig| == |gifts| && p <= |items| && q < |items|
    requires forall i :: p <= i < |items| ==> items[i] == orig[i]
    requires forall i :: 0 <= i < p ==> ItemCount(orig[i], Order) != MaxHeld
    ensures var r := GiveFrom(items, gifts, p).1;
      && (q < p ==> r[q] == items[q])
      && (p <= q ==> r[q] == orig[q] || (Reached(orig, q) && gifts[q].Ok? && r[q] == gifts[q].value))
    decreases |items| - p
  {
    if p >= |items| {
    } else if ItemCount(items[p], Order) == MaxHeld {
    } else if gifts[p].Err? {
    } else {
      GiveFromAt(items[p := gifts[p].value], gifts, p + 1, orig, q);
      if q == p {
        assert Reached(orig, p);
      }
    }
  }

  /** A drop fails exactly when there is nothing to choose from and a
      positive number to draw; otherwise it adds exactly
      max(0, min(item_count, 8 - held)) items. */
  lemma GiftCount(maxCharges: int, player: Counts, global: Counts, itemCount: int, draw: nat -> nat)
    requires Rec(player) && Covers(global, Order)
    ensures var r := Gift(maxCharges, player, global, itemCount, draw);
      var n := MG.Allowance(itemCount, ItemCount(player, Order));
      && (r.Err? <==> Choices(maxCharges, player, global) == [] && n > 0)
      && (r.Ok? ==> ItemCount(r.value, Order) == ItemCount(player, Order) + n)
  {
    var ch := Choices(maxCharges, player, global);
    var n := MG.Allowance(itemCount, ItemCount(player, Order));
    if n > 0 && ch != [] {
      OrderDistinct();
      ChoicesMembers(maxCharges, player, global);
      ItemCountCredited(player, DrawsFrom(ch, n, draw), Order);
    }
  }

  /** Every kind a drop raises was a choice: never meds, never the saw on a
      board of at most 2 charges. */
  lemma GiftKinds(maxCharges: int, player: Counts, global: Counts, itemCount: int, draw: nat -> nat, k: Kind)
    requires Rec(player) && Covers(global, Order) && k in Order
    requires var r := Gift(maxCharges, player, global, itemCount, draw); r.Ok? && r.value[k] != player[k]
    ensures Gift(maxCharges, player, global, itemCount, draw).value[k] > player[k]
    ensures k in Choices(maxCharges, player, global) && k != Meds && !(maxCharges <= 2 && k == Saw)
  {
    var ch := Choices(maxCharges, player, global);
    var n := MG.Allowance(itemCount, ItemCount(player, Order));
    assert multiset(DrawsFrom(ch, n, draw))[k] != 0;
    MedsNeverOffered(maxCharges, player, global);
    ChoicesMembers(maxCharges, player, global);
  }

  /** `give_items`: a seat gains at most min(item_count, 8 - held) items,
      only of kinds below both caps counted as the call starts, never meds
      and never the saw on a board of at most 2 charges; the seats from the
      first one holding exactly 8 items on get nothing. */
  lemma GiveItemsEffect(maxCharges: int, items: seq<Counts>, itemCount: int, draw: nat -> nat -> nat, q: nat)
    requires AllRec(items) && q < |items|
    ensures var r := GiveItemsSpec(maxCharges, items, itemCount, draw).1;
      var global := GlobalCount(items);
      var held := ItemCount(items[q], Order);
      && (!Reached(items, q) ==> r[q] == items[q])
      && held <= ItemCount(r[q], Order) <= held + MG.Allowance(itemCount, held)
      && forall k :: k in Order && r[q][k] != items[q][k] ==>
           r[q][k] > items[q][k] && items[q][k] < ItemCaps[k] && global[k] < GlobalItemCaps[k]
           && k != Meds && !(maxCharges <= 2 && k == Saw)
  {
    var global := GlobalCount(items);
    var gifts := Gifts(maxCharges, items, global, itemCount, draw);
    var r := GiveItemsSpec(maxCharges, items, itemCount, draw).1;
    GiveFromAt(items, gifts, 0, items, q);
    GiftCount(maxCharges, items[q], global, itemCount, draw(q));
    forall k | k in Order && r[q][k] != items[q][k]
      ensures r[q][k] > items[q][k] && k in Choices(maxCharges, items[q], global) && k != Meds
    {
      GiftKinds(maxCharges, items[q], global, itemCount, draw(q), k);
    }
    ChoicesMembers(maxCharges, items[q], global);
  }

  /** Each record's count of each kind over the first n records is 0 when
      they are all empty. */
  lemma {:induction false} SumKindZero(items: seq<Counts>, k: Kind)
    requires AllRec(items) && k in Order
    requires forall p :: 0 <= p < |items| ==> items[p] == Zero(Order)
    ensures SumKind(items, k) == 0
    decreases |items|
  {
    if items != [] {
      SumKindZero(items[..|items| - 1], k);
    }
  }

  /** On empty records `give_items` never raises and gives every seat
      exactly max(0, min(item_count, 8)) items: the magnifying glass is
      always a choice. */
  lemma GiveFresh(maxCharges: int, items: seq<Counts>, itemCount: int, draw: nat -> nat -> nat, q: nat)
    requires AllRec(items) && q < |items|
    requires forall p :: 0 <= p < |items| ==> items[p] == Zero(Order)
    ensures var r := GiveItemsSpec(maxCharges, items, itemCount, draw);
      r.0 == Ok(()) && ItemCount(r.1[q], Order) == Max(0, Min(itemCount, MaxHeld))
  {
    var global := GlobalCount(items);
    SumKindZero(items, MagnifyingGlass);
    var gifts := Gifts(maxCharges, items, global, itemCount, draw);
    forall p | 0 <= p < |items|
      ensures gifts[p].Ok? && ItemCount(gifts[p].value, Order) == Max(0, Min(itemCount, MaxHeld))
    {
      GiftFresh(maxCharges, global, itemCount, draw(p));
    }
    GiveFreshFrom(items, gifts, 0, Max(0, Min(itemCount, MaxHeld)), q);
  }

  /** An empty record's drop succeeds while nobody holds a magnifying glass. */
  lemma GiftFresh(maxCharges: int, global: Counts, itemCount: int, draw: nat -> nat)
    requires Covers(global, Order) && global[MagnifyingGlass] == 0
    ensures var r := Gift(maxCharges, Zero(Order), global, itemCount, draw);
      r.Ok? && ItemCount(r.value, Order) == Max(0, Min(itemCount, MaxHeld))
  {
    GlassOffered(maxCharges, global);
    ItemCountZero(Order);
    GiftCount(maxCharges, Zero(Order), global, itemCount, draw);
  }

  /** An empty record may always be dealt a magnifying glass while nobody
      holds one. */
  lemma GlassOffered(maxCharges: int, global: Counts)
    requires Covers(global, Order) && global[MagnifyingGlass] == 0
    ensures Rec(Zero(Order)) && MagnifyingGlass in Choices(maxCharges, Zero(Order), global)
  {
    ChoicesMembers(maxCharges, Zero(Order), global);
  }

  /** From seat p on, with every drop succeeding and giving n items to an
      empty record, the loop succeeds and seat q ends with n items. */
  lemma {:induction false} GiveFreshFrom(items: seq<Counts>, gifts: seq<Result<Counts>>, p: nat, n: int, q: nat)
    requires AllRec(items) && GiftsRec(gifts) && |gifts| == |items| && q < |items| && 0 <= n <= MaxHeld
    requires forall i :: p <= i < |items| ==> items[i] == Zero(Order)
    requires forall i :: 0 <= i < q && i < p ==> ItemCount(items[i], Order) == n
    requires forall i :: 0 <= i < |items| ==> gifts[i].Ok? && ItemCount(gifts[i].value, Order) == n
    requires q < p ==> ItemCount(items[q], Order) == n
    ensures var r := GiveFrom(items, gifts, p); r.0 == Ok(()) && ItemCount(r.1[q], Order) == n
    decreases |items| - p
  {
    ItemCountZero(Order);
    if p < |items| {
      GiveFreshFrom(items[p := gifts[p].value], gifts, p + 1, n, q);
    }
  }

  // ---------------------------------------------------------------- reload

  /** `valid_sequences`: the (live, blank) pairs of each player count;
      another count raises KeyError (None here). */
  function ValidSequences(playerCount: int): (r: Option<seq<(int, int)>>)
    ensures r.Some? <==> 2 <= playerCount <= 4
    ensures r.Some? ==> |r.value| >= 9
    ensures r.Some? ==>
      forall j :: 0 <= j < |r.value| ==> 1 <= r.value[j].0 && 1 <= r.value[j].1 && r.value[j].0 + r.value[j].1 <= 8
  {
    if playerCount == 2 then Some([(1, 2), (2, 1), (2, 2), (3, 2), (1, 1), (2, 3), (3, 3), (3, 1), (4, 2)])
    else if playerCount == 3 then Some([(2, 3), (3, 2), (3, 3), (4, 3), (2, 2), (3, 4), (4, 4), (4, 2), (3, 1), (1, 1)])
    else if playerCount == 4 then Some([(3, 4), (3, 2), (3, 3), (4, 3), (2, 2), (3, 4), (4, 4), (4, 2), (3, 1), (2, 1)])
    else None
  }

  /** `reload(drop_items)`: the statuses are cleared, `random.choice` picks
      entry `pick` (modulo their number) of the player count's sequences,
      and, when dropping, `give_items(randint(3, 5))` deals 3 + itemRoll % 3. */
  function ReloadSpec(s: State, dropItems: bool, pick: nat, itemRoll: nat, draw: nat -> nat -> nat): (r: (Result<()>, State))
    requires Inv(s)
    ensures Inv(r.1)
  {
    var s1 := s.(statuses := {});
    match ValidSequences(s.playerCount)
    case None => (Err(KeyError), s1)
    case Some(seqs) => Arranged(s1, seqs[pick % |seqs|], dropItems, itemRoll, draw)
  }

  /** The rest of `reload` once the (live, blank) pair `a` is chosen. */
  function Arranged(s: State, a: (int, int), dropItems: bool, itemRoll: nat, draw: nat -> nat -> nat): (r: (Result<()>, State))
    requires Inv(s)
    ensures Inv(r.1)
  {
    var s2 := s.(total := Some(a.0 + a.1), live := Some(a.0));
    if dropItems then
      var g := GiveItemsSpec(s2.maxCharges, s2.items, 3 + itemRoll % 3, draw);
      (g.0, s2.(items := g.1))
    else (Ok(()), s2)
  }

  /** A reload with a player count that has no sequences clears the
      statuses, then raises KeyError. */
  lemma ReloadRaises(s: State, dropItems: bool, pick: nat, itemRoll: nat, draw: nat -> nat -> nat)
    requires Inv(s)
    ensures !(2 <= s.playerCount <= 4) <==>
      ReloadSpec(s, dropItems, pick, itemRoll, draw) == (Err(KeyError), s.(statuses := {}))
  {
  }

  /** Otherwise the statuses are cleared, `live` and `total - live` are one
      of that count's pairs, so 1 <= live < total <= 8, and only the items
      may change besides; without a drop they do not and nothing raises. */
  lemma ReloadEffect(s: State, dropItems: bool, pick: nat, itemRoll: nat, draw: nat -> nat -> nat)
    requires Inv(s) && 2 <= s.playerCount <= 4
    ensures var s' := ReloadSpec(s, dropItems, pick, itemRoll, draw).1;
      && s'.total.Some? && s'.live.Some?
      && (s'.live.value, s'.total.value - s'.live.value) in ValidSequences(s.playerCount).value
      && 1 <= s'.live.value < s'.total.value <= 8
      && s' == s.(statuses := {}, total := s'.total, live := s'.live, items := s'.items)
    ensures !dropItems ==>
      ReloadSpec(s, dropItems, pick, itemRoll, draw).0 == Ok(()) && ReloadSpec(s, dropItems, pick, itemRoll, draw).1.items == s.items
  {
    var seqs := ValidSequences(s.playerCount).value;
    var a := seqs[pick % |seqs|];
    assert a in seqs;
  }

  // ----------------------------------------------------------- switch_turn

  /** The scan of `switch_turn` from seat n with `fuel` steps left: the next
      seat is looked up as a `GameStatus` integer, which raises ValueError
      for every seat but 6; a jammed seat loses its status and is passed
      over; the first other seat with charges left takes the turn. */
  function SwitchFrom(s: State, n: int, fuel: nat): (r: (Result<nat>, State))
    requires Inv(s)
    ensures Inv(r.1)
    decreases fuel
  {
    if fuel == 0 then (Err(ValueError), s)
    else
      var m := (n + s.turnInc) % s.playerCount;
      match Lookup(Int(m))
      case None => (Err(ValueError), s)
      case Some(st) =>
        if st in s.statuses then SwitchFrom(s.(statuses := s.statuses - {st}), m, fuel - 1)
        else if s.charges[m] > 0 then (Ok(m), s.(currentTurn := m))
        else SwitchFrom(s, m, fuel - 1)
  }

  /** `switch_turn()`: at most `player_count` steps. */
  function SwitchTurnSpec(s: State): (r: (Result<nat>, State))
    requires Inv(s)
    ensures Inv(r.1)
  {
    SwitchFrom(s, s.currentTurn, s.playerCount)
  }

  /** The scan can only hand the turn to seat 6, which must have charges
      left; otherwise it raises ValueError.  It changes nothing but the
      statuses, which only lose the sawed-off barrel, and the turn. */
  lemma {:induction false} SwitchFromOnlySix(s: State, n: int, fuel: nat)
    requires Inv(s)
    ensures var (r, s') := SwitchFrom(s, n, fuel);
      && (r.Err? ==> r.error == ValueError)
      && (r.Ok? ==> r.value == 6 && s'.currentTurn == 6 && s.charges[6] > 0)
      && s' == s.(statuses := s'.statuses, currentTurn := s'.currentTurn)
      && s'.statuses <= s.statuses && s.statuses - s'.statuses <= {MG.SawedOff}
      && (r.Err? ==> s'.currentTurn == s.currentTurn)
    decreases fuel
  {
    if fuel > 0 {
      var m := (n + s.turnInc) % s.playerCount;
      LookupInt(m);
      if Lookup(Int(m)).Some? {
        var st := Lookup(Int(m)).value;
        if st in s.statuses {
          SwitchFromOnlySix(s.(statuses := s.statuses - {st}), m, fuel - 1);
        } else if s.charges[m] <= 0 {
          SwitchFromOnlySix(s, m, fuel - 1);
        }
      }
    }
  }

  /** With at most 6 seats (every player count `valid_sequences` knows),
      `switch_turn` always raises ValueError and changes nothing. */
  lemma SwitchTurnRaises(s: State)
    requires Inv(s) && s.playerCount <= 6
    ensures SwitchTurnSpec(s) == (Err(ValueError), s)
  {
    var m := (s.currentTurn + s.turnInc) % s.playerCount;
    LookupInt(m);
  }

  // ----------------------------------------------------------------- moves

  /** The later board with this board's seats, turn, direction, records and
      statuses; `moves()` is written the same in both files. */
  function Mirror(s: State): (r: (MG.Config, MG.State))
    requires Inv(s)
    ensures MG.Inv(r.0, r.1)
  {
    assert forall p :: 0 <= p < |s.items| ==> Covers(s.items[p], MG.Order) by {
      forall p | 0 <= p < |s.items| ensures Covers(s.items[p], MG.Order) {
        assert Rec(s.items[p]);
      }
    }
    (MG.Config(s.playerCount, [MG.Sequence(0, 0, 0)], s.maxCharges, MG.ItemCaps, MG.GlobalItemCaps),
     MG.State(s.charges, s.currentTurn, s.turnInc, s.items, s.statuses, 0, 0, 0))
  }

  /** `moves()`: what the later board's `moves()` lists from the same seats,
      records and statuses; only the adrenaline status may be cleared. */
  function MovesSpec(s: State): (r: (Result<seq<MG.Entry>>, State))
    requires Inv(s)
    ensures Inv(r.1) && r.1 == s.(statuses := r.1.statuses) && r.1.statuses <= s.statuses
  {
    var (c, m) := Mirror(s);
    var (listed, m') := MG.MovesSpec(c, m);
    (listed, s.(statuses := m'.statuses))
  }

  /** Without adrenaline the list is the shot at every living offset and
      then the mover's held kinds, read from this board's own record: a
      use of each held kind but the jammer (never meds, which no record
      holds) and a jam per living offset but 0 for a held jammer, all owned
      by the last living offset. */
  lemma MovesOwnList(s: State, e: MG.Entry)
    requires Inv(s) && MG.AdrenalineActive !in s.statuses && MovesSpec(s).0.Ok?
    ensures var offsets := LivingPlayers(s, true);
      e in MovesSpec(s).0.value <==>
      ((e.owner == 0 && e.move.Shoot? && e.move.offset in offsets)
       || (offsets != [] && e.owner == offsets[|offsets| - 1] &&
           ((e.move.Use? && e.move.item in Order && e.move.item != Jammer && s.items[s.currentTurn][e.move.item] >= 1)
            || (e.move.Jam? && s.items[s.currentTurn][Jammer] >= 1 && e.move.offset in offsets && e.move.offset != 0))))
  {
    var (c, m) := Mirror(s);
    MG.MovesOwn(c, m);
    MG.OwnMovesExact(c, m, e);
    assert Rec(s.items[s.currentTurn]);
    OrderAsLater();
    OffsetsAsLater(s, MG.Living(s.charges));
  }

  /** The offsets of seats are those the later board computes. */
  lemma OffsetsAsLater(s: State, seats: seq<nat>)
    requires Inv(s)
    ensures Offsets(s, seats) == MG.LivingOffsets(Mirror(s).0, Mirror(s).1, seats)
  {
    var (c, m) := Mirror(s);
    var a, b := Offsets(s, seats), MG.LivingOffsets(c, m, seats);
    assert |a| == |b|;
    forall j | 0 <= j < |a| ensures a[j] == b[j] {
      assert a[j] == IdxToOffset(s, seats[j]) && b[j] == MG.IdxToOffset(c, m, seats[j]);
    }
  }

  /** No listed move uses meds. */
  lemma MovesNeverMeds(s: State, e: MG.Entry)
    requires Inv(s) && MovesSpec(s).0.Ok? && e in MovesSpec(s).0.value
    ensures e.move != MG.Use(Meds)
  {
    var (c, m) := Mirror(s);
    MG.MovesChoice(c, m);
    var m' := MG.MovesSpec(c, m).1;
    if MG.AdrenalineActive in m'.statuses {
      MG.AdrenalineMovesExact(c, m, e);
    } else {
      MG.OwnMovesExact(c, m', e);
    }
  }

  // ------------------------------------------------------------- make_move

  /** Whose items the move uses.  Under adrenaline it is the seat
      `adrenaline_target + current_turn`, a Python list index (so negative
      values count from the end), and adrenaline is used up; a missing target
      raises ValueError and a seat out of range IndexError. */
  function TakeFrom(s: State, target: Option<int>): (r: Result<(nat, State)>)
    requires Inv(s)
    ensures r.Ok? ==> r.value.0 < s.playerCount && Inv(r.value.1)
  {
    if MG.AdrenalineActive !in s.statuses then Ok((s.currentTurn as nat, s))
    else if target.None? then Err(ValueError)
    else
      match PyIndex(target.value + s.currentTurn, |s.items|)
      case None => Err(IndexError)
      case Some(o) => Ok((o, s.(statuses := s.statuses - {MG.AdrenalineActive})))
  }

  /** `items.<kind> -= 1` on record o. */
  function Spend(s: State, o: nat, k: Kind): (r: State)
    requires Inv(s) && o < s.playerCount && k in Order && k != Meds
    ensures Inv(r)
  {
    s.(items := s.items[o := s.items[o][k := s.items[o][k] - 1]])
  }

  /** The item branches of `make_move` on record o: what the move reports,
      the board, and the caller's shell list afterwards.  Meds raise before
      anything is spent; 'handcuffs' names no item of this board. */
  function UseSpec(s: State, o: nat, k: Kind, shotgun: seq<bool>, pick: nat): (r: (Result<Info>, State, seq<bool>))
    requires Inv(s) && o < s.playerCount
    ensures Inv(r.1)
  {
    if k == Meds then (Err(ValueError), s, shotgun)
    else if k !in Order then (Ok(Nothing), s, shotgun)
    else SpentEffect(Spend(s, o, k), k, shotgun, pick)
  }

  /** What an item does once it is taken from its record.  `pick` is the
      burner phone's `randint(2, len - 1)` draw. */
  function SpentEffect(s: State, k: Kind, shotgun: seq<bool>, pick: nat): (r: (Result<Info>, State, seq<bool>))
    requires Inv(s)
    ensures Inv(r.1)
  {
    var ct := s.currentTurn;
    match k
    case Saw => (Ok(Nothing), s.(statuses := s.statuses + {MG.SawedOff}), shotgun)
    case MagnifyingGlass => if shotgun == [] then (Err(IndexError), s, shotgun) else (Ok(Shell(shotgun[0])), s, shotgun)
    case Cigarettes => (Ok(Nothing), s.(charges := s.charges[ct := Min(s.charges[ct] + 1, s.maxCharges)]), shotgun)
    case Beer => (if |shotgun| > 1 then Ok(Shell(shotgun[0])) else Ok(Nothing), s, shotgun)
    case BurnerPhone =>
      if |shotgun| > 2 then
        var idx := 2 + pick % (|shotgun| - 2);
        (Ok(Peek(idx, shotgun[idx])), s, shotgun)
      else (Ok(Nothing), s, shotgun)
    case Adrenaline => (Ok(Nothing), s.(statuses := s.statuses + {MG.AdrenalineActive}), shotgun)
    case Inverter =>
      if shotgun == [] then (Err(IndexError), s, shotgun)
      else (Ok(Nothing), s.(statuses := s.statuses + {MG.InverterUncertainty}), shotgun[0 := !shotgun[0]])
    case Remote => (Ok(Nothing), s.(turnInc := -s.turnInc), shotgun)
    case Jammer => (Err(ValueError), s, shotgun)
    case Meds => (Err(ValueError), s, shotgun)
    case Handcuffs => (Ok(Nothing), s, shotgun)
  }

  /** `make_move(move, shotgun, adrenaline_target)`.  A shot raises
      ValueError parsing its target, before any damage; a jam takes the
      jammer, then raises the same way; the string 'jammer' takes that path
      too; 'handcuffs' names nothing on this board and does nothing. */
  function MakeMoveSpec(s: State, move: MG.Move, shotgun: seq<bool>, target: Option<int>, pick: nat)
    : (r: (Result<Info>, State, seq<bool>))
    requires Inv(s)
    ensures Inv(r.1)
  {
    match TakeFrom(s, target)
    case Err(e) => (Err(e), s, shotgun)
    case Ok((o, s1)) =>
      match move
      case Shoot(_) => (Err(ValueError), s1, shotgun)
      case Jam(_) => (Err(ValueError), Spend(s1, o, Jammer), shotgun)
      case Use(k) => UseSpec(s1, o, k, shotgun, pick)
  }

  /** `make_move` raises ValueError under adrenaline with no target
      (changing nothing), for every shot (changing no charge and no
      record), for meds (spending nothing) and for a jam (after spending the
      jammer). */
  lemma MakeMoveRaises(s: State, shotgun: seq<bool>, target: Option<int>, pick: nat, offset: int)
    requires Inv(s)
    ensures MG.AdrenalineActive in s.statuses && target.None? ==>
      forall move :: MakeMoveSpec(s, move, shotgun, target, pick) == (Err(ValueError), s, shotgun)
    ensures var (r, s', sh) := MakeMoveSpec(s, MG.Shoot(offset), shotgun, target, pick);
      r.Err? && (r.error == ValueError || r.error == IndexError)
      && s'.charges == s.charges && s'.items == s.items && sh == shotgun
    ensures var (r, s', sh) := MakeMoveSpec(s, MG.Use(Meds), shotgun, target, pick);
      r.Err? && (r.error == ValueError || r.error == IndexError) && s'.items == s.items && sh == shotgun
    ensures TakeFrom(s, target).Ok? ==>
      var o := TakeFrom(s, target).value.0;
      var (r, s', sh) := MakeMoveSpec(s, MG.Jam(offset), shotgun, target, pick);
      r == Err(ValueError) && s'.items == s.items[o := s.items[o][Jammer := s.items[o][Jammer] - 1]]
      && s'.charges == s.charges && sh == shotgun
  {
  }

  /** Every item of the board the move names is taken from the record it
      uses, and no other count of any record changes; meds and
      'handcuffs' take nothing. */
  lemma MakeMoveSpends(s: State, k: Kind, shotgun: seq<bool>, target: Option<int>, pick: nat)
    requires Inv(s) && TakeFrom(s, target).Ok?
    ensures var o := TakeFrom(s, target).value.0;
      var s' := MakeMoveSpec(s, MG.Use(k), shotgun, target, pick).1;
      && (k in Order && k != Meds ==> s'.items == s.items[o := s.items[o][k := s.items[o][k] - 1]])
      && (k !in Order || k == Meds ==> s'.items == s.items)
  {
  }

  /** Cigarettes heal the player to move, not the record's owner, by one
      and never above `max_charges`; the inverter flips the caller's front
      shell and records the uncertainty; the remote reverses the direction
      of play. */
  lemma ItemEffects(s: State, shotgun: seq<bool>, target: Option<int>, pick: nat)
    requires Inv(s) && TakeFrom(s, target).Ok?
    ensures var s' := MakeMoveSpec(s, MG.Use(Cigarettes), shotgun, target, pick).1;
      var ct := s.currentTurn;
      s'.charges == s.charges[ct := Min(s.charges[ct] + 1, s.maxCharges)]
    ensures var (r, s', sh) := MakeMoveSpec(s, MG.Use(Inverter), shotgun, target, pick);
      shotgun != [] ==> r == Ok(Nothing) && sh == shotgun[0 := !shotgun[0]] && MG.InverterUncertainty in s'.statuses
    ensures var (r, s', sh) := MakeMoveSpec(s, MG.Use(Remote), shotgun, target, pick);
      r == Ok(Nothing) && s'.turnInc == -s.turnInc && sh == shotgun
  {
  }

  /** Beer reports the front shell when more than one is left, but the
      caller's list keeps every shell. */
  lemma BeerKeepsShells(s: State, shotgun: seq<bool>, target: Option<int>, pick: nat)
    requires Inv(s) && TakeFrom(s, target).Ok?
    ensures var (r, s', sh) := MakeMoveSpec(s, MG.Use(Beer), shotgun, target, pick);
      && sh == shotgun
      && r == (if |shotgun| > 1 then Ok(Shell(shotgun[0])) else Ok(Nothing))
  {
  }

  /** The burner phone reports a shell at a position from 2 to len - 1. */
  lemma BurnerPeeks(s: State, shotgun: seq<bool>, target: Option<int>, pick: nat)
    requires Inv(s) && TakeFrom(s, target).Ok? && |shotgun| > 2
    ensures var r := MakeMoveSpec(s, MG.Use(BurnerPhone), shotgun, target, pick).0;
      r.Ok? && r.value.Peek? && 2 <= r.value.index < |shotgun| && r.value.isLive == shotgun[r.value.index]
  {
  }

  /** `__init__`: `max_charges` charges for every seat, the start seat to
      move, empty records, then `give_items(randint(2, 5))`. */
  function InitSpec(playerCount: nat, startPlayer: int, chargeCount: int, chargeRoll: nat, itemRoll: nat,
                    draw: nat -> nat -> nat): (r: (Result<()>, State))
    requires playerCount >= 1 && 0 <= startPlayer < playerCount
    ensures Inv(r.1)
  {
    var s := Fresh(Charges(chargeCount, chargeRoll), playerCount, startPlayer);
    var g := GiveItemsSpec(s.maxCharges, s.items, 2 + itemRoll % 4, draw);
    (g.0, s.(items := g.1))
  }

  /** A new board never raises: every seat starts with `max_charges`
      charges and 2 to 5 items. */
  lemma InitDeals(playerCount: nat, startPlayer: int, chargeCount: int, chargeRoll: nat, itemRoll: nat,
                  draw: nat -> nat -> nat, q: nat)
    requires playerCount >= 1 && 0 <= startPlayer < playerCount && q < playerCount
    ensures var (r, s) := InitSpec(playerCount, startPlayer, chargeCount, chargeRoll, itemRoll, draw);
      && r == Ok(())
      && s.charges[q] == s.maxCharges && s.currentTurn == startPlayer && s.statuses == {}
      && 2 <= ItemCount(s.items[q], Order) <= 5
  {
    var s := Fresh(Charges(chargeCount, chargeRoll), playerCount, startPlayer);
    GiveFresh(s.maxCharges, s.items, 2 + itemRoll % 4, draw, q);
  }

  // ---------------------------------------------------------------- methods

  /** `global_count`, built as the source does. */
  method CountAll(items: seq<Counts>) returns (g: Counts)
    requires AllRec(items)
    ensures g == GlobalCount(items)
  {
    OrderDistinct();
    g := Zero(Order);
    var p := 0;
    while p < |items|
      invariant 0 <= p <= |items|
      invariant AllRec(items[..p])
      invariant g.Keys == set k | k in Order
      invariant forall k :: k in Order ==> g[k] == SumKind(items[..p], k)
    {
      g := AddAll(g, items[p], Order);
      assert items[..p + 1][..p] == items[..p];
      p := p + 1;
    }
    assert items[..p] == items;
  }

  /** The body of the `give_items` loop for one seat. */
  method DealTo(maxCharges: int, player: Counts, global: Counts, itemCount: int, draw: nat -> nat) returns (r: Result<Counts>)
    requires Rec(player) && Covers(global, Order)
    ensures r == Gift(maxCharges, player, global, itemCount, draw)
  {
    var choices := Choices(maxCharges, player, global);
    var n := MG.Allowance(itemCount, ItemCount(player, Order));
    if n == 0 {
      return Ok(player);
    }
    if choices == [] {
      return Err(IndexError);
    }
    var g := Credit(player, DrawsFrom(choices, n, draw));
    return Ok(g);
  }

  /** `give_items(item_count)` over the records as a value. */
  method GiveAll(maxCharges: int, items: seq<Counts>, itemCount: int, draw: nat -> nat -> nat)
    returns (res: Result<()>, xs: seq<Counts>)
    requires AllRec(items)
    ensures (res, xs) == GiveItemsSpec(maxCharges, items, itemCount, draw)
  {
    var global := CountAll(items);
    res, xs := GiveLoop(maxCharges, items, global, Gifts(maxCharges, items, global, itemCount, draw), itemCount, draw);
  }

  /** The loop of `give_items`, with `gifts` the drop of each seat. */
  method GiveLoop(maxCharges: int, items: seq<Counts>, global: Counts, ghost gifts: seq<Result<Counts>>,
                  itemCount: int, draw: nat -> nat -> nat) returns (res: Result<()>, xs: seq<Counts>)
    requires AllRec(items) && Covers(global, Order) && GiftsRec(gifts) && |gifts| == |items|
    requires forall p :: 0 <= p < |items| ==> gifts[p] == Gift(maxCharges, items[p], global, itemCount, draw(p))
    ensures (res, xs) == GiveFrom(items, gifts, 0)
  {
    xs := items;
    var p := 0;
    while p < |xs| && ItemCount(xs[p], Order) != MaxHeld
      invariant GiveInv(items, gifts, xs, p)
      decreases |items| - p
    {
      var failed;
      failed, xs := GiveTurn(maxCharges, items, gifts, xs, p, global, itemCount, draw(p));
      if failed.Some? {
        return Err(failed.value), xs;
      }
      p := p + 1;
    }
    GiveStop(items, gifts, xs, p);
    res := Ok(());
  }

  /** One pass of the loop: seat p's drop, or the error it raises. */
  method GiveTurn(maxCharges: int, ghost items: seq<Counts>, ghost gifts: seq<Result<Counts>>, xs: seq<Counts>,
                  p: nat, global: Counts, itemCount: int, draw: nat -> nat) returns (failed: Option<Error>, xs': seq<Counts>)
    requires GiveInv(items, gifts, xs, p) && p < |xs| && ItemCount(xs[p], Order) != MaxHeld
    requires Covers(global, Order) && gifts[p] == Gift(maxCharges, xs[p], global, itemCount, draw)
    ensures failed.Some? ==> (Err(failed.value), xs') == GiveFrom(items, gifts, 0)
    ensures failed.None? ==> GiveInv(items, gifts, xs', p + 1)
  {
    var g := DealTo(maxCharges, xs[p], global, itemCount, draw);
    if g.Err? {
      GiveErr(items, gifts, xs, p);
      return Some(g.error), xs;
    }
    GiveStep(items, gifts, xs, p);
    return None, xs[p := g.value];
  }

  /** The loop has credited the seats before p and left the others. */
  predicate GiveInv(items: seq<Counts>, gifts: seq<Result<Counts>>, xs: seq<Counts>, p: nat) {
    AllRec(items) && GiftsRec(gifts) && |gifts| == |items|
    && p <= |xs| == |items| && AllRec(xs)
    && (forall i :: p <= i < |xs| ==> xs[i] == items[i])
    && GiveFrom(xs, gifts, p) == GiveFrom(items, gifts, 0)
  }

  lemma GiveStep(items: seq<Counts>, gifts: seq<Result<Counts>>, xs: seq<Counts>, p: nat)
    requires GiveInv(items, gifts, xs, p) && p < |xs| && ItemCount(xs[p], Order) != MaxHeld && gifts[p].Ok?
    ensures GiveInv(items, gifts, xs[p := gifts[p].value], p + 1)
  {
    assert GiveFrom(xs, gifts, p) == GiveFrom(xs[p := gifts[p].value], gifts, p + 1);
  }

  lemma GiveErr(items: seq<Counts>, gifts: seq<Result<Counts>>, xs: seq<Counts>, p: nat)
    requires GiveInv(items, gifts, xs, p) && p < |xs| && ItemCount(xs[p], Order) != MaxHeld && gifts[p].Err?
    ensures (Err(gifts[p].error), xs) == GiveFrom(items, gifts, 0)
  {
    assert GiveFrom(xs, gifts, p) == (Err(gifts[p].error), xs);
  }

  lemma GiveStop(items: seq<Counts>, gifts: seq<Result<Counts>>, xs: seq<Counts>, p: nat)
    requires GiveInv(items, gifts, xs, p) && (p == |xs| || ItemCount(xs[p], Order) == MaxHeld)
    ensures (Ok(()), xs) == GiveFrom(items, gifts, 0)
  {
    assert GiveFrom(xs, gifts, p) == (Ok(()), xs);
  }

  // ------------------------------------------------------------------ board

  /** `BuckshotRoulette`: the board whose methods update its fields. */
  class BuckshotRoulette {
    var maxCharges: int
    var playerCount: int
    var charges: seq<int>
    var starter: int
    var currentTurn: int
    var turnInc: int
    var items: seq<Counts>
    var statuses: set<MG.Status>
    var chamberPublic: Option<bool>
    var total: Option<int>
    var live: Option<int>

    function Snap(): State
      reads this
    {
      State(maxCharges, playerCount, charges, starter, currentTurn, turnInc, items, statuses, chamberPublic, total, live)
    }

    predicate Valid()
      reads this
    {
      Inv(Snap())
    }

    /** The fields `__init__` sets before it deals. */
    constructor (maxCharges: int, playerCount: nat, startPlayer: int)
      requires playerCount >= 1 && 0 <= startPlayer < playerCount
      ensures Snap() == Fresh(maxCharges, playerCount, startPlayer)
    {
      this.maxCharges := maxCharges;
      this.playerCount := playerCount;
      charges := seq(playerCount, _ => maxCharges);
      starter := startPlayer;
      currentTurn := startPlayer;
      turnInc := 1;
      items := seq(playerCount, _ => Zero(Order));
      statuses := {};
      chamberPublic := None;
      total := None;
      live := None;
    }

    /** `give_items(item_count)`. */
    method GiveItems(itemCount: int, draw: nat -> nat -> nat) returns (r: Result<()>)
      requires Valid()
      modifies this
      ensures var g := GiveItemsSpec(old(maxCharges), old(items), itemCount, draw);
        r == g.0 && Snap() == old(Snap()).(items := g.1)
      ensures Valid()
    {
      var res, xs := GiveAll(maxCharges, items, itemCount, draw);
      items := xs;
      r := res;
    }

    /** `reload(drop_items)`. */
    method Reload(dropItems: bool, pick: nat, itemRoll: nat, draw: nat -> nat -> nat) returns (r: Result<()>)
      requires Valid()
      modifies this
      ensures (r, Snap()) == ReloadSpec(old(Snap()), dropItems, pick, itemRoll, draw)
      ensures Valid()
    {
      ghost var s0 := Snap();
      statuses := {};
      var sequences := ValidSequences(playerCount);
      if sequences.None? {
        return Err(KeyError);
      }
      var arrangement := sequences.value[pick % |sequences.value|];
      assert ReloadSpec(s0, dropItems, pick, itemRoll, draw) == Arranged(Snap(), arrangement, dropItems, itemRoll, draw);
      total := Some(arrangement.0 + arrangement.1);
      live := Some(arrangement.0);
      r := Ok(());
      if dropItems {
        r := GiveItems(3 + itemRoll % 3, draw);
      }
    }

    /** `switch_turn()`. */
    method SwitchTurn() returns (r: Result<nat>)
      requires Valid()
      modifies this
      ensures (r, Snap()) == SwitchTurnSpec(old(Snap()))
      ensures Valid()
    {
      var n := currentTurn;
      var i := 0;
      while i < playerCount
        invariant 0 <= i <= playerCount && Valid()
        invariant SwitchFrom(Snap(), n, playerCount - i) == SwitchTurnSpec(old(Snap()))
      {
        n := (n + turnInc) % playerCount;
        var status := Lookup(Int(n));
        if status.None? {
          return Err(ValueError);
        }
        if status.value in statuses {
          statuses := statuses - {status.value};
        } else if charges[n] > 0 {
          currentTurn := n;
          return Ok(n);
        }
        i := i + 1;
      }
      r := Err(ValueError);
    }

    /** `moves()`. */
    method Moves() returns (r: Result<seq<MG.Entry>>)
      requires Valid()
      modifies this
      ensures (r, Snap()) == MovesSpec(old(Snap()))
      ensures Valid()
      decreases if MG.AdrenalineActive in statuses then 1 else 0
    {
      var (c, m) := Mirror(Snap());
      ghost var s0 := Snap();
      var listed;
      if MG.AdrenalineActive in statuses {
        listed := MG.StealList(c, m);
      } else {
        listed := MG.OwnMovesList(c, m);
      }
      if listed.Err? {
        assert MG.MovesSpec(c, m) == (listed, m);
        return Err(listed.error);
      }
      if |listed.value| == 0 {
        if MG.AdrenalineActive !in statuses {
          assert MG.MovesSpec(c, m) == (Err(KeyError), m);
          return Err(KeyError);
        }
        statuses := statuses - {MG.AdrenalineActive};
        assert Mirror(Snap()) == (c, m.(statuses := statuses));
        assert MovesSpec(s0) == MovesSpec(Snap()) by {
          assert MG.MovesSpec(c, m) == MG.MovesSpec(c, m.(statuses := statuses));
        }
        r := Moves();
        return;
      }
      assert MG.MovesSpec(c, m) == (listed, m);
      return listed;
    }

    /** `make_move(move, shotgun, adrenaline_target)`; `shotgun` returns the
        caller's list afterwards. */
    method MakeMove(move: MG.Move, shotgun: seq<bool>, target: Option<int>, pick: nat)
      returns (r: Result<Info>, shells: seq<bool>)
      requires Valid()
      modifies this
      ensures (r, Snap(), shells) == MakeMoveSpec(old(Snap()), move, shotgun, target, pick)
      ensures Valid()
    {
      shells := shotgun;
      var taken := Take(target);
      if taken.Err? {
        return Err(taken.error), shells;
      }
      var o := taken.value;
      match move
      case Shoot(_) =>
        r := Err(ValueError);
      case Jam(_) =>
        ghost var s1 := Snap();
        items := items[o := items[o][Jammer := items[o][Jammer] - 1]];
        assert Snap() == Spend(s1, o, Jammer);
        r := Err(ValueError);
      case Use(k) =>
        r, shells := UseItem(o, k, shotgun, pick);
    }

    /** The record `make_move` works on: the current player's, or under
        adrenaline the target seat's, using the adrenaline up. */
    method Take(target: Option<int>) returns (r: Result<nat>)
      requires Valid()
      modifies this
      ensures var t := TakeFrom(old(Snap()), target);
        && (t.Err? ==> r == Err(t.error) && Snap() == old(Snap()))
        && (t.Ok? ==> r == Ok(t.value.0) && Snap() == t.value.1)
      ensures Valid()
    {
      r := Ok(currentTurn as nat);
      if MG.AdrenalineActive in statuses {
        if target.None? {
          return Err(ValueError);
        }
        var seat := PyIndex(target.value + currentTurn, |items|);
        if seat.None? {
          return Err(IndexError);
        }
        r := Ok(seat.value);
        statuses := statuses - {MG.AdrenalineActive};
      }
    }

    /** The item branches of `make_move` on record o. */
    method UseItem(o: nat, k: Kind, shotgun: seq<bool>, pick: nat) returns (r: Result<Info>, shells: seq<bool>)
      requires Valid() && o < playerCount
      modifies this
      ensures (r, Snap(), shells) == UseSpec(old(Snap()), o, k, shotgun, pick)
      ensures Valid()
    {
      if k == Meds {
        return Err(ValueError), shotgun;
      }
      if k !in Order {
        return Ok(Nothing), shotgun;
      }
      ghost var s0 := Snap();
      items := items[o := items[o][k := items[o][k] - 1]];
      assert Snap() == Spend(s0, o, k);
      r, shells := UseSpent(k, shotgun, pick);
    }

    /** What an item does once it is taken from its record. */
    method UseSpent(k: Kind, shotgun: seq<bool>, pick: nat) returns (r: Result<Info>, shells: seq<bool>)
      requires Valid()
      modifies this
      ensures (r, Snap(), shells) == SpentEffect(old(Snap()), k, shotgun, pick)
      ensures Valid()
    {
      shells := shotgun;
      r := Ok(Nothing);
      match k
      case Saw =>
        statuses := statuses + {MG.SawedOff};
      case MagnifyingGlass =>
        if shotgun == [] {
          return Err(IndexError), shells;
        }
        r := Ok(Shell(shotgun[0]));
      case Cigarettes =>
        charges := charges[currentTurn := Min(charges[currentTurn] + 1, maxCharges)];
      case Beer =>
        if |shotgun| > 1 {
          r := Ok(Shell(shotgun[0]));
        }
      case BurnerPhone =>
        if |shotgun| > 2 {
          var idx := 2 + pick % (|shotgun| - 2);
          r := Ok(Peek(idx, shotgun[idx]));
        }
      case Adrenaline =>
        statuses := statuses + {MG.AdrenalineActive};
      case Inverter =>
        if shotgun == [] {
          return Err(IndexError), shells;
        }
        shells := shotgun[0 := !shotgun[0]];
        statuses := statuses + {MG.InverterUncertainty};
      case Remote =>
        turnInc := -turnInc;
      case Jammer =>
        r := Err(ValueError);
      case Meds =>
        r := Err(ValueError);
      case Handcuffs =>
    }
  }

  /** `BuckshotRoulette(player_count, start_player, charge_count)`; a charge
      count of 0 stands for both None and 0. */
  method New(playerCount: nat, startPlayer: int, chargeCount: int, chargeRoll: nat, itemRoll: nat,
             draw: nat -> nat -> nat) returns (b: BuckshotRoulette, r: Result<()>)
    requires playerCount >= 1 && 0 <= startPlayer < playerCount
    ensures fresh(b) && b.Valid()
    ensures (r, b.Snap()) == InitSpec(playerCount, startPlayer, chargeCount, chargeRoll, itemRoll, draw)
  {
    var maxCharges := if chargeCount != 0 then chargeCount else 3 + chargeRoll % 3;
    b := new BuckshotRoulette(maxCharges, playerCount, startPlayer);
    ghost var s := Fresh(Charges(chargeCount, chargeRoll), playerCount, startPlayer);
    assert b.Snap() == s;
    r := b.GiveItems(2 + itemRoll % 4, draw);
    assert (r, b.Snap()) == (GiveItemsSpec(s.maxCharges, s.items, 2 + itemRoll % 4, draw).0,
                             s.(items := GiveItemsSpec(s.maxCharges, s.items, 2 + itemRoll % 4, draw).1));
  }
}
