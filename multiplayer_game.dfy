/** The N-player board of buckshot_roulette/multiplayer/game.py.

    Players sit at indices 0 .. player_count - 1; `current_turn` is the
    player to move and an "offset" counts seats from it.  The shotgun is
    not stored on the board: every move receives the shell list and hands
    the new one back as the third element of its result.  Each player owns
    an item record, and a set of statuses records jammed players, an active
    adrenaline, an inverter that has been used and a sawed-off barrel. */
module MultiplayerGame {
  import opened Common
  import opened Inventory

  /** `POSSIBLE_ITEMS`: the kinds of this board's record, in iteration order. */
  const Order: seq<Kind> := [Saw, MagnifyingGlass, Jammer, Cigarettes, Beer, BurnerPhone, Adrenaline, Inverter, Remote]

  lemma OrderDistinct()
    ensures Distinct(Order)
  {
  }

  /** `RoundConfig.ITEM_CAPS`: the most of each kind one player may hold. */
  const ItemCaps: Counts := map[Saw := 2, MagnifyingGlass := 2, Jammer := 1, Cigarettes := 1, Beer := 8,
                                BurnerPhone := 8, Inverter := 4, Adrenaline := 4, Remote := 1]

  /** `RoundConfig.GLOBAL_ITEM_CAPS`: the most of each kind all players together may hold. */
  const GlobalItemCaps: Counts := map[Saw := 32, MagnifyingGlass := 32, Jammer := 1, Cigarettes := 32, Beer := 32,
                                      BurnerPhone := 32, Inverter := 32, Adrenaline := 32, Remote := 2]

  /** The most items a player may hold. */
  const MaxHeld := 8

  /** `GameStatus`, whose members have the integer values 0 .. 6. */
  datatype Status = Jammed0 | Jammed1 | Jammed2 | Jammed3 | AdrenalineActive | InverterUncertainty | SawedOff

  function StatusValue(st: Status): nat
  {
    match st
    case Jammed0 => 0
    case Jammed1 => 1
    case Jammed2 => 2
    case Jammed3 => 3
    case AdrenalineActive => 4
    case InverterUncertainty => 5
    case SawedOff => 6
  }

  /** `GameStatus(n)`: the member with value n; None stands for the ValueError. */
  function StatusOf(n: int): (r: Option<Status>)
    ensures r.Some? <==> 0 <= n <= 6
    ensures r.Some? ==> StatusValue(r.value) == n
  {
    if n == 0 then Some(Jammed0)
    else if n == 1 then Some(Jammed1)
    else if n == 2 then Some(Jammed2)
    else if n == 3 then Some(Jammed3)
    else if n == 4 then Some(AdrenalineActive)
    else if n == 5 then Some(InverterUncertainty)
    else if n == 6 then Some(SawedOff)
    else None
  }

  /** Looking a member up by its value finds it again. */
  lemma StatusRoundTrip(st: Status)
    ensures StatusOf(StatusValue(st)) == Some(st)
  {
  }

  /** The status a jammer puts on player t: only seats 0 .. 3 can be jammed. */
  function JamStatus(t: int): (r: Option<Status>)
    ensures r.Some? <==> 0 <= t <= 3
    ensures r.Some? ==> StatusValue(r.value) == t
  {
    if 0 <= t <= 3 then StatusOf(t) else None
  }

  /** The part of a `SequenceConfig` the board reads. */
  datatype Sequence = Sequence(live: int, blank: int, itemCount: int)

  /** `SequenceConfig`: the shell counts of one load and the items it drops. */
  class SequenceConfig {
    var live: int
    var blank: int
    var itemCount: int

    /** The constructor with explicit counts and item count. */
    constructor (live: int, blank: int, itemCount: int)
      ensures this.live == live && this.blank == blank && this.itemCount == itemCount
    {
      this.live := live;
      this.blank := blank;
      this.itemCount := itemCount;
    }

    /** `fire`: a fired shell is taken off the live or the blank count. */
    method Fire(isLive: bool)
      modifies this
      ensures isLive ==> live == old(live) - 1 && blank == old(blank)
      ensures !isLive ==> blank == old(blank) - 1 && live == old(live)
      ensures itemCount == old(itemCount)
      ensures live + blank == old(live) + old(blank) - 1
    {
      if isLive {
        live := live - 1;
      } else {
        blank := blank - 1;
      }
    }
  }

  /** The round configuration a board is built from. */
  datatype Config = Config(playerCount: nat, sequences: seq<Sequence>, startCharges: int,
                           itemCaps: Counts, globalItemCaps: Counts)

  /** A board needs at least one seat and one sequence: every `%` by these
      counts raises ZeroDivisionError otherwise. */
  predicate ConfigOk(c: Config) {
    c.playerCount >= 1 && |c.sequences| >= 1 && Covers(c.itemCaps, Order) && Covers(c.globalItemCaps, Order)
  }

  /** The mutable part of a board. */
  datatype State = State(charges: seq<int>, currentTurn: int, turnInc: int, items: seq<Counts>,
                         statuses: set<Status>, sequenceIdx: int, total: int, live: int)

  predicate AllCover(items: seq<Counts>) {
    forall p :: 0 <= p < |items| ==> Covers(items[p], Order)
  }

  /** What every board state satisfies between calls. */
  predicate Inv(c: Config, s: State) {
    ConfigOk(c)
    && |s.charges| == c.playerCount && |s.items| == c.playerCount && AllCover(s.items)
    && 0 <= s.currentTurn < c.playerCount
    && (s.turnInc == 1 || s.turnInc == -1)
    && -1 <= s.sequenceIdx < |c.sequences|
  }

  // ---------------------------------------------------------------- seats

  /** `offset_to_idx`. */
  function OffsetToIdx(c: Config, s: State, offset: int): (r: int)
    requires ConfigOk(c)
    ensures 0 <= r < c.playerCount
  {
    (s.currentTurn + offset) % c.playerCount
  }

  /** `idx_to_offset`. */
  function IdxToOffset(c: Config, s: State, idx: int): (r: int)
    requires ConfigOk(c)
    ensures 0 <= r < c.playerCount
  {
    (idx - s.currentTurn) % c.playerCount
  }

  /** `idx_to_offset` undoes `offset_to_idx`, modulo the number of seats. */
  lemma OffsetRoundTrip(c: Config, s: State, offset: int)
    requires ConfigOk(c)
    ensures IdxToOffset(c, s, OffsetToIdx(c, s, offset)) == offset % c.playerCount
  {
    ShiftBack(s.currentTurn, offset, c.playerCount);
  }

  /** `offset_to_idx` undoes `idx_to_offset`, modulo the number of seats. */
  lemma IdxRoundTrip(c: Config, s: State, idx: int)
    requires ConfigOk(c)
    ensures OffsetToIdx(c, s, IdxToOffset(c, s, idx)) == idx % c.playerCount
  {
    ShiftForward(s.currentTurn, idx, c.playerCount);
  }

  /** Seats with charges > 0, in increasing order. */
  function Living(charges: seq<int>): (r: seq<nat>)
    ensures |r| <= |charges|
    ensures forall j :: 0 <= j < |r| ==> r[j] < |charges|
  {
    if charges == [] then []
    else
      var n := |charges| - 1;
      Living(charges[..n]) + (if charges[n] > 0 then [n] else [])
  }

  /** `living_players()` lists exactly the seats with charges left, each once, in order. */
  lemma {:induction false} LivingMembers(charges: seq<int>)
    ensures forall i :: i in Living(charges) <==> 0 <= i < |charges| && charges[i] > 0
    ensures forall j, k :: 0 <= j < k < |Living(charges)| ==> Living(charges)[j] < Living(charges)[k]
  {
    if charges != [] {
      var n := |charges| - 1;
      LivingMembers(charges[..n]);
      assert forall i :: 0 <= i < n ==> charges[..n][i] == charges[i];
    }
  }

  /** `living_players(as_offset=True)`. */
  function LivingOffsets(c: Config, s: State, living: seq<nat>): (r: seq<int>)
    requires ConfigOk(c)
    ensures |r| == |living|
    ensures forall j :: 0 <= j < |r| ==> r[j] == IdxToOffset(c, s, living[j])
  {
    if living == [] then [] else [IdxToOffset(c, s, living[0])] + LivingOffsets(c, s, living[1..])
  }

  /** `winner()`: the only living seat, if exactly one is left. */
  function Winner(charges: seq<int>): (r: Option<nat>)
    ensures r.Some? ==> r.value < |charges| && charges[r.value] > 0
  {
    var players := Living(charges);
    LivingMembers(charges);
    if |players| == 1 then Some(players[0]) else None
  }

  /** There is a winner exactly when one seat alone has charges left. */
  lemma WinnerSole(charges: seq<int>, w: nat)
    ensures Winner(charges) == Some(w)
        <==> w < |charges| && charges[w] > 0 && forall j :: 0 <= j < |charges| && j != w ==> charges[j] <= 0
  {
    var players := Living(charges);
    LivingMembers(charges);
    if w < |charges| && charges[w] > 0 && forall j :: 0 <= j < |charges| && j != w ==> charges[j] <= 0 {
      assert w in players;
      forall j | 0 <= j < |players| ensures players[j] == w {
        assert players[j] in players;
      }
      assert players[0] == w && players[|players| - 1] == w;
    }
  }

  // ------------------------------------------------------------ give_items

  /** A kind's count summed over all records. */
  function SumKind(items: seq<Counts>, k: Kind): int
    requires AllCover(items) && k in Order
  {
    if items == [] then 0 else SumKind(items[..|items| - 1], k) + items[|items| - 1][k]
  }

  /** `global_count`: per kind, the count over all players' records. */
  function GlobalCount(items: seq<Counts>): (r: Counts)
    requires AllCover(items)
    ensures Covers(r, Order)
    ensures forall k :: k in Order ==> r[k] == SumKind(items, k)
  {
    map k | k in Order :: SumKind(items, k)
  }

  /** `choices`: the kinds below both caps, without the saw when the round
      starts with at most 2 charges. */
  function Choices(c: Config, player: Counts, global: Counts): (r: seq<Kind>)
    requires ConfigOk(c) && Covers(player, Order) && Covers(global, Order)
    ensures forall k :: k in r <==>
      k in Order && player[k] < c.itemCaps[k] && global[k] < c.globalItemCaps[k] && !(c.startCharges <= 2 && k == Saw)
  {
    OrderDistinct();
    var e := EligibleGlobal(Order, player, c.itemCaps, global, c.globalItemCaps);
    if c.startCharges <= 2 && Saw in e then RemoveFirst(e, Saw) else e
  }

  /** How many items a player holding `held` may be given. */
  function Allowance(itemCount: int, held: int): (r: nat)
    ensures r <= Max(0, itemCount) && r <= Max(0, MaxHeld - held)
    ensures held <= MaxHeld && itemCount >= 0 ==> r == Min(itemCount, MaxHeld - held)
  {
    Max(0, Min(itemCount, MaxHeld - held))
  }

  /** One player's drop: `random.choices` only when there is a choice. */
  function Gift(c: Config, player: Counts, global: Counts, itemCount: int, draw: nat -> nat): (r: Counts)
    requires ConfigOk(c) && Covers(player, Order) && Covers(global, Order)
    ensures r.Keys == player.Keys && Covers(r, Order)
  {
    var ch := Choices(c, player, global);
    if |ch| > 0 then Credited(player, DrawsFrom(ch, Allowance(itemCount, ItemCount(player, Order)), draw))
    else player
  }

  /** Every seat's drop, each computed from that seat's record as the call
      starts and the counts over all records as the call starts. */
  function Gifts(c: Config, items: seq<Counts>, global: Counts, itemCount: int, draw: nat -> nat -> nat): (r: seq<Counts>)
    requires ConfigOk(c) && AllCover(items) && Covers(global, Order)
    ensures |r| == |items|
    ensures forall p :: 0 <= p < |items| ==> r[p] == Gift(c, items[p], global, itemCount, draw(p))
    ensures AllCover(r)
  {
    var r := seq(|items|, p requires 0 <= p < |items| => Gift(c, items[p], global, itemCount, draw(p)));
    assert forall p :: 0 <= p < |items| ==> r[p] == Gift(c, items[p], global, itemCount, draw(p)) && Covers(r[p], Order);
    r
  }

  /** `for player in self.items`, from seat p on: each seat takes its drop,
      and the loop stops at the first seat holding exactly 8 items. */
  function GiveFrom(items: seq<Counts>, gifts: seq<Counts>, p: nat): (r: seq<Counts>)
    requires AllCover(items) && AllCover(gifts) && |gifts| == |items|
    ensures |r| == |items| && AllCover(r)
    decreases |items| - p
  {
    if p >= |items| || ItemCount(items[p], Order) == MaxHeld then items
    else GiveFrom(items[p := gifts[p]], gifts, p + 1)
  }

  /** `give_items(item_count)`; draw(p)(j) is the j-th pick for seat p. */
  function GiveItemsSpec(c: Config, items: seq<Counts>, itemCount: int, draw: nat -> nat -> nat): (r: seq<Counts>)
    requires ConfigOk(c) && AllCover(items)
    ensures |r| == |items| && AllCover(r)
  {
    GiveFrom(items, Gifts(c, items, GlobalCount(items), itemCount, draw), 0)
  }

  /** Seat p is reached by the loop: no seat up to p holds exactly 8 items. */
  predicate Reached(items: seq<Counts>, p: nat)
    requires AllCover(items) && p < |items|
  {
    forall q :: 0 <= q <= p ==> ItemCount(items[q], Order) != MaxHeld
  }

  /** A reached seat takes its drop; every other seat keeps its record. */
  lemma {:induction false} GiveFromAt(items: seq<Counts>, gifts: seq<Counts>, p: nat, orig: seq<Counts>, q: nat)
    requires AllCover(items) && AllCover(gifts) && AllCover(orig)
    requires |items| == |orig| == |gifts| && p <= |items| && q < |items|
    requires forall i :: p <= i < |items| ==> items[i] == orig[i]
    requires forall i :: 0 <= i < p ==> ItemCount(orig[i], Order) != MaxHeld
    ensures GiveFrom(items, gifts, p)[q] == if p <= q && Reached(orig, q) then gifts[q] else items[q]
    decreases |items| - p
  {
    if p >= |items| {
    } else if ItemCount(items[p], Order) == MaxHeld {
      if p <= q {
        assert ItemCount(orig[p], Order) == MaxHeld;
      }
    } else {
      var items' := items[p := gifts[p]];
      GiveFromAt(items', gifts, p + 1, orig, q);
      if q == p {
        assert Reached(orig, p);
      }
    }
  }

  /** The drop for one reached seat: exactly Allowance items when there is a
      kind to choose from, each of a kind below both caps (and not the saw
      when the round starts with at most 2 charges). */
  lemma GiftCount(c: Config, player: Counts, global: Counts, itemCount: int, draw: nat -> nat)
    requires ConfigOk(c) && Covers(player, Order) && Covers(global, Order)
    ensures ItemCount(Gift(c, player, global, itemCount, draw), Order) == ItemCount(player, Order) +
      (if |Choices(c, player, global)| > 0 then Allowance(itemCount, ItemCount(player, Order)) else 0)
  {
    var ch := Choices(c, player, global);
    if |ch| > 0 {
      var ks := DrawsFrom(ch, Allowance(itemCount, ItemCount(player, Order)), draw);
      OrderDistinct();
      assert forall k :: k in ks ==> k in Order;
      ItemCountCredited(player, ks, Order);
    }
  }

  /** Every kind a drop raises was a possible choice. */
  lemma GiftKinds(c: Config, player: Counts, global: Counts, itemCount: int, draw: nat -> nat, k: Kind)
    requires ConfigOk(c) && Covers(player, Order) && Covers(global, Order) && k in Order
    requires Gift(c, player, global, itemCount, draw)[k] != player[k]
    ensures Gift(c, player, global, itemCount, draw)[k] > player[k]
    ensures k in Choices(c, player, global)
  {
    var ch := Choices(c, player, global);
    var ks := DrawsFrom(ch, Allowance(itemCount, ItemCount(player, Order)), draw);
    assert multiset(ks)[k] != 0;
  }

  /** `give_items`: a player gains at most min(item_count, 8 - held) items,
      only of kinds below both caps counted at the start of the call, never
      the saw when the round starts with at most 2 charges, and the players
      after the first one holding 8 items get nothing. */
  lemma GiveItemsEffect(c: Config, items: seq<Counts>, itemCount: int, draw: nat -> nat -> nat, p: nat)
    requires ConfigOk(c) && AllCover(items) && p < |items|
    ensures var r := GiveItemsSpec(c, items, itemCount, draw);
      var global := GlobalCount(items);
      && Covers(r[p], Order)
      && (!Reached(items, p) ==> r[p] == items[p])
      && ItemCount(r[p], Order) - ItemCount(items[p], Order) <= Allowance(itemCount, ItemCount(items[p], Order))
      && ItemCount(r[p], Order) >= ItemCount(items[p], Order)
      && forall k :: k in Order && r[p][k] != items[p][k] ==>
           r[p][k] > items[p][k] && items[p][k] < c.itemCaps[k] && global[k] < c.globalItemCaps[k]
           && !(c.startCharges <= 2 && k == Saw)
  {
    var global := GlobalCount(items);
    GiveFromAt(items, Gifts(c, items, global, itemCount, draw), 0, items, p);
    GiftCount(c, items[p], global, itemCount, draw(p));
    forall k | k in Order && GiveItemsSpec(c, items, itemCount, draw)[p][k] != items[p][k]
      ensures GiveItemsSpec(c, items, itemCount, draw)[p][k] > items[p][k]
      ensures k in Choices(c, items[p], global)
    {
      GiftKinds(c, items[p], global, itemCount, draw(p), k);
    }
  }

  /** No player ends up holding more than 8 items. */
  lemma GiveItemsCapped(c: Config, items: seq<Counts>, itemCount: int, draw: nat -> nat -> nat, p: nat)
    requires ConfigOk(c) && AllCover(items) && p < |items|
    requires ItemCount(items[p], Order) <= MaxHeld
    ensures ItemCount(GiveItemsSpec(c, items, itemCount, draw)[p], Order) <= MaxHeld
  {
    GiveItemsEffect(c, items, itemCount, draw, p);
  }

  // ----------------------------------------------------------- switch_turn

  /** One step of the scan: `(n + turn_inc) % player_count`. */
  function NextSeat(c: Config, s: State, n: int): (r: int)
    requires ConfigOk(c)
    ensures 0 <= r < c.playerCount
  {
    (n + s.turnInc) % c.playerCount
  }

  /** The scan of `switch_turn` from seat n with `fuel` steps left: a jammed
      seat loses its jam status and is passed over, the first other seat
      with charges left takes the turn, and running out of steps (or a seat
      number that is no `GameStatus` value) raises ValueError. */
  function SwitchFrom(c: Config, s: State, n: int, fuel: nat): (r: (Result<nat>, State))
    requires Inv(c, s)
    ensures Inv(c, r.1)
    decreases fuel
  {
    if fuel == 0 then (Err(ValueError), s)
    else
      var m := NextSeat(c, s, n);
      match StatusOf(m)
      case None => (Err(ValueError), s)
      case Some(st) =>
        if st in s.statuses then SwitchFrom(c, s.(statuses := s.statuses - {st}), m, fuel - 1)
        else if s.charges[m] > 0 then (Ok(m), s.(currentTurn := m))
        else SwitchFrom(c, s, m, fuel - 1)
  }

  /** `switch_turn`: the winner if there is one, else a scan of at most
      2 * player_count steps. */
  function SwitchTurnSpec(c: Config, s: State): (r: (Result<nat>, State))
    requires Inv(c, s)
    ensures Inv(c, r.1)
  {
    match Winner(s.charges)
    case Some(w) => (Ok(w), s)
    case None => SwitchFrom(c, s, s.currentTurn, 2 * c.playerCount)
  }

  /** The scan changes nothing but the statuses, which only shrink, and the
      turn, which goes to the seat it returns; a seat it returns has charges. */
  lemma {:induction false} SwitchFromFrame(c: Config, s: State, n: int, fuel: nat)
    requires Inv(c, s)
    ensures var (r, s') := SwitchFrom(c, s, n, fuel);
      && s'.charges == s.charges && s'.items == s.items && s'.turnInc == s.turnInc
      && s'.sequenceIdx == s.sequenceIdx && s'.total == s.total && s'.live == s.live
      && s'.statuses <= s.statuses
      && (r.Ok? ==> r.value < c.playerCount && s.charges[r.value] > 0 && s'.currentTurn == r.value)
      && (r.Err? ==> r.error == ValueError && s'.currentTurn == s.currentTurn)
    decreases fuel
  {
    if fuel > 0 {
      var m := NextSeat(c, s, n);
      match StatusOf(m)
      case None =>
      case Some(st) =>
        if st in s.statuses {
          SwitchFromFrame(c, s.(statuses := s.statuses - {st}), m, fuel - 1);
        } else if s.charges[m] <= 0 {
          SwitchFromFrame(c, s, m, fuel - 1);
        }
    }
  }

  /** `switch_turn` with a winner returns it and changes nothing; otherwise
      it only shrinks the statuses and moves the turn to the seat it returns,
      which has charges left, or raises ValueError with the turn unchanged. */
  lemma SwitchTurnEffect(c: Config, s: State)
    requires Inv(c, s)
    ensures var (r, s') := SwitchTurnSpec(c, s);
      && (Winner(s.charges).Some? ==> r == Ok(Winner(s.charges).value) && s' == s)
      && s'.charges == s.charges && s'.items == s.items && s'.turnInc == s.turnInc
      && s'.sequenceIdx == s.sequenceIdx && s'.total == s.total && s'.live == s.live
      && s'.statuses <= s.statuses
      && (r.Ok? ==> r.value < c.playerCount && s.charges[r.value] > 0)
      && (r.Ok? && Winner(s.charges).None? ==> s'.currentTurn == r.value)
      && (r.Err? ==> r.error == ValueError && s'.currentTurn == s.currentTurn)
  {
    if Winner(s.charges).None? {
      SwitchFromFrame(c, s, s.currentTurn, 2 * c.playerCount);
    }
  }

  /** Seat n after j steps of the scan with increment inc. */
  function Step(c: Config, inc: int, n: int, j: nat): int
    requires ConfigOk(c)
    decreases j
  {
    if j == 0 then n else Step(c, inc, (n + inc) % c.playerCount, j - 1)
  }

  /** After j steps from seat n the scan is at (n + j * inc) % player_count. */
  lemma {:induction false} StepClosed(c: Config, inc: int, n: int, j: nat)
    requires ConfigOk(c) && 0 <= n < c.playerCount && (inc == 1 || inc == -1)
    ensures Step(c, inc, n, j) == (n + Signed(j, inc)) % c.playerCount
    decreases j
  {
    var p := c.playerCount;
    if j == 0 {
      ModUnique(n, p, 0, n);
    } else {
      var m := (n + inc) % p;
      StepClosed(c, inc, m, j - 1);
      var before := Signed(j - 1, inc);
      assert n + inc + before == n + Signed(j, inc);
      ModAddMod(n + inc, before, p);
      calc {
        Step(c, inc, n, j);
        Step(c, inc, m, j - 1);
        (m + before) % p;
        (n + inc + before) % p;
      }
    }
  }

  /** j * inc for inc = 1 or -1. */
  function Signed(j: nat, inc: int): int
  {
    if inc == 1 then j else 0 - j as int
  }

  /** player_count steps lead back to the start. */
  lemma StepRound(c: Config, inc: int, n: int)
    requires ConfigOk(c) && 0 <= n < c.playerCount && (inc == 1 || inc == -1)
    ensures Step(c, inc, n, c.playerCount) == n
  {
    StepClosed(c, inc, n, c.playerCount);
    ModAddMultiple(n, inc, c.playerCount);
    ModUnique(n, c.playerCount, 0, n);
  }

  /** With turn_inc = 1 or -1 the scan reaches every seat within player_count steps. */
  lemma StepReaches(c: Config, inc: int, n: int, target: int) returns (j: nat)
    requires ConfigOk(c) && 0 <= n < c.playerCount && 0 <= target < c.playerCount
    requires inc == 1 || inc == -1
    ensures 1 <= j <= c.playerCount && Step(c, inc, n, j) == target
  {
    var p := c.playerCount;
    ModUnique(target, p, 0, target);
    if inc == 1 {
      j := (target - n) % p;
      ShiftForward(n, target, p);
      if j == 0 {
        ModUnique(n, p, 0, n);
        j := p;
        StepRound(c, inc, n);
      } else {
        StepClosed(c, inc, n, j);
      }
    } else {
      j := (n - target) % p;
      ModSubMod(n, n - target, p);
      assert n - (n - target) == target;
      if j == 0 {
        ModUnique(n, p, 0, n);
        j := p;
        StepRound(c, inc, n);
      } else {
        StepClosed(c, inc, n, j);
      }
    }
  }

  /** The scan succeeds if it meets a living seat `target` at step j and,
      should that seat be jammed, meets it again player_count steps later. */
  lemma {:induction false} SwitchFromFinds(c: Config, s: State, n: int, fuel: nat, target: nat, j: nat)
    requires Inv(c, s) && c.playerCount <= 4 && 0 <= n < c.playerCount
    requires target < c.playerCount && s.charges[target] > 0
    requires 1 <= j <= fuel && Step(c, s.turnInc, n, j) == target
    requires StatusOf(target).value in s.statuses ==> j + c.playerCount <= fuel
    ensures SwitchFrom(c, s, n, fuel).0.Ok?
    decreases fuel
  {
    var m := NextSeat(c, s, n);
    var st := StatusOf(m).value;
    if st in s.statuses {
      var s' := s.(statuses := s.statuses - {st});
      if j == 1 {
        StepRound(c, s.turnInc, m);
        SwitchFromFinds(c, s', m, fuel - 1, target, c.playerCount);
      } else {
        assert StatusValue(st) == m;
        SwitchFromFinds(c, s', m, fuel - 1, target, j - 1);
      }
    } else if s.charges[m] <= 0 {
      SwitchFromFinds(c, s, m, fuel - 1, target, j - 1);
    }
  }

  /** With at most four seats (so every seat has a jam status) and someone
      alive, `switch_turn` always finds a seat: 2 * player_count steps pass
      every seat twice, the first pass clearing its jam. */
  lemma SwitchTurnFinds(c: Config, s: State, alive: nat)
    requires Inv(c, s) && c.playerCount <= 4
    requires alive < c.playerCount && s.charges[alive] > 0
    ensures SwitchTurnSpec(c, s).0.Ok?
  {
    if Winner(s.charges).None? {
      var j := StepReaches(c, s.turnInc, s.currentTurn, alive);
      SwitchFromFinds(c, s, s.currentTurn, 2 * c.playerCount, alive, j);
    }
  }

  // --------------------------------------------------------- next_sequence

  /** `next_sequence(drop_items)`: statuses cleared, the next sequence of the
      configuration (cyclically) loaded, and its items dropped if asked. */
  function NextSequenceSpec(c: Config, s: State, dropItems: bool, draw: nat -> nat -> nat): (r: State)
    requires Inv(c, s)
    ensures Inv(c, r) && 0 <= r.sequenceIdx
  {
    var idx := (s.sequenceIdx + 1) % |c.sequences|;
    var next := c.sequences[idx];
    var s1 := s.(statuses := {}, sequenceIdx := idx, total := next.live + next.blank, live := next.live);
    if dropItems then s1.(items := GiveItemsSpec(c, s.items, next.itemCount, draw)) else s1
  }

  /** A reload clears every status, moves to the following sequence modulo
      their number, loads its live and blank counts, and touches the items
      only when it drops them; charges and turn are kept. */
  lemma NextSequenceEffect(c: Config, s: State, dropItems: bool, draw: nat -> nat -> nat)
    requires Inv(c, s)
    ensures var r := NextSequenceSpec(c, s, dropItems, draw);
      var next := c.sequences[r.sequenceIdx];
      && r.statuses == {}
      && r.sequenceIdx == (s.sequenceIdx + 1) % |c.sequences|
      && r.total == next.live + next.blank && r.live == next.live
      && r.charges == s.charges && r.currentTurn == s.currentTurn && r.turnInc == s.turnInc
      && (!dropItems ==> r.items == s.items)
      && (dropItems ==> r.items == GiveItemsSpec(c, s.items, next.itemCount, draw))
  {
  }

  /** k reloads without drops. */
  function Reloads(c: Config, s: State, k: nat, draw: nat -> nat -> nat): (r: State)
    requires Inv(c, s)
    ensures Inv(c, r)
    decreases k
  {
    if k == 0 then s else Reloads(c, NextSequenceSpec(c, s, false, draw), k - 1, draw)
  }

  /** The sequences are loaded in turn: k reloads from index i reach index
      (i + k) mod the number of sequences, starting from -1 before the first. */
  lemma {:induction false} ReloadsCycle(c: Config, s: State, k: nat, draw: nat -> nat -> nat)
    requires Inv(c, s)
    ensures Reloads(c, s, k, draw).sequenceIdx == if k == 0 then s.sequenceIdx else (s.sequenceIdx + k) % |c.sequences|
    decreases k
  {
    if k > 0 {
      var n := |c.sequences|;
      var s1 := NextSequenceSpec(c, s, false, draw);
      assert s1.sequenceIdx == (s.sequenceIdx + 1) % n;
      ReloadsCycle(c, s1, k - 1, draw);
      assert Reloads(c, s, k, draw) == Reloads(c, s1, k - 1, draw);
      if k > 1 {
        ModAddMod(s.sequenceIdx + 1, k - 1, n);
        assert s.sequenceIdx + 1 + (k - 1) == s.sequenceIdx + k;
      }
    }
  }

  // ----------------------------------------------------------------- moves

  /** A move as `make_move` reads its string: `shoot_<offset>`,
      `jammer_<offset>`, or the name of an item (a bare `jammer` included). */
  datatype Move = Shoot(offset: int) | Jam(offset: int) | Use(item: Kind)

  /** A `moves()` entry: the owner of the items used (0 for a shot) and the move. */
  datatype Entry = Entry(owner: int, move: Move)

  /** `list.remove(x)` on a seat list, guarded by `x in list`. */
  function RemoveSeat(seats: seq<nat>, x: nat): (r: seq<nat>)
    ensures forall y :: y in r ==> y in seats
    ensures forall y :: y != x && y in seats ==> y in r
    ensures |r| == if x in seats then |seats| - 1 else |seats|
  {
    if seats == [] then []
    else if seats[0] == x then seats[1..]
    else [seats[0]] + RemoveSeat(seats[1..], x)
  }

  /** The living seats other than the player to move. */
  function Opponents(c: Config, s: State): (r: seq<nat>)
    requires Inv(c, s)
    ensures forall o: int :: o in r <==> 0 <= o < c.playerCount && o != s.currentTurn && s.charges[o] > 0
  {
    var living := Living(s.charges);
    LivingMembers(s.charges);
    var r := RemoveSeat(living, s.currentTurn);
    forall o | o in r ensures o != s.currentTurn {
      if o == s.currentTurn {
        LivingOnce(living, s.currentTurn);
      }
    }
    r
  }

  /** A strictly increasing list loses every copy of x when one is removed. */
  lemma {:induction false} LivingOnce(seats: seq<nat>, x: nat)
    requires forall j, k :: 0 <= j < k < |seats| ==> seats[j] < seats[k]
    ensures x !in RemoveSeat(seats, x)
  {
    if seats != [] && seats[0] != x {
      LivingOnce(seats[1..], x);
    } else if seats != [] {
      forall j | 0 <= j < |seats[1..]| ensures seats[1..][j] != x {
        assert seats[0] < seats[j + 1];
      }
    }
  }

  /** The shot entries, one per offset. */
  function ShootEntries(offsets: seq<int>): (r: seq<Entry>)
  {
    if offsets == [] then []
    else ShootEntries(offsets[..|offsets| - 1]) + [Entry(0, Shoot(offsets[|offsets| - 1]))]
  }

  lemma {:induction false} ShootEntriesMembers(offsets: seq<int>, e: Entry)
    ensures e in ShootEntries(offsets) <==> e.owner == 0 && e.move.Shoot? && e.move.offset in offsets
  {
    if offsets != [] {
      var n := |offsets| - 1;
      ShootEntriesMembers(offsets[..n], e);
      assert offsets == offsets[..n] + [offsets[n]];
    }
  }

  /** The jam entries for one owner, one per target offset. */
  function JamEntries(owner: int, targets: seq<int>): seq<Entry>
  {
    if targets == [] then []
    else [Entry(owner, Jam(targets[0]))] + JamEntries(owner, targets[1..])
  }

  /** The jam entries are exactly a jam of each target by the owner. */
  lemma {:induction false} JamEntriesMembers(owner: int, targets: seq<int>, e: Entry)
    ensures e in JamEntries(owner, targets) <==> e.owner == owner && e.move.Jam? && e.move.offset in targets
  {
    if targets != [] {
      JamEntriesMembers(owner, targets[1..], e);
      assert targets == [targets[0]] + targets[1..];
    }
  }

  /** `[i for i in offsets if i != 0]`. */
  function NonZero(offsets: seq<int>): (r: seq<int>)
    ensures forall t :: t in r <==> t in offsets && t != 0
  {
    if offsets == [] then []
    else (if offsets[0] != 0 then [offsets[0]] else []) + NonZero(offsets[1..])
  }

  /** The entries of one held kind: a jammer gives a jam entry per target,
      a stolen adrenaline gives none, any other kind one use entry. */
  function KindEntries(owner: int, k: Kind, targets: seq<int>, stealing: bool): seq<Entry>
  {
    if stealing && k == Adrenaline then []
    else if k == Jammer then JamEntries(owner, targets)
    else [Entry(owner, Use(k))]
  }

  /** The entries of a list of held kinds, in order. */
  function ItemEntries(owner: int, held: seq<Kind>, targets: seq<int>, stealing: bool): seq<Entry>
  {
    if held == [] then []
    else ItemEntries(owner, held[..|held| - 1], targets, stealing) + KindEntries(owner, held[|held| - 1], targets, stealing)
  }

  /** Entry e is one of `owner`'s entries for the held kinds `held`. */
  predicate Listed(e: Entry, owner: int, held: seq<Kind>, targets: seq<int>, stealing: bool) {
    e.owner == owner &&
      ((e.move.Use? && e.move.item in held && e.move.item != Jammer && !(stealing && e.move.item == Adrenaline))
       || (e.move.Jam? && Jammer in held && e.move.offset in targets))
  }

  lemma {:induction false} ItemEntriesMembers(owner: int, held: seq<Kind>, targets: seq<int>, stealing: bool, e: Entry)
    ensures e in ItemEntries(owner, held, targets, stealing) <==> Listed(e, owner, held, targets, stealing)
  {
    if held != [] {
      var n := |held| - 1;
      var init, k := held[..n], held[n];
      ItemEntriesMembers(owner, init, targets, stealing, e);
      var prev := ItemEntries(owner, init, targets, stealing);
      var add := KindEntries(owner, k, targets, stealing);
      assert ItemEntries(owner, held, targets, stealing) == prev + add;
      KindEntriesMembers(owner, k, targets, stealing, e);
      assert held == init + [k];
      assert forall x :: x in held <==> x in init || x == k;
      if e in prev + add {
        InEither(prev, add, e);
      } else if e in prev {
        InLeft(prev, add, e);
      } else if e in add {
        InRight(prev, add, e);
      }
    }
  }

  lemma KindEntriesMembers(owner: int, k: Kind, targets: seq<int>, stealing: bool, e: Entry)
    ensures e in KindEntries(owner, k, targets, stealing) <==>
      e.owner == owner &&
      ((e.move.Use? && e.move.item == k && k != Jammer && !(stealing && k == Adrenaline))
       || (e.move.Jam? && k == Jammer && e.move.offset in targets))
  {
    JamEntriesMembers(owner, targets, e);
  }


  /** The normal list: a shot at every living offset, then the mover's held
      items.  The items' entries name as owner the leftover loop variable, the
      last living offset; with nobody alive that variable is unbound and the
      first non-jammer item raises UnboundLocalError. */
  function OwnMoves(c: Config, s: State): (r: Result<seq<Entry>>)
    requires Inv(c, s)
  {
    var offsets := LivingOffsets(c, s, Living(s.charges));
    var held := Held(s.items[s.currentTurn], Order);
    if Unbound(offsets, held) then Err(UnboundLocalError) else Ok(OwnList(c, s))
  }

  /** The normal list when it can be built. */
  function OwnList(c: Config, s: State): seq<Entry>
    requires Inv(c, s)
  {
    var offsets := LivingOffsets(c, s, Living(s.charges));
    var held := Held(s.items[s.currentTurn], Order);
    var last := if offsets == [] then 0 else offsets[|offsets| - 1];
    ShootEntries(offsets) + ItemEntries(last, held, NonZero(offsets), false)
  }

  /** The item loop reads the unbound loop variable: no living offsets and a
      held kind other than the jammer. */
  predicate Unbound(offsets: seq<int>, held: seq<Kind>) {
    offsets == [] && exists k :: k in held && k != Jammer
  }

  /** The kinds each record lists when iterated. */
  function HeldAll(items: seq<Counts>): (r: seq<seq<Kind>>)
    requires AllCover(items)
    ensures |r| == |items| && forall o :: 0 <= o < |r| ==> r[o] == Held(items[o], Order)
  {
    if items == [] then []
    else
      var n := |items| - 1;
      HeldAll(items[..n]) + [Held(items[n], Order)]
  }

  /** The opponents' entries, from the first n given opponents in order;
      `held` lists each record's kinds. */
  function StealMoves(opps: seq<nat>, n: nat, mover: nat, held: seq<seq<Kind>>, targets: seq<int>): (r: seq<Entry>)
    requires n <= |opps| && forall j :: 0 <= j < |opps| ==> opps[j] < |held|
  {
    if n == 0 then []
    else
      var o := opps[n - 1];
      StealMoves(opps, n - 1, mover, held, targets) + Stolen(o, mover, held, targets)
  }

  /** One opponent's entries: none for the mover's own seat. */
  function Stolen(o: nat, mover: nat, held: seq<seq<Kind>>, targets: seq<int>): seq<Entry>
    requires o < |held|
  {
    if o == mover then [] else ItemEntries(o, held[o], targets, true)
  }

  /** Every entry of the list belongs to the opponent at some position j
      below n, which is not the mover, and is one of that opponent's entries. */
  lemma {:induction false} StealMovesSound(opps: seq<nat>, n: nat, mover: nat, held: seq<seq<Kind>>, targets: seq<int>, e: Entry)
    returns (j: nat)
    requires n <= |opps| && forall i :: 0 <= i < |opps| ==> opps[i] < |held|
    requires e in StealMoves(opps, n, mover, held, targets)
    ensures j < n && opps[j] == e.owner && e.owner != mover
    ensures Listed(e, e.owner, held[e.owner], targets, true)
  {
    var o := opps[n - 1];
    var prev := StealMoves(opps, n - 1, mover, held, targets);
    var add := Stolen(o, mover, held, targets);
    assert StealMoves(opps, n, mover, held, targets) == prev + add;
    InEither(prev, add, e);
    if e in prev {
      j := StealMovesSound(opps, n - 1, mover, held, targets, e);
    } else {
      StolenSound(o, mover, held, targets, e);
      j := n - 1;
    }
  }

  lemma StolenSound(o: nat, mover: nat, held: seq<seq<Kind>>, targets: seq<int>, e: Entry)
    requires o < |held| && e in Stolen(o, mover, held, targets)
    ensures o != mover && e.owner == o && Listed(e, o, held[o], targets, true)
  {
    ItemEntriesMembers(o, held[o], targets, true, e);
  }

  lemma InEither(a: seq<Entry>, b: seq<Entry>, x: Entry)
    requires x in a + b
    ensures x in a || x in b
  {
  }


  /** What stealing from a record lists, in terms of its counts. */
  lemma StolenHeld(e: Entry, owner: int, rec: Counts, order: seq<Kind>, targets: seq<int>)
    requires Covers(rec, order) && Jammer in order
    ensures Listed(e, owner, Held(rec, order), targets, true) <==>
      (e.owner == owner &&
        ((e.move.Use? && e.move.item in order && e.move.item != Jammer && e.move.item != Adrenaline && rec[e.move.item] >= 1)
         || (e.move.Jam? && rec[Jammer] >= 1 && e.move.offset in targets)))
  {
    HeldMembers(rec, order);
  }

  lemma InLeft(a: seq<Entry>, b: seq<Entry>, x: Entry)
    requires x in a
    ensures x in a + b
  {
  }

  lemma InRight(a: seq<Entry>, b: seq<Entry>, x: Entry)
    requires x in b
    ensures x in a + b
  {
  }

  lemma StolenHas(o: nat, mover: nat, held: seq<seq<Kind>>, targets: seq<int>, e: Entry)
    requires o < |held| && o != mover && Listed(e, o, held[o], targets, true)
    ensures e in Stolen(o, mover, held, targets)
  {
    ItemEntriesMembers(o, held[o], targets, true, e);
  }

  /** Every entry of a listed opponent other than the mover is in the list. */
  lemma {:induction false} StealMovesComplete(opps: seq<nat>, n: nat, mover: nat, held: seq<seq<Kind>>, targets: seq<int>, e: Entry, j: nat)
    requires n <= |opps| && forall i :: 0 <= i < |opps| ==> opps[i] < |held|
    requires j < n && opps[j] != mover && Listed(e, opps[j], held[opps[j]], targets, true)
    ensures e in StealMoves(opps, n, mover, held, targets)
  {
    var o := opps[n - 1];
    var prev := StealMoves(opps, n - 1, mover, held, targets);
    var add := Stolen(o, mover, held, targets);
    assert StealMoves(opps, n, mover, held, targets) == prev + add;
    if j < n - 1 {
      StealMovesComplete(opps, n - 1, mover, held, targets, e, j);
      InLeft(prev, add, e);
    } else {
      StolenHas(o, mover, held, targets, e);
      InRight(prev, add, e);
    }
  }

  /** The adrenaline list: the items of the living opponents; removing the
      mover from the living list raises ValueError when the mover is dead. */
  function AdrenalineMoves(c: Config, s: State): (r: Result<seq<Entry>>)
    requires Inv(c, s)
  {
    if s.currentTurn !in Living(s.charges) then Err(ValueError)
    else
      var opps := Opponents(c, s);
      assert forall j :: 0 <= j < |opps| ==> opps[j] in opps;
      Ok(StealMoves(opps, |opps|, s.currentTurn, HeldAll(s.items), LivingOffsets(c, s, opps)))
  }

  /** `moves()`: under adrenaline the opponents' items, otherwise the normal
      list; an empty adrenaline list clears the status and retries, and an
      empty normal list fails removing a status that is not there. */
  function MovesSpec(c: Config, s: State): (r: (Result<seq<Entry>>, State))
    requires Inv(c, s)
    ensures Inv(c, r.1) && r.1 == s.(statuses := r.1.statuses) && r.1.statuses <= s.statuses
    ensures r.0.Ok? ==> |r.0.value| > 0
    decreases if AdrenalineActive in s.statuses then 1 else 0
  {
    var listed := if AdrenalineActive in s.statuses then AdrenalineMoves(c, s) else OwnMoves(c, s);
    match listed
    case Err(e) => (Err(e), s)
    case Ok(ms) =>
      if |ms| > 0 then (Ok(ms), s)
      else if AdrenalineActive in s.statuses then MovesSpec(c, s.(statuses := s.statuses - {AdrenalineActive}))
      else (Err(KeyError), s)
  }

  /** Seat i is at offset 0 exactly when it is the player to move. */
  lemma OffsetZero(c: Config, s: State, i: int)
    requires Inv(c, s) && 0 <= i < c.playerCount
    ensures IdxToOffset(c, s, i) == 0 <==> i == s.currentTurn
  {
    var p := c.playerCount;
    if i >= s.currentTurn {
      ModUnique(i - s.currentTurn, p, 0, i - s.currentTurn);
    } else {
      ModUnique(i - s.currentTurn, p, -1, p + i - s.currentTurn);
    }
  }

  /** Under adrenaline the list is exactly: for each living opponent, a use
      of every kind it holds other than adrenaline and the jammer, and, if
      it holds a jammer, a jam of every living opponent's offset; a dead
      mover raises ValueError instead. */
  lemma AdrenalineMovesExact(c: Config, s: State, e: Entry)
    requires Inv(c, s)
    ensures AdrenalineMoves(c, s).Err? <==> s.charges[s.currentTurn] <= 0
    ensures AdrenalineMoves(c, s).Ok? ==>
      (e in AdrenalineMoves(c, s).value <==>
        (0 <= e.owner < c.playerCount && e.owner != s.currentTurn && s.charges[e.owner] > 0 &&
         ((e.move.Use? && e.move.item in Order && e.move.item != Jammer && e.move.item != Adrenaline
           && s.items[e.owner][e.move.item] >= 1)
          || (e.move.Jam? && s.items[e.owner][Jammer] >= 1 && e.move.offset in LivingOffsets(c, s, Opponents(c, s))))))
  {
    LivingMembers(s.charges);
    if s.charges[s.currentTurn] > 0 {
      var opps := Opponents(c, s);
      assert forall j :: 0 <= j < |opps| ==> opps[j] in opps;
      var targets := LivingOffsets(c, s, opps);
      var held := HeldAll(s.items);
      var listed := StealMoves(opps, |opps|, s.currentTurn, held, targets);
      assert AdrenalineMoves(c, s) == Ok(listed);
      if e in listed {
        AdrenalineSound(c, s, opps, held, targets, e);
      }
      if 0 <= e.owner < c.playerCount && e.owner != s.currentTurn && s.charges[e.owner] > 0
         && ((e.move.Use? && e.move.item in Order && e.move.item != Jammer && e.move.item != Adrenaline
              && s.items[e.owner][e.move.item] >= 1)
             || (e.move.Jam? && s.items[e.owner][Jammer] >= 1 && e.move.offset in targets)) {
        AdrenalineComplete(c, s, opps, held, targets, e);
      }
    }
  }

  lemma AdrenalineSound(c: Config, s: State, opps: seq<nat>, held: seq<seq<Kind>>, targets: seq<int>, e: Entry)
    requires Inv(c, s) && held == HeldAll(s.items) && forall j :: 0 <= j < |opps| ==> opps[j] < |held|
    requires e in StealMoves(opps, |opps|, s.currentTurn, held, targets)
    ensures 0 <= e.owner < c.playerCount && e.owner != s.currentTurn && e.owner in opps
    ensures (e.move.Use? && e.move.item in Order && e.move.item != Jammer && e.move.item != Adrenaline
             && s.items[e.owner][e.move.item] >= 1)
          || (e.move.Jam? && s.items[e.owner][Jammer] >= 1 && e.move.offset in targets)
  {
    var j := StealMovesSound(opps, |opps|, s.currentTurn, held, targets, e);
    assert opps[j] in opps;
    StolenHeld(e, e.owner, s.items[e.owner], Order, targets);
  }

  lemma AdrenalineComplete(c: Config, s: State, opps: seq<nat>, held: seq<seq<Kind>>, targets: seq<int>, e: Entry)
    requires Inv(c, s) && held == HeldAll(s.items) && forall j :: 0 <= j < |opps| ==> opps[j] < |held|
    requires e.owner in opps && e.owner != s.currentTurn
    requires (e.move.Use? && e.move.item in Order && e.move.item != Jammer && e.move.item != Adrenaline
              && s.items[e.owner][e.move.item] >= 1)
          || (e.move.Jam? && s.items[e.owner][Jammer] >= 1 && e.move.offset in targets)
    ensures e in StealMoves(opps, |opps|, s.currentTurn, held, targets)
  {
    StolenHeld(e, e.owner, s.items[e.owner], Order, targets);
    var j :| 0 <= j < |opps| && opps[j] == e.owner;
    StealMovesComplete(opps, |opps|, s.currentTurn, held, targets, e, j);
  }


  /** The normal list is exactly: a shot at every living offset (owner 0),
      then, owned by the last living offset, a use of every kind the mover
      holds other than the jammer and, if the mover holds a jammer, a jam of
      every living offset but 0. */
  lemma OwnMovesExact(c: Config, s: State, e: Entry)
    requires Inv(c, s) && OwnMoves(c, s).Ok?
    ensures var offsets := LivingOffsets(c, s, Living(s.charges));
      e in OwnMoves(c, s).value <==>
      ((e.owner == 0 && e.move.Shoot? && e.move.offset in offsets)
       || (offsets != [] && e.owner == offsets[|offsets| - 1] &&
           ((e.move.Use? && e.move.item in Order && e.move.item != Jammer && s.items[s.currentTurn][e.move.item] >= 1)
            || (e.move.Jam? && s.items[s.currentTurn][Jammer] >= 1 && e.move.offset in offsets && e.move.offset != 0))))
  {
    var offsets := LivingOffsets(c, s, Living(s.charges));
    var held := Held(s.items[s.currentTurn], Order);
    var last := if offsets == [] then 0 else offsets[|offsets| - 1];
    assert OwnMoves(c, s).value == OwnList(c, s);
    ShootEntriesMembers(offsets, e);
    ItemEntriesMembers(last, held, NonZero(offsets), false, e);
    HeldMembers(s.items[s.currentTurn], Order);
  }

  /** The mover may shoot itself exactly when it is alive. */
  lemma ShootSelfListed(c: Config, s: State)
    requires Inv(c, s) && OwnMoves(c, s).Ok?
    ensures Entry(0, Shoot(0)) in OwnMoves(c, s).value <==> s.charges[s.currentTurn] > 0
  {
    var living := Living(s.charges);
    var offsets := LivingOffsets(c, s, living);
    LivingMembers(s.charges);
    OwnMovesExact(c, s, Entry(0, Shoot(0)));
    if s.charges[s.currentTurn] > 0 {
      var j :| 0 <= j < |living| && living[j] == s.currentTurn;
      OffsetZero(c, s, s.currentTurn);
      assert offsets[j] == 0;
    }
    if 0 in offsets {
      var j :| 0 <= j < |offsets| && offsets[j] == 0;
      OffsetZero(c, s, living[j]);
      assert living[j] in living;
    }
  }

  /** The normal list fails exactly when nobody is alive and the mover holds
      an item other than the jammer. */
  lemma OwnMovesError(c: Config, s: State)
    requires Inv(c, s)
    ensures OwnMoves(c, s).Err? <==>
      (forall i :: 0 <= i < c.playerCount ==> s.charges[i] <= 0)
      && exists k :: k in Order && k != Jammer && s.items[s.currentTurn][k] >= 1
    ensures OwnMoves(c, s).Err? ==> OwnMoves(c, s).error == UnboundLocalError
  {
    var offsets := LivingOffsets(c, s, Living(s.charges));
    var rec := s.items[s.currentTurn];
    assert OwnMoves(c, s).Err? == Unbound(offsets, Held(rec, Order));
    LivingEmpty(s.charges);
    UnboundShape(offsets, rec, Order, forall i :: 0 <= i < c.playerCount ==> s.charges[i] <= 0);
  }

  /** The normal list fails exactly when nobody is alive and the mover holds
      a kind other than the jammer. */
  lemma UnboundShape(offsets: seq<int>, rec: Counts, order: seq<Kind>, dead: bool)
    requires Covers(rec, order) && (offsets == [] <==> dead)
    ensures Unbound(offsets, Held(rec, order)) <==> dead && exists k :: k in order && k != Jammer && rec[k] >= 1
  {
    HeldOther(rec, order, Jammer);
  }

  /** Nobody is alive exactly when the living list is empty. */
  lemma LivingEmpty(charges: seq<int>)
    ensures Living(charges) == [] <==> forall i :: 0 <= i < |charges| ==> charges[i] <= 0
  {
    var living := Living(charges);
    LivingMembers(charges);
    if living != [] {
      assert living[0] in living;
    }
  }

  /** What `moves()` returns: the adrenaline list when it is not empty, with
      nothing changed; otherwise the normal list of the board with
      adrenaline cleared; failures are ValueError (dead mover under
      adrenaline), UnboundLocalError or KeyError. */
  lemma MovesChoice(c: Config, s: State)
    requires Inv(c, s)
    ensures var (r, s') := MovesSpec(c, s);
      && (AdrenalineActive in s'.statuses ==> s' == s && r == AdrenalineMoves(c, s))
      && (AdrenalineActive !in s'.statuses ==> s'.statuses == s.statuses - {AdrenalineActive})
      && (AdrenalineActive !in s'.statuses && r.Ok? ==> r == OwnMoves(c, s'))
      && (AdrenalineActive in s.statuses && AdrenalineMoves(c, s) == Ok([]) ==> AdrenalineActive !in s'.statuses)
  {
    if AdrenalineActive in s.statuses {
      var s1 := s.(statuses := s.statuses - {AdrenalineActive});
      match AdrenalineMoves(c, s)
      case Err(e) =>
        assert MovesSpec(c, s) == (Err(ValueError), s);
      case Ok(ms) =>
        if |ms| > 0 {
          assert MovesSpec(c, s) == (Ok(ms), s);
        } else {
          assert MovesSpec(c, s) == MovesSpec(c, s1);
          MovesOwn(c, s1);
        }
    } else {
      MovesOwn(c, s);
    }
  }

  /** Without adrenaline the board is left as it is and the list is the
      normal one. */
  lemma MovesOwn(c: Config, s: State)
    requires Inv(c, s) && AdrenalineActive !in s.statuses
    ensures MovesSpec(c, s).1 == s
    ensures MovesSpec(c, s).0.Ok? ==> MovesSpec(c, s).0 == OwnMoves(c, s)
  {
  }


  /** `moves()` fails only with ValueError (dead mover under adrenaline),
      UnboundLocalError (nobody alive) or KeyError (an empty normal list). */
  lemma MovesErrors(c: Config, s: State)
    requires Inv(c, s)
    ensures var r := MovesSpec(c, s).0;
      r.Err? ==> r.error == ValueError || r.error == UnboundLocalError || r.error == KeyError
  {
    if AdrenalineActive in s.statuses {
      var s1 := s.(statuses := s.statuses - {AdrenalineActive});
      match AdrenalineMoves(c, s)
      case Err(e) =>
        assert MovesSpec(c, s) == (Err(ValueError), s);
      case Ok(ms) =>
        if |ms| == 0 {
          assert MovesSpec(c, s) == MovesSpec(c, s1);
          OwnMovesError(c, s1);
        }
    } else {
      OwnMovesError(c, s);
    }
  }

  // ------------------------------------------------------------- make_move

  /** The triple `make_move` returns: what the mover learns, what everyone
      learns, and the shell list after the move. */
  datatype Outcome = Outcome(private: Info, public: Info, shotgun: seq<bool>)

  /** Whose items the move uses.  Under adrenaline it is the given target, a
      Python list index into the records (so negative values count from the
      end), and adrenaline is used up; a missing target raises ValueError. */
  function TakeFrom(c: Config, s: State, target: Option<int>): (r: Result<(nat, State)>)
    requires Inv(c, s)
    ensures r.Ok? ==> r.value.0 < c.playerCount && Inv(c, r.value.1)
  {
    if AdrenalineActive in s.statuses then
      if target.None? then Err(ValueError)
      else match PyIndex(target.value, c.playerCount)
        case None => Err(IndexError)
        case Some(o) => Ok((o, s.(statuses := s.statuses - {AdrenalineActive})))
    else Ok((s.currentTurn, s))
  }

  /** `items.<kind> -= 1` on the record of player o. */
  function Spend(c: Config, s: State, o: nat, k: Kind): (r: State)
    requires Inv(c, s) && o < c.playerCount && k in Order
    ensures Inv(c, r)
  {
    s.(items := s.items[o := s.items[o][k := s.items[o][k] - 1]])
  }

  /** The damage of a shot: 1 for a live shell, doubled by a sawed-off barrel. */
  function Damage(isLive: bool, sawed: bool): (r: nat)
    ensures r <= 2 && (r == 0 <==> !isLive)
  {
    var d := if isLive then 1 else 0;
    if sawed then 2 * d else d
  }

  /** The board after a shell hits seat t, before the turn passes: one
      shell fewer, the barrel no longer sawed off, and the damage taken off
      the seat's charges, which do not drop below 0. */
  function Fired(c: Config, s: State, t: nat, isLive: bool): (r: State)
    requires Inv(c, s) && t < c.playerCount
    ensures Inv(c, r)
  {
    s.(total := s.total - 1, live := if isLive then s.live - 1 else s.live,
       statuses := s.statuses - {SawedOff},
       charges := s.charges[t := Max(0, s.charges[t] - Damage(isLive, SawedOff in s.statuses))])
  }

  /** A `shoot_<offset>` move. */
  function ShootSpec(c: Config, s: State, offset: int, shotgun: seq<bool>): (r: (Result<Outcome>, State))
    requires Inv(c, s)
    ensures Inv(c, r.1)
  {
    if shotgun == [] then (Err(IndexError), s)
    else
      var isLive := shotgun[0];
      var t := OffsetToIdx(c, s, offset);
      var dmg := Damage(isLive, SawedOff in s.statuses);
      var s1 := Fired(c, s, t, isLive);
      if t == s.currentTurn && !isLive then (Ok(Outcome(Num(0), Num(0), shotgun[1..])), s1)
      else
        var (sw, s2) := SwitchTurnSpec(c, s1);
        var v: int := if t == s.currentTurn then 0 - dmg else dmg;
        if sw.Err? then (Err(sw.error), s2) else (Ok(Outcome(Num(v), Num(v), shotgun[1..])), s2)
  }

  /** A `jammer_<offset>` move with the jammer of player o; only seats 0 .. 3
      get a jam status. */
  function JamSpec(c: Config, s: State, o: nat, offset: int, shotgun: seq<bool>): (r: (Result<Outcome>, State))
    requires Inv(c, s) && o < c.playerCount
    ensures Inv(c, r.1)
  {
    var s1 := Spend(c, s, o, Jammer);
    var t := OffsetToIdx(c, s, offset);
    var s2 := match JamStatus(t) case Some(st) => s1.(statuses := s1.statuses + {st}) case None => s1;
    (Ok(Outcome(Num(t), Num(t), shotgun)), s2)
  }

  /** An item move with the record of player o; `pick` is the burner
      phone's draw.  A bare `jammer` spends the jammer and then fails to read
      its offset. */
  function UseSpec(c: Config, s: State, o: nat, k: Kind, shotgun: seq<bool>, pick: nat): (r: (Result<Outcome>, State))
    requires Inv(c, s) && o < c.playerCount
    ensures Inv(c, r.1)
  {
    var none := Outcome(Nothing, Nothing, shotgun);
    match k
    case Jammer => (Err(IndexError), Spend(c, s, o, k))
    case Saw =>
      var s1 := Spend(c, s, o, k);
      (Ok(none), s1.(statuses := s1.statuses + {SawedOff}))
    case MagnifyingGlass =>
      if shotgun == [] then (Err(IndexError), Spend(c, s, o, k))
      else (Ok(Outcome(Shell(shotgun[0]), Nothing, shotgun)), Spend(c, s, o, k))
    case Cigarettes =>
      var s1 := Spend(c, s, o, k);
      var me := s1.currentTurn;
      (Ok(none), s1.(charges := s1.charges[me := Min(s1.charges[me] + 1, c.startCharges)]))
    case Beer =>
      if |shotgun| > 1 then (Ok(Outcome(Shell(shotgun[0]), Shell(shotgun[0]), shotgun[1..])), Spend(c, s, o, k))
      else (Ok(Outcome(Nothing, Nothing, [])), Spend(c, s, o, k))
    case BurnerPhone =>
      if |shotgun| > 2 then
        var idx := 2 + pick % (|shotgun| - 2);
        (Ok(Outcome(Peek(idx, shotgun[idx]), Nothing, shotgun)), Spend(c, s, o, k))
      else (Ok(none), Spend(c, s, o, k))
    case Adrenaline =>
      var s1 := Spend(c, s, o, k);
      (Ok(none), s1.(statuses := s1.statuses + {AdrenalineActive}))
    case Inverter =>
      var s1 := Spend(c, s, o, k);
      if shotgun == [] then (Err(IndexError), s1)
      else (Ok(Outcome(Nothing, Nothing, shotgun[0 := !shotgun[0]])), s1.(statuses := s1.statuses + {InverterUncertainty}))
    case Remote =>
      var s1 := Spend(c, s, o, k);
      var inc := -s1.turnInc;
      (Ok(Outcome(Num(inc), Num(inc), shotgun)), s1.(turnInc := inc))
    case _ => (Ok(none), s)
  }

  /** `make_move` up to the reload check. */
  function ApplyMoveSpec(c: Config, s: State, move: Move, shotgun: seq<bool>, target: Option<int>, pick: nat): (r: (Result<Outcome>, State))
    requires Inv(c, s)
    ensures Inv(c, r.1)
  {
    match TakeFrom(c, s, target)
    case Err(e) => (Err(e), s)
    case Ok((o, s1)) =>
      match move
      case Shoot(offset) => ShootSpec(c, s1, offset, shotgun)
      case Jam(offset) => JamSpec(c, s1, o, offset, shotgun)
      case Use(k) => UseSpec(c, s1, o, k, shotgun, pick)
  }

  /** `make_move(move, shotgun, adrenaline_target, allow_reload)`: the move,
      then `next_sequence()` if reloading is allowed and the shells ran out. */
  function MakeMoveSpec(c: Config, s: State, move: Move, shotgun: seq<bool>, target: Option<int>,
                        allowReload: bool, pick: nat, draw: nat -> nat -> nat): (r: (Result<Outcome>, State))
    requires Inv(c, s)
    ensures Inv(c, r.1)
  {
    var (res, s1) := ApplyMoveSpec(c, s, move, shotgun, target, pick);
    if res.Ok? && allowReload && res.value.shotgun == [] then (res, NextSequenceSpec(c, s1, true, draw))
    else (res, s1)
  }

  /** A shot with shells left: the front shell is used up (total one less,
      live one less if it was live), a sawed-off barrel doubles the damage
      and is cleared, the target's charges are lowered by the damage but not
      below 0, and nothing else but the turn and the jam statuses changes. */
  lemma ShootEffect(c: Config, s: State, offset: int, shotgun: seq<bool>)
    requires Inv(c, s) && shotgun != []
    ensures var s' := ShootSpec(c, s, offset, shotgun).1;
      var t := OffsetToIdx(c, s, offset);
      && s'.total == s.total - 1
      && s'.live == (if shotgun[0] then s.live - 1 else s.live)
      && SawedOff !in s'.statuses && s'.statuses <= s.statuses
      && s'.charges == s.charges[t := Max(0, s.charges[t] - Damage(shotgun[0], SawedOff in s.statuses))]
      && s'.items == s.items && s'.turnInc == s.turnInc && s'.sequenceIdx == s.sequenceIdx
  {
    var t := OffsetToIdx(c, s, offset);
    var s1 := Fired(c, s, t, shotgun[0]);
    if !(t == s.currentTurn && !shotgun[0]) {
      SwitchTurnEffect(c, s1);
    }
  }

  /** What a shot reports: a blank at oneself reports 0 and keeps the turn;
      every other shot reports the damage (negated at oneself) and passes
      the turn, or raises the ValueError of `switch_turn`. */
  lemma ShootReport(c: Config, s: State, offset: int, shotgun: seq<bool>)
    requires Inv(c, s) && shotgun != []
    ensures var (r, s') := ShootSpec(c, s, offset, shotgun);
      var t := OffsetToIdx(c, s, offset);
      var dmg := Damage(shotgun[0], SawedOff in s.statuses);
      && (t == s.currentTurn && !shotgun[0] ==> r == Ok(Outcome(Num(0), Num(0), shotgun[1..])) && s'.currentTurn == s.currentTurn)
      && (r.Ok? ==> (r.value.shotgun == shotgun[1..] && r.value.public == r.value.private
                     && r.value.private == Num(if t == s.currentTurn then 0 - dmg else dmg)))
      && (r.Err? ==> r.error == ValueError)
  {
    var t := OffsetToIdx(c, s, offset);
    var s1 := Fired(c, s, t, shotgun[0]);
    if !(t == s.currentTurn && !shotgun[0]) {
      SwitchTurnEffect(c, s1);
    }
  }

  /** A shot keeps the board's counts in step with the shell list: if total
      and live described the shells before, they describe the rest after. */
  lemma ShootTracksShells(c: Config, s: State, offset: int, shotgun: seq<bool>)
    requires Inv(c, s) && shotgun != []
    requires s.total == |shotgun| && s.live == CountTrue(shotgun)
    ensures var s' := ShootSpec(c, s, offset, shotgun).1;
      s'.total == |shotgun[1..]| && s'.live == CountTrue(shotgun[1..])
  {
    ShootEffect(c, s, offset, shotgun);
  }

  /** Every item move spends exactly one item of its kind from the chosen
      record (even when it then fails); a shot and a kind this board does
      not know spend nothing. */
  lemma ItemSpent(c: Config, s: State, move: Move, shotgun: seq<bool>, target: Option<int>, pick: nat)
    requires Inv(c, s) && TakeFrom(c, s, target).Ok?
    ensures var o := TakeFrom(c, s, target).value.0;
      var items' := ApplyMoveSpec(c, s, move, shotgun, target, pick).1.items;
      && (move.Jam? ==> items' == s.items[o := s.items[o][Jammer := s.items[o][Jammer] - 1]])
      && (move.Use? && move.item in Order ==> items' == s.items[o := s.items[o][move.item := s.items[o][move.item] - 1]])
      && (move.Use? && move.item !in Order ==> items' == s.items)
      && (move.Shoot? ==> items' == s.items)
  {
    var (o, s1) := TakeFrom(c, s, target).value;
    assert s1.items == s.items;
    match move
    case Shoot(offset) =>
      if shotgun != [] {
        ShootEffect(c, s1, offset, shotgun);
      }
    case Jam(offset) =>
      assert ApplyMoveSpec(c, s, move, shotgun, target, pick) == JamSpec(c, s1, o, offset, shotgun);
    case Use(k) =>
      assert ApplyMoveSpec(c, s, move, shotgun, target, pick) == UseSpec(c, s1, o, k, shotgun, pick);
      UseSpends(c, s1, o, k, shotgun, pick);
  }

  /** An item move spends one item of a kind the board knows. */
  lemma UseSpends(c: Config, s: State, o: nat, k: Kind, shotgun: seq<bool>, pick: nat)
    requires Inv(c, s) && o < c.playerCount
    ensures var items' := UseSpec(c, s, o, k, shotgun, pick).1.items;
      && (k in Order ==> items' == Spend(c, s, o, k).items)
      && (k !in Order ==> items' == s.items)
  {
    match k
    case Handcuffs =>
    case Meds =>
    case Jammer => assert UseSpec(c, s, o, k, shotgun, pick).1.items == Spend(c, s, o, k).items;
    case Saw => assert UseSpec(c, s, o, k, shotgun, pick).1.items == Spend(c, s, o, k).items;
    case MagnifyingGlass => assert UseSpec(c, s, o, k, shotgun, pick).1.items == Spend(c, s, o, k).items;
    case Cigarettes => assert UseSpec(c, s, o, k, shotgun, pick).1.items == Spend(c, s, o, k).items;
    case Beer => assert UseSpec(c, s, o, k, shotgun, pick).1.items == Spend(c, s, o, k).items;
    case BurnerPhone => assert UseSpec(c, s, o, k, shotgun, pick).1.items == Spend(c, s, o, k).items;
    case Adrenaline => assert UseSpec(c, s, o, k, shotgun, pick).1.items == Spend(c, s, o, k).items;
    case Inverter => assert UseSpec(c, s, o, k, shotgun, pick).1.items == Spend(c, s, o, k).items;
    case Remote => assert UseSpec(c, s, o, k, shotgun, pick).1.items == Spend(c, s, o, k).items;
  }

  /** Whose items are used: the mover's without adrenaline; under adrenaline
      the target's, counted as a Python index, with a missing target a
      ValueError and one outside [-player_count, player_count) an IndexError,
      neither changing anything. */
  lemma TakeFromEffect(c: Config, s: State, move: Move, shotgun: seq<bool>, target: Option<int>, pick: nat)
    requires Inv(c, s)
    ensures AdrenalineActive !in s.statuses ==> TakeFrom(c, s, target) == Ok((s.currentTurn, s))
    ensures AdrenalineActive in s.statuses && target.None? ==>
      ApplyMoveSpec(c, s, move, shotgun, target, pick) == (Err(ValueError), s)
    ensures AdrenalineActive in s.statuses && target.Some? && !(0 - c.playerCount <= target.value < c.playerCount) ==>
      ApplyMoveSpec(c, s, move, shotgun, target, pick) == (Err(IndexError), s)
    ensures AdrenalineActive in s.statuses && target.Some? && 0 - c.playerCount <= target.value < c.playerCount ==>
      var (o, s1) := TakeFrom(c, s, target).value;
      && o == (if target.value < 0 then target.value + c.playerCount else target.value)
      && s1 == s.(statuses := s.statuses - {AdrenalineActive})
  {
  }

  /** Under adrenaline, any move that gets to run uses the adrenaline up;
      only using an adrenaline item sets it again. */
  lemma AdrenalineConsumed(c: Config, s: State, move: Move, shotgun: seq<bool>, target: Option<int>, pick: nat)
    requires Inv(c, s) && TakeFrom(c, s, target).Ok? && move != Use(Adrenaline)
    ensures AdrenalineActive !in TakeFrom(c, s, target).value.1.statuses
    ensures AdrenalineActive in ApplyMoveSpec(c, s, move, shotgun, target, pick).1.statuses ==> AdrenalineActive in s.statuses
    ensures AdrenalineActive in s.statuses ==> AdrenalineActive !in ApplyMoveSpec(c, s, move, shotgun, target, pick).1.statuses
  {
    var (o, s1) := TakeFrom(c, s, target).value;
    if move.Shoot? && shotgun != [] {
      ShootEffect(c, s1, move.offset, shotgun);
    }
  }

  /** Cigarettes, from whichever record, heal the player to move by one,
      never above the starting charges; no other seat changes. */
  lemma CigarettesHeal(c: Config, s: State, o: nat, shotgun: seq<bool>, pick: nat)
    requires Inv(c, s) && o < c.playerCount
    ensures var (r, s') := UseSpec(c, s, o, Cigarettes, shotgun, pick);
      var me := s.currentTurn;
      && r == Ok(Outcome(Nothing, Nothing, shotgun))
      && s'.charges[me] == Min(s.charges[me] + 1, c.startCharges)
      && (forall i :: 0 <= i < c.playerCount && i != me ==> s'.charges[i] == s.charges[i])
      && (s.charges[me] <= c.startCharges ==> s.charges[me] <= s'.charges[me] <= c.startCharges)
  {
  }

  /** Beer ejects the front shell and shows it to everyone when more than one
      shell is left, and otherwise empties the list and shows nothing; the
      board's total and live counts are not updated. */
  lemma BeerEjects(c: Config, s: State, o: nat, shotgun: seq<bool>, pick: nat)
    requires Inv(c, s) && o < c.playerCount
    ensures var (r, s') := UseSpec(c, s, o, Beer, shotgun, pick);
      && r.Ok?
      && (|shotgun| > 1 ==> (shotgun == [shotgun[0]] + r.value.shotgun
                             && r.value.private == Shell(shotgun[0]) && r.value.public == Shell(shotgun[0])))
      && (|shotgun| <= 1 ==> r.value == Outcome(Nothing, Nothing, []))
      && s'.total == s.total && s'.live == s.live && s'.statuses == s.statuses
  {
  }

  /** The inverter flips the front shell and nothing else, which moves the
      live count of the list by one, and marks the uncertainty. */
  lemma InverterFlips(c: Config, s: State, o: nat, shotgun: seq<bool>, pick: nat)
    requires Inv(c, s) && o < c.playerCount && shotgun != []
    ensures var (r, s') := UseSpec(c, s, o, Inverter, shotgun, pick);
      && r.Ok? && |r.value.shotgun| == |shotgun|
      && r.value.shotgun[0] == !shotgun[0] && r.value.shotgun[1..] == shotgun[1..]
      && CountTrue(r.value.shotgun) == (if shotgun[0] then CountTrue(shotgun) - 1 else CountTrue(shotgun) + 1)
      && InverterUncertainty in s'.statuses && s'.total == s.total && s'.live == s.live
  {
    UseInverter(c, s, o, shotgun, pick);
    FlipFront(shotgun);
  }

  /** The inverter branch of `make_move`. */
  lemma UseInverter(c: Config, s: State, o: nat, shotgun: seq<bool>, pick: nat)
    requires Inv(c, s) && o < c.playerCount && shotgun != []
    ensures UseSpec(c, s, o, Inverter, shotgun, pick)
      == (Ok(Outcome(Nothing, Nothing, shotgun[0 := !shotgun[0]])),
          Spend(c, s, o, Inverter).(statuses := s.statuses + {InverterUncertainty}))
  {
  }

  /** Flipping the front shell of a list. */
  lemma FlipFront(shotgun: seq<bool>)
    requires shotgun != []
    ensures var flipped := shotgun[0 := !shotgun[0]];
      && |flipped| == |shotgun| && flipped[0] == !shotgun[0] && flipped[1..] == shotgun[1..]
      && CountTrue(flipped) == (if shotgun[0] then CountTrue(shotgun) - 1 else CountTrue(shotgun) + 1)
  {
    assert shotgun[0 := !shotgun[0]][1..] == shotgun[1..];
    CountTrueFlipFront(shotgun);
  }

  /** The remote reverses the direction of play and reports the new
      direction; a second remote restores it. */
  lemma RemoteReverses(c: Config, s: State, o: nat, o2: nat, shotgun: seq<bool>, pick: nat)
    requires Inv(c, s) && o < c.playerCount && o2 < c.playerCount
    ensures var (r, s') := UseSpec(c, s, o, Remote, shotgun, pick);
      && s'.turnInc == -s.turnInc && r == Ok(Outcome(Num(s'.turnInc), Num(s'.turnInc), shotgun))
      && UseSpec(c, s', o2, Remote, shotgun, pick).1.turnInc == s.turnInc
  {
  }

  /** The burner phone shows the mover one shell at a position from 2 on,
      privately, when more than two shells are left, and changes no shell. */
  lemma BurnerPeeks(c: Config, s: State, o: nat, shotgun: seq<bool>, pick: nat)
    requires Inv(c, s) && o < c.playerCount
    ensures var r := UseSpec(c, s, o, BurnerPhone, shotgun, pick).0;
      && r.Ok? && r.value.shotgun == shotgun && r.value.public == Nothing
      && (|shotgun| > 2 ==> (r.value.private.Peek? && 2 <= r.value.private.index < |shotgun|
                             && r.value.private.isLive == shotgun[r.value.private.index]))
      && (|shotgun| <= 2 ==> r.value.private == Nothing)
  {
  }

  /** Every position from 2 on is some draw's outcome. */
  lemma BurnerReachesAll(c: Config, s: State, o: nat, shotgun: seq<bool>, i: nat)
    requires Inv(c, s) && o < c.playerCount && 2 <= i < |shotgun|
    ensures UseSpec(c, s, o, BurnerPhone, shotgun, i - 2).0 == Ok(Outcome(Peek(i, shotgun[i]), Nothing, shotgun))
  {
    ModUnique(i - 2, |shotgun| - 2, 0, i - 2);
  }

  /** The magnifying glass shows the mover the front shell without changing
      the list; with no shells it raises IndexError. */
  lemma GlassReveals(c: Config, s: State, o: nat, shotgun: seq<bool>, pick: nat)
    requires Inv(c, s) && o < c.playerCount
    ensures var r := UseSpec(c, s, o, MagnifyingGlass, shotgun, pick).0;
      && (shotgun != [] ==> r == Ok(Outcome(Shell(shotgun[0]), Nothing, shotgun)))
      && (shotgun == [] ==> r == Err(IndexError))
  {
  }

  /** After the saw, a live shell deals 2 damage and the saw is used up. */
  lemma SawDoubles(c: Config, s: State, o: nat, offset: int, shotgun: seq<bool>, pick: nat)
    requires Inv(c, s) && o < c.playerCount && shotgun != [] && shotgun[0]
    ensures var s1 := UseSpec(c, s, o, Saw, shotgun, pick).1;
      var s2 := ShootSpec(c, s1, offset, shotgun).1;
      var t := OffsetToIdx(c, s1, offset);
      && SawedOff in s1.statuses && SawedOff !in s2.statuses
      && s2.charges[t] == Max(0, s.charges[t] - 2)
  {
    var s1 := UseSpec(c, s, o, Saw, shotgun, pick).1;
    ShootEffect(c, s1, offset, shotgun);
  }

  /** A jam reports the jammed seat to everyone and, for seats 0 .. 3, marks
      it jammed; it changes no charges, turn or shells. */
  lemma JamEffect(c: Config, s: State, o: nat, offset: int, shotgun: seq<bool>)
    requires Inv(c, s) && o < c.playerCount
    ensures var (r, s') := JamSpec(c, s, o, offset, shotgun);
      var t := OffsetToIdx(c, s, offset);
      && r == Ok(Outcome(Num(t), Num(t), shotgun))
      && (t <= 3 ==> StatusOf(t).value in s'.statuses)
      && s.statuses <= s'.statuses && s'.statuses <= s.statuses + {Jammed0, Jammed1, Jammed2, Jammed3}
      && s'.charges == s.charges && s'.currentTurn == s.currentTurn
  {
  }

  /** `make_move` reloads exactly when reloading is allowed and the move
      succeeded leaving no shells: the statuses are then cleared and the next
      sequence is loaded; otherwise the board is the one the move left. */
  lemma MakeMoveReload(c: Config, s: State, move: Move, shotgun: seq<bool>, target: Option<int>,
                       allowReload: bool, pick: nat, draw: nat -> nat -> nat)
    requires Inv(c, s)
    ensures var (r, s') := MakeMoveSpec(c, s, move, shotgun, target, allowReload, pick, draw);
      var (r1, s1) := ApplyMoveSpec(c, s, move, shotgun, target, pick);
      && r == r1
      && (r1.Ok? && allowReload && r1.value.shotgun == [] ==>
            s'.statuses == {} && s'.sequenceIdx == (s1.sequenceIdx + 1) % |c.sequences|
            && s'.total == c.sequences[s'.sequenceIdx].live + c.sequences[s'.sequenceIdx].blank)
      && (!(r1.Ok? && allowReload && r1.value.shotgun == []) ==> s' == s1)
  {
  }

  // ------------------------------------------------------------- the board

  /** The board as the constructor leaves it before its `next_sequence()`:
      full charges, seat 0 to move, play going up, empty records, no
      statuses, sequence index -1. */
  function Initial(c: Config): (r: State)
    requires ConfigOk(c)
    ensures Inv(c, r) && |r.charges| == c.playerCount
    ensures forall p :: 0 <= p < c.playerCount ==> r.charges[p] == c.startCharges && r.items[p] == Zero(Order)
  {
    State(seq(c.playerCount, _ => c.startCharges), 0, 1, seq(c.playerCount, _ => Zero(Order)), {}, -1, 0, 0)
  }

  /** `global_count`, built as the source does: each record's counts added
      kind by kind. */
  method CountAll(items: seq<Counts>) returns (g: Counts)
    requires AllCover(items)
    ensures g == GlobalCount(items)
  {
    OrderDistinct();
    g := Zero(Order);
    var p := 0;
    while p < |items|
      invariant 0 <= p <= |items|
      invariant AllCover(items[..p])
      invariant g.Keys == set k | k in Order
      invariant forall k :: k in Order ==> g[k] == SumKind(items[..p], k)
    {
      g := AddAll(g, items[p], Order);
      assert items[..p + 1][..p] == items[..p];
      p := p + 1;
    }
    assert items[..p] == items;
  }

  /** One seat's drop in `give_items`: `random.choices` over the kinds
      still available, credited to the seat's record. */
  method GiftOf(c: Config, player: Counts, global: Counts, itemCount: int, draw: nat -> nat) returns (r: Counts)
    requires ConfigOk(c) && Covers(player, Order) && Covers(global, Order)
    ensures r == Gift(c, player, global, itemCount, draw)
  {
    r := player;
    var choices := Choices(c, player, global);
    if |choices| > 0 {
      var picks := DrawsFrom(choices, Allowance(itemCount, ItemCount(player, Order)), draw);
      r := Credit(player, picks);
    }
  }

  /** The loop of `give_items`, over the records as a value. */
  method GiveAll(c: Config, items: seq<Counts>, itemCount: int, draw: nat -> nat -> nat) returns (xs: seq<Counts>)
    requires ConfigOk(c) && AllCover(items)
    ensures xs == GiveItemsSpec(c, items, itemCount, draw)
  {
    var global := CountAll(items);
    xs := GiveLoop(c, items, Gifts(c, items, global, itemCount, draw), global, itemCount, draw);
  }

  /** The loop of `give_items`, with `gifts` the drop of every seat. */
  method GiveLoop(c: Config, items: seq<Counts>, ghost gifts: seq<Counts>, global: Counts, itemCount: int,
                  draw: nat -> nat -> nat) returns (xs: seq<Counts>)
    requires ConfigOk(c) && AllCover(items) && AllCover(gifts) && Covers(global, Order) && |gifts| == |items|
    requires forall p :: 0 <= p < |items| ==> gifts[p] == Gift(c, items[p], global, itemCount, draw(p))
    ensures xs == GiveFrom(items, gifts, 0)
  {
    xs := items;
    var p := 0;
    while p < |xs| && ItemCount(xs[p], Order) != MaxHeld
      invariant GiveInv(items, gifts, xs, p)
      decreases |items| - p
    {
      var gift := GiftOf(c, xs[p], global, itemCount, draw(p));
      GiveStep(items, gifts, xs, p);
      xs := xs[p := gift];
      p := p + 1;
    }
    GiveStop(items, gifts, xs, p);
  }

  /** What the loop of `give_items` keeps: seats from p on are untouched,
      and finishing from p gives the result of the whole loop. */
  predicate GiveInv(items: seq<Counts>, gifts: seq<Counts>, xs: seq<Counts>, p: nat) {
    AllCover(items) && AllCover(gifts) && |gifts| == |items|
    && p <= |xs| == |items| && AllCover(xs)
    && (forall i :: p <= i < |xs| ==> xs[i] == items[i])
    && GiveFrom(xs, gifts, p) == GiveFrom(items, gifts, 0)
  }

  lemma GiveStep(items: seq<Counts>, gifts: seq<Counts>, xs: seq<Counts>, p: nat)
    requires GiveInv(items, gifts, xs, p) && p < |xs| && ItemCount(xs[p], Order) != MaxHeld
    ensures GiveInv(items, gifts, xs[p := gifts[p]], p + 1)
  {
    assert GiveFrom(xs, gifts, p) == GiveFrom(xs[p := gifts[p]], gifts, p + 1);
  }

  lemma GiveStop(items: seq<Counts>, gifts: seq<Counts>, xs: seq<Counts>, p: nat)
    requires GiveInv(items, gifts, xs, p) && (p == |xs| || ItemCount(xs[p], Order) == MaxHeld)
    ensures xs == GiveFrom(items, gifts, 0)
  {
    assert GiveFrom(xs, gifts, p) == xs;
  }



  /** The shot loop of `moves()`: a shot entry per offset, and the loop
      variable left bound to the last offset, if any. */
  method ShootList(offsets: seq<int>) returns (moves: seq<Entry>, player: Option<int>)
    ensures moves == ShootEntries(offsets)
    ensures player == if offsets == [] then None else Some(offsets[|offsets| - 1])
  {
    moves, player := [], None;
    var j := 0;
    while j < |offsets|
      invariant 0 <= j <= |offsets|
      invariant moves == ShootEntries(offsets[..j])
      invariant player == if j == 0 then None else Some(offsets[j - 1])
    {
      player := Some(offsets[j]);
      assert offsets[..j + 1][..j] == offsets[..j];
      moves := moves + [Entry(0, Shoot(offsets[j]))];
      j := j + 1;
    }
    assert offsets[..j] == offsets;
  }

  /** The item loop of `moves()`: the held kinds' entries, owned by the
      shot loop's leftover variable; reading it unbound raises
      UnboundLocalError at the first kind other than the jammer. */
  method ItemList(player: Option<int>, held: seq<Kind>, targets: seq<int>) returns (r: Result<seq<Entry>>)
    ensures r == if player.None? && exists k :: k in held && k != Jammer then Err(UnboundLocalError)
                 else Ok(ItemEntries(if player.Some? then player.value else 0, held, targets, false))
  {
    var owner := if player.Some? then player.value else 0;
    var moves: seq<Entry> := [];
    var i := 0;
    while i < |held|
      invariant ItemInv(player, owner, held, targets, moves, i)
      decreases |held| - i
    {
      var k := held[i];
      if k != Jammer && player.None? {
        assert held[i] in held;
        return Err(UnboundLocalError);
      }
      ItemStep(player, owner, held, targets, moves, i);
      if k == Jammer {
        moves := moves + JamEntries(owner, targets);
      } else {
        moves := moves + [Entry(player.value, Use(k))];
      }
      i := i + 1;
    }
    ItemDone(player, owner, held, targets, moves);
    return Ok(moves);
  }

  /** What the item loop keeps: the entries of the first i held kinds, and
      with the loop variable unbound, only jammers so far. */
  predicate ItemInv(player: Option<int>, owner: int, held: seq<Kind>, targets: seq<int>, moves: seq<Entry>, i: nat) {
    i <= |held| && owner == (if player.Some? then player.value else 0)
    && moves == ItemEntries(owner, held[..i], targets, false)
    && (player.None? ==> forall m :: 0 <= m < i ==> held[m] == Jammer)
  }

  lemma ItemStep(player: Option<int>, owner: int, held: seq<Kind>, targets: seq<int>, moves: seq<Entry>, i: nat)
    requires ItemInv(player, owner, held, targets, moves, i) && i < |held|
    requires player.None? ==> held[i] == Jammer
    ensures ItemInv(player, owner, held, targets, moves + KindEntries(owner, held[i], targets, false), i + 1)
  {
    assert held[..i + 1][..i] == held[..i];
  }

  lemma ItemDone(player: Option<int>, owner: int, held: seq<Kind>, targets: seq<int>, moves: seq<Entry>)
    requires ItemInv(player, owner, held, targets, moves, |held|)
    ensures moves == ItemEntries(owner, held, targets, false)
    ensures player.None? ==> !exists k :: k in held && k != Jammer
  {
    assert held[..|held|] == held;
  }


  /** The normal list, built as `moves()` builds it. */
  method OwnMovesList(c: Config, s: State) returns (r: Result<seq<Entry>>)
    requires Inv(c, s)
    ensures r == OwnMoves(c, s)
  {
    var offsets := LivingOffsets(c, s, Living(s.charges));
    var shots, player := ShootList(offsets);
    var held := HeldKinds(s.items[s.currentTurn], Order);
    var listed := ItemList(player, held, NonZero(offsets));
    if listed.Err? {
      return listed;
    }
    return Ok(shots + listed.value);
  }

  /** The entries for one opponent's held kinds: everything but adrenaline
      is stolen, a jammer once per target. */
  method StolenList(o: int, held: seq<Kind>, targets: seq<int>) returns (moves: seq<Entry>)
    ensures moves == ItemEntries(o, held, targets, true)
  {
    moves := [];
    var i := 0;
    while i < |held|
      invariant 0 <= i <= |held|
      invariant moves == ItemEntries(o, held[..i], targets, true)
    {
      var k := held[i];
      assert held[..i + 1][..i] == held[..i];
      if k == Adrenaline {
      } else if k == Jammer {
        moves := moves + JamEntries(o, targets);
      } else {
        moves := moves + [Entry(o, Use(k))];
      }
      i := i + 1;
    }
    assert held[..i] == held;
  }

  /** `held` lists the kinds of each item record; stated record by record
      from the last, so that it unfolds one record at a time. */
  predicate Lists(items: seq<Counts>, held: seq<seq<Kind>>)
    decreases |items|
  {
    |held| == |items| &&
    (items == [] ||
     var n := |items| - 1;
     Covers(items[n], Order) && held[n] == Held(items[n], Order) && Lists(items[..n], held[..n]))
  }

  lemma {:induction false} ListsAt(items: seq<Counts>, held: seq<seq<Kind>>, o: nat)
    requires Lists(items, held) && o < |items|
    ensures Covers(items[o], Order) && held[o] == Held(items[o], Order)
    decreases |items|
  {
    var n := |items| - 1;
    if o < n {
      ListsAt(items[..n], held[..n], o);
    }
  }

  lemma {:induction false} HeldAllLists(items: seq<Counts>)
    requires AllCover(items)
    ensures Lists(items, HeldAll(items))
    decreases |items|
  {
    if items != [] {
      var n := |items| - 1;
      HeldAllLists(items[..n]);
      assert HeldAll(items)[..n] == HeldAll(items[..n]);
    }
  }

  /** The opponents' loop of `moves()` under adrenaline. */
  method StealLoop(items: seq<Counts>, ghost held: seq<seq<Kind>>, mover: nat, opponents: seq<nat>, targets: seq<int>)
    returns (moves: seq<Entry>)
    requires Lists(items, held) && forall j :: 0 <= j < |opponents| ==> opponents[j] < |held|
    ensures moves == StealMoves(opponents, |opponents|, mover, held, targets)
  {
    moves := [];
    var j := 0;
    while j < |opponents|
      invariant StealInv(opponents, mover, held, targets, moves, j)
      decreases |opponents| - j
    {
      var add := StealFrom(items, held, mover, opponents[j], targets);
      StealStep(opponents, mover, held, targets, moves, j);
      moves := moves + add;
      j := j + 1;
    }
  }

  /** What that loop keeps: the entries of the first j opponents. */
  predicate StealInv(opps: seq<nat>, mover: nat, held: seq<seq<Kind>>, targets: seq<int>, moves: seq<Entry>, j: nat) {
    j <= |opps| && (forall i :: 0 <= i < |opps| ==> opps[i] < |held|)
    && moves == StealMoves(opps, j, mover, held, targets)
  }

  lemma StealStep(opps: seq<nat>, mover: nat, held: seq<seq<Kind>>, targets: seq<int>, moves: seq<Entry>, j: nat)
    requires StealInv(opps, mover, held, targets, moves, j) && j < |opps|
    ensures StealInv(opps, mover, held, targets, moves + Stolen(opps[j], mover, held, targets), j + 1)
  {
  }

  /** One pass of that loop: the stolen entries of opponent o. */
  method StealFrom(items: seq<Counts>, ghost held: seq<seq<Kind>>, mover: nat, o: nat, targets: seq<int>)
    returns (add: seq<Entry>)
    requires Lists(items, held) && o < |held|
    ensures add == Stolen(o, mover, held, targets)
  {
    ListsAt(items, held, o);
    add := [];
    if o != mover {
      var kinds := HeldKinds(items[o], Order);
      add := StolenList(o, kinds, targets);
    }
  }

  /** The adrenaline list, built as `moves()` builds it. */
  method StealList(c: Config, s: State) returns (r: Result<seq<Entry>>)
    requires Inv(c, s)
    ensures r == AdrenalineMoves(c, s)
  {
    var opponents := Living(s.charges);
    if s.currentTurn !in opponents {
      return Err(ValueError);
    }
    opponents := RemoveSeat(opponents, s.currentTurn);
    assert opponents == Opponents(c, s);
    assert forall m :: 0 <= m < |opponents| ==> opponents[m] in opponents;
    HeldAllLists(s.items);
    var moves := StealLoop(s.items, HeldAll(s.items), s.currentTurn, opponents, LivingOffsets(c, s, opponents));
    return Ok(moves);
  }

  /** `BuckshotRoulette`: the N-player board. */
  class BuckshotRoulette {
    const config: Config
    var charges: seq<int>
    var currentTurn: int
    var turnInc: int
    var items: seq<Counts>
    var statuses: set<Status>
    var sequenceIdx: int
    var total: int
    var live: int

    /** The board's fields as a value. */
    function Snap(): State
      reads this
    {
      State(charges, currentTurn, turnInc, items, statuses, sequenceIdx, total, live)
    }

    predicate Valid()
      reads this
    {
      Inv(config, Snap())
    }

    /** `__init__`: the initial board, then its first `next_sequence()`. */
    constructor (config: Config, draw: nat -> nat -> nat)
      requires ConfigOk(config)
      ensures Valid() && this.config == config
      ensures Snap() == NextSequenceSpec(config, Initial(config), true, draw)
    {
      this.config := config;
      charges := seq(config.playerCount, _ => config.startCharges);
      currentTurn := 0;
      turnInc := 1;
      items := seq(config.playerCount, _ => Zero(Order));
      statuses := {};
      sequenceIdx := -1;
      total := 0;
      live := 0;
      new;
      NextSequence(true, draw);
    }

    /** `next_sequence(drop_items)`. */
    method NextSequence(dropItems: bool, draw: nat -> nat -> nat)
      requires Valid()
      modifies this
      ensures Snap() == NextSequenceSpec(config, old(Snap()), dropItems, draw)
      ensures Valid()
    {
      var idx := (sequenceIdx + 1) % |config.sequences|;
      var next := config.sequences[idx];
      statuses, sequenceIdx, total, live := {}, idx, next.live + next.blank, next.live;
      assert Snap() == NextSequenceSpec(config, old(Snap()), false, draw);
      if dropItems {
        GiveItems(next.itemCount, draw);
      }
    }

    /** `give_items(item_count)`; draw(p) are seat p's picks. */
    method GiveItems(itemCount: int, draw: nat -> nat -> nat)
      requires Valid()
      modifies this
      ensures Snap() == old(Snap()).(items := GiveItemsSpec(config, old(items), itemCount, draw))
      ensures Valid()
    {
      items := GiveAll(config, items, itemCount, draw);
    }

    /** `switch_turn()`. */
    method SwitchTurn() returns (r: Result<nat>)
      requires Valid()
      modifies this
      ensures (r, Snap()) == SwitchTurnSpec(config, old(Snap()))
      ensures Valid()
    {
      var w := Winner(charges);
      if w.Some? {
        return Ok(w.value);
      }
      var n := currentTurn;
      var i := 0;
      while i < 2 * config.playerCount
        invariant 0 <= i <= 2 * config.playerCount && 0 <= n < config.playerCount
        invariant Snap() == old(Snap()).(statuses := statuses)
        invariant SwitchFrom(config, Snap(), n, 2 * config.playerCount - i)
               == SwitchFrom(config, old(Snap()), old(currentTurn), 2 * config.playerCount)
      {
        n := (n + turnInc) % config.playerCount;
        var st := StatusOf(n);
        if st.None? {
          return Err(ValueError);
        }
        if st.value in statuses {
          statuses := statuses - {st.value};
        } else if charges[n] > 0 {
          currentTurn := n;
          return Ok(n);
        }
        i := i + 1;
      }
      return Err(ValueError);
    }

    /** `moves()`. */
    method Moves() returns (r: Result<seq<Entry>>)
      requires Valid()
      modifies this
      ensures (r, Snap()) == MovesSpec(config, old(Snap()))
      ensures Valid()
      decreases if AdrenalineActive in statuses then 1 else 0
    {
      var listed;
      if AdrenalineActive in statuses {
        listed := StealList(config, Snap());
      } else {
        listed := OwnMovesList(config, Snap());
      }
      if listed.Err? {
        return Err(listed.error);
      }
      if |listed.value| == 0 {
        if AdrenalineActive !in statuses {
          return Err(KeyError);
        }
        statuses := statuses - {AdrenalineActive};
        r := Moves();
        return;
      }
      return listed;
    }

    /** A `shoot_<offset>` move. */
    method ShootAt(offset: int, shotgun: seq<bool>) returns (r: Result<Outcome>)
      requires Valid()
      modifies this
      ensures (r, Snap()) == ShootSpec(config, old(Snap()), offset, shotgun)
      ensures Valid()
    {
      if shotgun == [] {
        return Err(IndexError);
      }
      var isLive := shotgun[0];
      var rest := shotgun[1..];
      var t := OffsetToIdx(config, Snap(), offset);
      var damage := if isLive then 1 else 0;
      total := total - 1;
      if isLive {
        live := live - 1;
      }
      if SawedOff in statuses {
        statuses := statuses - {SawedOff};
        damage := damage * 2;
      }
      charges := charges[t := Max(0, charges[t] - damage)];
      assert Snap() == Fired(config, old(Snap()), t, isLive);
      if t == currentTurn {
        if isLive {
          var sw := SwitchTurn();
          if sw.Err? {
            return Err(sw.error);
          }
          return Ok(Outcome(Num(-damage), Num(-damage), rest));
        }
        return Ok(Outcome(Num(0), Num(0), rest));
      }
      var sw := SwitchTurn();
      if sw.Err? {
        return Err(sw.error);
      }
      return Ok(Outcome(Num(damage), Num(damage), rest));
    }

    /** `items.<kind> -= 1` on record o. */
    method SpendItem(o: nat, k: Kind)
      requires Valid() && o < config.playerCount && k in Order
      modifies this
      ensures Snap() == Spend(config, old(Snap()), o, k)
      ensures Valid()
    {
      items := items[o := items[o][k := items[o][k] - 1]];
    }

    /** A `jammer_<offset>` move with record o's jammer. */
    method JamSeat(o: nat, offset: int, shotgun: seq<bool>) returns (r: Result<Outcome>)
      requires Valid() && o < config.playerCount
      modifies this
      ensures (r, Snap()) == JamSpec(config, old(Snap()), o, offset, shotgun)
      ensures Valid()
    {
      SpendItem(o, Jammer);
      var t := OffsetToIdx(config, Snap(), offset);
      match t {
        case 0 => statuses := statuses + {Jammed0};
        case 1 => statuses := statuses + {Jammed1};
        case 2 => statuses := statuses + {Jammed2};
        case 3 => statuses := statuses + {Jammed3};
        case _ =>
      }
      return Ok(Outcome(Num(t), Num(t), shotgun));
    }

    /** An item move with record o; `pick` is the burner phone's draw. */
    method UseItem(o: nat, k: Kind, shotgun: seq<bool>, pick: nat) returns (r: Result<Outcome>)
      requires Valid() && o < config.playerCount
      modifies this
      ensures (r, Snap()) == UseSpec(config, old(Snap()), o, k, shotgun, pick)
      ensures Valid()
    {
      r := Ok(Outcome(Nothing, Nothing, shotgun));
      match k {
        case Jammer =>
          SpendItem(o, k);
          return Err(IndexError);
        case Saw =>
          SpendItem(o, k);
          statuses := statuses + {SawedOff};
        case MagnifyingGlass =>
          SpendItem(o, k);
          if shotgun == [] {
            return Err(IndexError);
          }
          r := Ok(Outcome(Shell(shotgun[0]), Nothing, shotgun));
        case Cigarettes =>
          SpendItem(o, k);
          charges := charges[currentTurn := Min(charges[currentTurn] + 1, config.startCharges)];
        case Beer =>
          SpendItem(o, k);
          if |shotgun| > 1 {
            r := Ok(Outcome(Shell(shotgun[0]), Shell(shotgun[0]), shotgun[1..]));
          } else {
            r := Ok(Outcome(Nothing, Nothing, []));
          }
        case _ =>
          r := UseLater(o, k, shotgun, pick);
      }
    }

    /** The kinds of that `match` from the burner phone on. */
    method UseLater(o: nat, k: Kind, shotgun: seq<bool>, pick: nat) returns (r: Result<Outcome>)
      requires Valid() && o < config.playerCount
      requires k !in {Jammer, Saw, MagnifyingGlass, Cigarettes, Beer}
      modifies this
      ensures (r, Snap()) == UseSpec(config, old(Snap()), o, k, shotgun, pick)
      ensures Valid()
    {
      r := Ok(Outcome(Nothing, Nothing, shotgun));
      match k {
        case BurnerPhone =>
          SpendItem(o, k);
          if |shotgun| > 2 {
            var idx := 2 + pick % (|shotgun| - 2);
            r := Ok(Outcome(Peek(idx, shotgun[idx]), Nothing, shotgun));
          }
        case Adrenaline =>
          SpendItem(o, k);
          statuses := statuses + {AdrenalineActive};
        case Inverter =>
          SpendItem(o, k);
          if shotgun == [] {
            return Err(IndexError);
          }
          r := Ok(Outcome(Nothing, Nothing, shotgun[0 := !shotgun[0]]));
          statuses := statuses + {InverterUncertainty};
        case Remote =>
          SpendItem(o, k);
          turnInc := -turnInc;
          r := Ok(Outcome(Num(turnInc), Num(turnInc), shotgun));
        case _ =>
      }
    }

    /** The head of `make_move`: whose record the move spends from. */
    method TakeItems(target: Option<int>) returns (r: Result<nat>)
      requires Valid()
      modifies this
      ensures r.Ok? ==> TakeFrom(config, old(Snap()), target) == Ok((r.value, Snap()))
      ensures r.Err? ==> TakeFrom(config, old(Snap()), target) == Err(r.error) && Snap() == old(Snap())
      ensures Valid()
    {
      if AdrenalineActive in statuses {
        if target.None? {
          return Err(ValueError);
        }
        var idx := PyIndex(target.value, config.playerCount);
        if idx.None? {
          return Err(IndexError);
        }
        statuses := statuses - {AdrenalineActive};
        return Ok(idx.value);
      }
      return Ok(currentTurn);
    }

    /** `make_move(move, shotgun, adrenaline_target, allow_reload)`; `pick`
        is the burner phone's draw and `draw` the item drops of a reload. */
    method MakeMove(move: Move, shotgun: seq<bool>, target: Option<int>, allowReload: bool,
                    pick: nat, draw: nat -> nat -> nat) returns (r: Result<Outcome>)
      requires Valid()
      modifies this
      ensures (r, Snap()) == MakeMoveSpec(config, old(Snap()), move, shotgun, target, allowReload, pick, draw)
      ensures Valid()
    {
      r := ApplyMove(move, shotgun, target, pick);
      if r.Ok? && allowReload && |r.value.shotgun| == 0 {
        NextSequence(true, draw);
      }
    }

    /** `make_move` up to the reload: take the record, then apply the move. */
    method ApplyMove(move: Move, shotgun: seq<bool>, target: Option<int>, pick: nat) returns (r: Result<Outcome>)
      requires Valid()
      modifies this
      ensures (r, Snap()) == ApplyMoveSpec(config, old(Snap()), move, shotgun, target, pick)
      ensures Valid()
    {
      var taken := TakeItems(target);
      if taken.Err? {
        return Err(taken.error);
      }
      var o := taken.value;
      match move {
        case Shoot(offset) => r := ShootAt(offset, shotgun);
        case Jam(offset) => r := JamSeat(o, offset, shotgun);
        case Use(k) => r := UseItem(o, k, shotgun, pick);
      }
    }
  }
}
