/** new_engine.py: an expectimax search over the board of cli_game.py.

    `expectimax(board, depth, eval_for)` scores each move left after
    pruning: shots weigh a live and a blank outcome by the chance of a live
    front shell and search one ply deeper on copies of the board, while
    the magnifying glass, beer, saw and handcuffs first spend the item on
    the board being searched (`new_engine.py:105,118-119,132,137`) and then
    search copies at the same depth.  Leaves score `heuristic_value`.  The
    model follows the search as a function over board values (`Search`),
    threading the board the loop mutates, and the method `Expectimax`
    performs the same search on `Cli.Board` objects and is proved to agree
    with it. */
module NewEngine {
  import opened Common
  import opened Inventory
  import opened Duel
  import Game
  import Cli

  // ------------------------------------------------------------ utilities

  /** A utility: a real number or float('inf'); float('-inf') appears only
      as the starting maximum, written None where it is used. */
  datatype Value = Fin(a: real) | Inf

  /** p * v for a weight p > 0. */
  function Times(p: real, v: Value): Value
    requires p > 0.0
  {
    match v
    case Inf => Inf
    case Fin(a) => Fin(p * a)
  }

  function Plus(u: Value, v: Value): Value {
    if u.Inf? || v.Inf? then Inf else Fin(u.a + v.a)
  }

  /** `u > v`, with None standing for float('-inf'). */
  predicate Above(u: Value, v: Option<Value>) {
    match v
    case None => true
    case Some(Inf) => false
    case Some(Fin(b)) => u.Inf? || u.a > b
  }

  /** `>` on utilities is a strict total order. */
  lemma AboveOrder(u: Value, v: Value, w: Value)
    ensures !Above(u, Some(u))
    ensures Above(u, Some(v)) && Above(v, Some(w)) ==> Above(u, Some(w))
    ensures Above(u, Some(v)) || Above(v, Some(u)) || u == v
  {
  }

  /** What `expectimax` returns: the move (None at a leaf) and its utility. */
  datatype Outcome = Outcome(move: Option<Move>, value: Value)

  // ------------------------------------------------------------ heuristic_value

  /** `heuristic_value(board, eval_for)`: the charge lead of eval_for less a
      hundredth of its lead in items held; `charges[eval_for]` may raise
      IndexError. */
  function Heuristic(b: Game.Board, evalFor: int): (r: Result<real>)
    requires Cli.BoardOk(b)
    ensures r.Err? <==> evalFor < -2 || evalFor > 1
    ensures r.Err? ==> r.error == IndexError
  {
    var t := b.table;
    var op := if evalFor == 0 then 1 else 0;
    match PyIndex(evalFor, |t.charges|)
    case None => Err(IndexError)
    case Some(e) =>
      Ok((t.charges[e] - t.charges[op]) as real
         - 0.01 * (ItemCount(t.items[e], Cli.FiveKinds) - ItemCount(t.items[op], Cli.FiveKinds)) as real)
  }

  /** The heuristic is zero-sum: what one player gains the other loses. */
  lemma HeuristicZeroSum(b: Game.Board)
    requires Cli.BoardOk(b)
    ensures Heuristic(b, 0).Ok? && Heuristic(b, 1).Ok? && Heuristic(b, 0).value == -Heuristic(b, 1).value
    ensures Heuristic(b, -1) == Heuristic(b, 1) && Heuristic(b, -2).Ok?
    ensures forall e :: (e < -2 || e > 1) ==> Heuristic(b, e) == Err(IndexError)
  {
  }

  // ------------------------------------------------------------ moves and pruning

  /** A move list without repeats. */
  predicate Unique(ms: seq<Move>) {
    forall i, j :: 0 <= i < j < |ms| ==> ms[i] != ms[j]
  }

  /** `moves.remove(m)` where m is listed: the first m dropped. */
  function Without(ms: seq<Move>, m: Move): (r: seq<Move>)
    ensures |r| == if m in ms then |ms| - 1 else |ms|
  {
    if ms == [] then []
    else if ms[0] == m then ms[1..]
    else [ms[0]] + Without(ms[1..], m)
  }

  lemma {:induction false} WithoutMembers(ms: seq<Move>, m: Move)
    ensures m !in ms ==> Without(ms, m) == ms
    ensures forall y :: y != m ==> (y in Without(ms, m) <==> y in ms)
    ensures Unique(ms) ==> Unique(Without(ms, m)) && m !in Without(ms, m)
  {
    if ms != [] {
      assert ms == [ms[0]] + ms[1..];
      assert Unique(ms) ==> Unique(ms[1..]) && ms[0] !in ms[1..] by {
        if Unique(ms) {
          forall i, j | 0 <= i < j < |ms[1..]| ensures ms[1..][i] != ms[1..][j] {
            assert ms[i + 1] != ms[j + 1];
          }
          forall j | 0 <= j < |ms[1..]| ensures ms[1..][j] != ms[0] {
            assert ms[0] != ms[j + 1];
          }
        }
      }
      if ms[0] != m {
        WithoutMembers(ms[1..], m);
        var r := Without(ms, m);
        assert r == [ms[0]] + Without(ms[1..], m);
        assert Unique(ms) ==> Unique(r) by {
          if Unique(ms) {
            forall i, j | 0 <= i < j < |r| ensures r[i] != r[j] {
              if i == 0 {
                assert r[j] in Without(ms[1..], m);
              }
            }
          }
        }
      }
    }
  }

  /** `if cond and m in moves: moves.remove(m)`. */
  function DropIf(ms: seq<Move>, m: Move, cond: bool): seq<Move> {
    if cond && m in ms then Without(ms, m) else ms
  }

  lemma DropIfMembers(ms: seq<Move>, m: Move, cond: bool)
    requires Unique(ms)
    ensures Unique(DropIf(ms, m, cond))
    ensures forall y :: y in DropIf(ms, m, cond) <==> y in ms && !(cond && y == m)
  {
    WithoutMembers(ms, m);
  }

  /** The pruning of `new_engine.py:28-35`, in order.  ('self' is always
      listed, so its unguarded `remove` is a DropIf too.) */
  function Prune(t: Table, ms: seq<Move>, x: nat, n: nat): (r: seq<Move>)
    requires Shaped(t)
    ensures |ms| - 4 <= |r| <= |ms|
  {
    var a := DropIf(ms, ShootSelf, t.chamberPublic != Some(false) && x > 0);
    var b := DropIf(a, Use(MagnifyingGlass), t.chamberPublic.Some? || n < 2);
    var c := DropIf(b, Use(Saw), t.charges[Opponent(t.currentTurn)] == 1 || t.active[Saw] > 0.0);
    DropIf(c, Use(Handcuffs), n < 2)
  }

  /** The moves searched: the board's moves without cigarettes, pruned. */
  function Searched(b: Game.Board): seq<Move>
    requires Cli.BoardOk(b)
  {
    Prune(b.table, DropIf(Cli.MovesSpec(b.table), Use(Cigarettes), true), CountTrue(b.shotgun), |b.shotgun|)
  }

  lemma MovesUnique(t: Table)
    requires TableOk(Cli.FiveKinds, t)
    ensures Unique(Cli.MovesSpec(t))
  {
    Cli.MovesListed(t);
  }

  /** The searched moves are the listed moves other than cigarettes, where
      'self' is kept only when the front is known blank or no shell is
      live, the magnifying glass only when the front is unknown and two
      shells are left, the saw only when the opponent has other than 1
      charge and no saw is in effect, and handcuffs only when two shells
      are left; 'op' is always kept, and no move is listed twice. */
  lemma PruneRules(b: Game.Board)
    requires Cli.BoardOk(b)
    ensures var t := b.table;
      var x, n := CountTrue(b.shotgun), |b.shotgun|;
      var ms := Searched(b);
      && Unique(ms) && ShootOpponent in ms
      && forall m :: m in ms <==>
           (&& m in Cli.MovesSpec(t) && m != Use(Cigarettes)
            && (m == ShootSelf ==> t.chamberPublic == Some(false) || x == 0)
            && (m == Use(MagnifyingGlass) ==> t.chamberPublic.None? && n >= 2)
            && (m == Use(Saw) ==> t.charges[Opponent(t.currentTurn)] != 1 && t.active[Saw] <= 0.0)
            && (m == Use(Handcuffs) ==> n >= 2))
  {
    var t := b.table;
    var x, n := CountTrue(b.shotgun), |b.shotgun|;
    Cli.MovesListed(t);
    MovesUnique(t);
    var ms0 := Cli.MovesSpec(t);
    var ms := DropIf(ms0, Use(Cigarettes), true);
    DropIfMembers(ms0, Use(Cigarettes), true);
    var a := DropIf(ms, ShootSelf, t.chamberPublic != Some(false) && x > 0);
    DropIfMembers(ms, ShootSelf, t.chamberPublic != Some(false) && x > 0);
    var c := DropIf(a, Use(MagnifyingGlass), t.chamberPublic.Some? || n < 2);
    DropIfMembers(a, Use(MagnifyingGlass), t.chamberPublic.Some? || n < 2);
    var d := DropIf(c, Use(Saw), t.charges[Opponent(t.currentTurn)] == 1 || t.active[Saw] > 0.0);
    DropIfMembers(c, Use(Saw), t.charges[Opponent(t.currentTurn)] == 1 || t.active[Saw] > 0.0);
    DropIfMembers(d, Use(Handcuffs), n < 2);
  }

  // ------------------------------------------------------------ boards of the search

  /** The items held by both players, counting only positive counts: each
      item move spends one, which bounds the search at a fixed depth. */
  function Positive(c: Counts, order: seq<Kind>): nat
    requires Covers(c, order)
  {
    if order == [] then 0 else (if c[order[0]] > 0 then c[order[0]] else 0) + Positive(c, order[1..])
  }

  lemma {:induction false} PositiveSpend(c: Counts, order: seq<Kind>, k: Kind)
    requires Covers(c, order) && Distinct(order) && k in order && c[k] > 0
    ensures Positive(c[k := c[k] - 1], order) + 1 == Positive(c, order)
  {
    DistinctTail(order);
    if order[0] == k {
      PositiveOther(c, order[1..], k);
    } else {
      PositiveSpend(c, order[1..], k);
    }
  }

  lemma {:induction false} PositiveOther(c: Counts, order: seq<Kind>, k: Kind)
    requires Covers(c, order) && k !in order && k in c
    ensures Positive(c[k := c[k] - 1], order) == Positive(c, order)
  {
    if order != [] {
      PositiveOther(c, order[1..], k);
    }
  }

  function Stock(t: Table): nat
    requires TableOk(Cli.FiveKinds, t)
  {
    Positive(t.items[0], Cli.FiveKinds) + Positive(t.items[1], Cli.FiveKinds)
  }

  /** `board.items[board.current_turn][k] -= 1`, clearing the public
      chamber too for the beer. */
  function Spend(b: Game.Board, k: Kind): (r: Game.Board)
    requires Cli.BoardOk(b) && k in Cli.FiveKinds
    ensures Cli.BoardOk(r)
  {
    var t := b.table;
    var p := t.currentTurn;
    var items := t.items[p := t.items[p][k := t.items[p][k] - 1]];
    Game.Board(t.(items := items, chamberPublic := if k == Beer then None else t.chamberPublic), b.shotgun)
  }

  /** Spending a held item lowers the stock by one and touches nothing but
      that count and, for the beer, the public chamber. */
  lemma SpendStock(b: Game.Board, k: Kind)
    requires Cli.BoardOk(b) && k in Cli.FiveKinds && b.table.items[b.table.currentTurn][k] > 0
    ensures Stock(Spend(b, k).table) + 1 == Stock(b.table)
  {
    var t := b.table;
    var p := t.currentTurn;
    Cli.FiveKindsDistinct();
    PositiveSpend(t.items[p], Cli.FiveKinds, k);
    assert Spend(b, k).table.items[1 - p] == t.items[1 - p];
  }

  /** The board after the parent mutation of move m. */
  function After(b: Game.Board, m: Move): (r: Game.Board)
    requires Cli.BoardOk(b)
    ensures Cli.BoardOk(r)
  {
    match m
    case Use(k) =>
      if k == MagnifyingGlass || k == Beer || k == Saw || k == Handcuffs then Spend(b, k) else b
    case _ => b
  }

  /** The local `switch(b, is_hit, at_opponent)` of `expectimax` as
      written: the saw wears off and the chamber becomes unknown; after a
      blank at oneself nothing more happens; otherwise handcuffs above 0.5
      lose 0.5, and a set `_skip_next` is consumed or the turn passes.  It
      never sets `_skip_next`, so handcuffs never keep the turn. */
  function Local(t: Table, isHit: bool, atOpponent: bool): (r: Table)
    requires TableOk(Cli.FiveKinds, t)
    ensures TableOk(Cli.FiveKinds, r)
  {
    var t1 := t.(active := t.active[Saw := 0.0], chamberPublic := None);
    if !atOpponent && !isHit then t1
    else
      var t2 := if t1.active[Handcuffs] > 0.5 then t1.(active := t1.active[Handcuffs := t1.active[Handcuffs] - 0.5]) else t1;
      if t2.skipNext then t2.(skipNext := false) else t2.(currentTurn := Opponent(t2.currentTurn))
  }

  /** With at most half a handcuff in effect, the search's switch after any
      shot but a blank at oneself is the game's switch with the chamber
      made unknown. */
  lemma LocalIsGame(t: Table, isHit: bool, atOpponent: bool)
    requires TableOk(Cli.FiveKinds, t) && (atOpponent || isHit) && t.active[Handcuffs] <= 0.5
    ensures Local(t, isHit, atOpponent) == Duel.Switch(t, atOpponent, isHit).(chamberPublic := None)
  {
  }

  /** With a handcuff in effect, the game's shot at the opponent keeps the
      turn, while the search's switch as written passes it. */
  lemma LocalLosesHandcuffTurn(t: Table, isHit: bool)
    requires TableOk(Cli.FiveKinds, t) && t.active[Handcuffs] == 1.0 && !t.skipNext
    ensures Duel.Switch(t, true, isHit).currentTurn == t.currentTurn
    ensures Local(t, isHit, true).currentTurn == Opponent(t.currentTurn) != t.currentTurn
  {
  }

  /** The switch the search evidently means: the one of the game's `fire`,
      where consuming half a handcuff sets `_skip_next`; the search's own
      clearing of the saw and the chamber after a blank at oneself is kept. */
  function Switched(t: Table, isHit: bool, atOpponent: bool): (r: Table)
    requires TableOk(Cli.FiveKinds, t)
    ensures TableOk(Cli.FiveKinds, r)
  {
    var t1 := t.(active := t.active[Saw := 0.0], chamberPublic := None);
    if !atOpponent && !isHit then t1
    else
      var t2 := if t1.active[Handcuffs] > 0.5
        then t1.(active := t1.active[Handcuffs := t1.active[Handcuffs] - 0.5], skipNext := true)
        else t1;
      if t2.skipNext then t2.(skipNext := false) else t2.(currentTurn := Opponent(t2.currentTurn))
  }

  /** After any shot but a blank at oneself, the corrected switch is the
      game's switch with the chamber made unknown; so handcuffs keep the
      turn. */
  lemma SwitchedIsGame(t: Table, isHit: bool, atOpponent: bool)
    requires TableOk(Cli.FiveKinds, t) && (atOpponent || isHit)
    ensures Switched(t, isHit, atOpponent) == Duel.Switch(t, atOpponent, isHit).(chamberPublic := None)
    ensures t.active[Handcuffs] > 0.5 ==> Switched(t, isHit, atOpponent).currentTurn == t.currentTurn
  {
  }

  /** The copy searched after a shot: a shell of the outcome removed
      (ValueError, None here, when there is none), the damage of a hit, and
      the local switch. */
  function ShotChild(b: Game.Board, atOpponent: bool, isHit: bool): (r: Option<Game.Board>)
    requires Cli.BoardOk(b)
    ensures r.Some? ==> Cli.BoardOk(r.value) && |r.value.shotgun| + 1 == |b.shotgun|
    ensures r.None? <==> isHit !in b.shotgun
  {
    var c := Cli.CopySpec(b);
    match RemoveValue(c.shotgun, isHit)
    case None => None
    case Some(rest) =>
      var t := c.table;
      var target := if atOpponent then Opponent(b.table.currentTurn) else t.currentTurn;
      var damage := if atOpponent && b.table.active[Saw] > 0.0 then 2 else 1;
      var hurt := if isHit then t.(charges := t.charges[target := t.charges[target] - damage]) else t;
      Some(Game.Board(Local(hurt, isHit, atOpponent), rest))
  }

  /** The turn and the effects of a searched shot copy: the saw is off, the
      chamber unknown, and after any shot but a blank at oneself the turn
      always passes, whatever handcuffs are in effect, which lose half. */
  lemma ShotChildTurn(b: Game.Board, atOpponent: bool, isHit: bool)
    requires Cli.BoardOk(b) && ShotChild(b, atOpponent, isHit).Some?
    ensures var r := ShotChild(b, atOpponent, isHit).value.table;
      var h := b.table.active[Handcuffs];
      && r.active[Saw] == 0.0 && r.chamberPublic == None && !r.skipNext
      && r.currentTurn == (if atOpponent || isHit then Opponent(b.table.currentTurn) else b.table.currentTurn)
      && r.active[Handcuffs] == (if (atOpponent || isHit) && h > 0.5 then h - 0.5 else h)
  {
  }

  /** A shot whose outcome is the front shell: the searched copy is the
      copy after the game's `fire`.  (A self-hit in the search deals 1 even
      with the saw in effect, where `fire` deals 2, so that case is left
      out here, and so is a handcuff in effect, where the search passes the
      turn that `fire` keeps: ShotChildTurn.) */
  lemma ShotChildIsFire(b: Game.Board, atOpponent: bool, isHit: bool)
    requires Cli.BoardOk(b) && b.shotgun != [] && b.shotgun[0] == isHit && (atOpponent || isHit)
    requires !atOpponent ==> b.table.active[Saw] <= 0.0
    requires b.table.active[Handcuffs] <= 0.5
    ensures var c := Cli.CopySpec(b);
      ShotChild(b, atOpponent, isHit) == Some(Game.Board(Duel.Fire(c.table, b.shotgun, atOpponent).1, b.shotgun[1..]))
  {
    var t := Cli.CopySpec(b).table;
    assert RemoveValue(b.shotgun, isHit) == Some(b.shotgun[1..]);
    if isHit {
      HitIsHurt(t, atOpponent);
    } else {
      LocalIsGame(t, false, atOpponent);
    }
  }

  /** The hit half of ShotChildIsFire on a table. */
  lemma HitIsHurt(t: Table, atOpponent: bool)
    requires TableOk(Cli.FiveKinds, t) && t.chamberPublic == None
    requires !atOpponent ==> t.active[Saw] <= 0.0
    requires t.active[Handcuffs] <= 0.5
    ensures var target := if atOpponent then Opponent(t.currentTurn) else t.currentTurn;
      var damage := if atOpponent && t.active[Saw] > 0.0 then 2 else 1;
      Local(t.(charges := t.charges[target := t.charges[target] - damage]), true, atOpponent)
        == Duel.Switch(Hurt(t, Target(t, atOpponent)).1, atOpponent, true)
  {
    var target := if atOpponent then Opponent(t.currentTurn) else t.currentTurn;
    var damage := if atOpponent && t.active[Saw] > 0.0 then 2 else 1;
    var hurt := t.(charges := t.charges[target := t.charges[target] - damage]);
    var h := Hurt(t, Target(t, atOpponent)).1;
    LocalIsGame(hurt, true, atOpponent);
    assert h == hurt.(active := hurt.active[Saw := 0.0]) || h == hurt;
  }

  /** The copy searched after the magnifying glass, with the chamber shown. */
  function Peeked(b: Game.Board, live: bool): (r: Game.Board)
    requires Cli.BoardOk(b)
    ensures Cli.BoardOk(r) && r.shotgun == b.shotgun && Stock(r.table) == Stock(b.table)
  {
    var c := Cli.CopySpec(b);
    c.(table := c.table.(chamberPublic := Some(live)))
  }

  /** The copy searched after a beer: a shell of the outcome removed. */
  function Ejected(b: Game.Board, live: bool): (r: Option<Game.Board>)
    requires Cli.BoardOk(b)
    ensures r.Some? ==> Cli.BoardOk(r.value) && |r.value.shotgun| + 1 == |b.shotgun|
    ensures r.None? <==> live !in b.shotgun
  {
    var c := Cli.CopySpec(b);
    match RemoveValue(c.shotgun, live)
    case None => None
    case Some(rest) => Some(c.(shotgun := rest))
  }

  /** The copy searched after the saw or handcuffs: the effect raised by one. */
  function Raised(b: Game.Board, k: Kind): (r: Game.Board)
    requires Cli.BoardOk(b) && (k == Saw || k == Handcuffs)
    ensures Cli.BoardOk(r) && r.shotgun == b.shotgun && Stock(r.table) == Stock(b.table)
  {
    var c := Cli.CopySpec(b);
    c.(table := c.table.(active := c.table.active[k := c.table.active[k] + 1.0]))
  }

  /** `hit_prob`: 1 or 0 when the chamber is public, else X/N. */
  function HitProb(chamber: Option<bool>, x: nat, n: nat): (r: real)
    requires 0 < n && x <= n
    ensures 0.0 <= r <= 1.0
  {
    match chamber
    case Some(live) => if live then 1.0 else 0.0
    case None => x as real / n as real
  }

  // ------------------------------------------------------------ expectimax

  /** The search may go on from move i: every item move still to come names a
      kind the mover holds, and the stock is within the bound. */
  predicate Ready(b: Game.Board, ms: seq<Move>, i: nat, bound: nat) {
    && Cli.BoardOk(b) && i <= |ms| && Unique(ms) && Stock(b.table) <= bound
    && forall j :: i <= j < |ms| && ms[j].Use? ==>
         ms[j].kind in Cli.FiveKinds && b.table.items[b.table.currentTurn][ms[j].kind] > 0
  }

  /** `expectimax(board, depth, eval_for)`: the outcome, and the board as
      the search leaves it. */
  function Search(b: Game.Board, depth: int, evalFor: int): (r: (Result<Outcome>, Game.Board))
    requires Cli.BoardOk(b)
    ensures Cli.BoardOk(r.1) && r.1.shotgun == b.shotgun
    ensures r.0.Ok? ==> (r.0.value.move.None? <==> depth == 0 || Winner(b.table.charges).Some? || |b.shotgun| == 0)
    decreases |b.shotgun|, Stock(b.table), 4, 0
  {
    var t := b.table;
    var x, n := CountTrue(b.shotgun), |b.shotgun|;
    if depth == 0 || Winner(t.charges).Some? || n == 0 then
      (match Heuristic(b, evalFor)
       case Err(e) => Err(e)
       case Ok(h) => Ok(Outcome(None, Fin(h))), b)
    else if Use(Cigarettes) in Cli.MovesSpec(t) && t.charges[t.currentTurn] < t.maxCharges then
      (Ok(Outcome(Some(Use(Cigarettes)), Inf)), b)
    else
      var ms := Searched(b);
      SearchedReady(b);
      if |ms| == 1 then (Ok(Outcome(Some(ms[0]), Fin(0.0))), b)
      else Scan(b, ms, 0, depth, evalFor, x, n, None, ShootOpponent, Stock(t))
  }

  lemma SearchedReady(b: Game.Board)
    requires Cli.BoardOk(b)
    ensures Ready(b, Searched(b), 0, Stock(b.table)) && |Searched(b)| >= 1
  {
    PruneRules(b);
    Cli.MovesListed(b.table);
    var ms := Searched(b);
    forall j | 0 <= j < |ms| && ms[j].Use?
      ensures ms[j].kind in Cli.FiveKinds && b.table.items[b.table.currentTurn][ms[j].kind] > 0
    {
      assert ms[j] in Cli.MovesSpec(b.table);
      assert ms[j] in Cli.MovesSpec(b.table)[2..];
    }
  }

  /** The loop over the moves from i on, with the maximum so far. */
  function Scan(b: Game.Board, ms: seq<Move>, i: nat, depth: int, evalFor: int, x: nat, n: nat,
                best: Option<Value>, bestMove: Move, bound: nat): (r: (Result<Outcome>, Game.Board))
    requires Ready(b, ms, i, bound) && 0 < n && x <= n && (i < |ms| || best.Some?)
    ensures Cli.BoardOk(r.1) && r.1.shotgun == b.shotgun
    ensures r.0.Ok? ==> r.0.value.move.Some?
    decreases |b.shotgun|, bound, 3, |ms| - i
  {
    if i == |ms| then (Ok(Outcome(Some(bestMove), best.value)), b)
    else
      var hp := HitProb(b.table.chamberPublic, x, n);
      var u := MoveValue(b, ms[i], hp, depth, evalFor, bound);
      var b1 := After(b, ms[i]);
      AfterReady(b, ms, i, bound);
      match u
      case Err(e) => (Err(e), b1)
      case Ok(v) =>
        if Above(v, best) then Scan(b1, ms, i + 1, depth, evalFor, x, n, Some(v), ms[i], bound)
        else Scan(b1, ms, i + 1, depth, evalFor, x, n, best, bestMove, bound)
  }

  lemma AfterReady(b: Game.Board, ms: seq<Move>, i: nat, bound: nat)
    requires Ready(b, ms, i, bound) && i < |ms|
    ensures Ready(After(b, ms[i]), ms, i + 1, bound) && After(b, ms[i]).shotgun == b.shotgun
  {
    var m := ms[i];
    var b1 := After(b, m);
    if m.Use? && b1 != b {
      SpendStock(b, m.kind);
      forall j | i + 1 <= j < |ms| && ms[j].Use?
        ensures b1.table.items[b1.table.currentTurn][ms[j].kind] > 0
      {
        assert ms[j] != m;
      }
    }
  }

  /** The utility of move m (errors raised by the searches below it), on
      the board the loop has reached. */
  function MoveValue(b: Game.Board, m: Move, hp: real, depth: int, evalFor: int, bound: nat): (r: Result<Value>)
    requires Cli.BoardOk(b) && Stock(b.table) <= bound && 0.0 <= hp <= 1.0
    requires m.Use? ==> m.kind in Cli.FiveKinds && b.table.items[b.table.currentTurn][m.kind] > 0
    ensures r.Ok? && (m == ShootOpponent || m == ShootSelf) ==>
      (hp > 0.0 ==> true in b.shotgun) && (hp < 1.0 ==> false in b.shotgun)
    decreases |b.shotgun|, bound, 2, 0
  {
    match m
    case ShootOpponent => ShotValue(b, true, hp, depth, evalFor, bound)
    case ShootSelf => ShotValue(b, false, hp, depth, evalFor, bound)
    case Use(k) =>
      if k == MagnifyingGlass then GlassValue(b, hp, depth, evalFor, bound)
      else if k == Beer then BeerValue(b, hp, depth, evalFor, bound)
      else if k == Saw || k == Handcuffs then EffectValue(b, k, depth, evalFor, bound)
      else Ok(Fin(0.0))
    case Unknown => Ok(Fin(0.0))
  }

  /** `expectimax(...)[1]` weighted by p. */
  function Weighted(p: real, r: Result<Outcome>): Result<Value>
    requires p > 0.0
  {
    match r
    case Err(e) => Err(e)
    case Ok(o) => Ok(Times(p, o.value))
  }

  /** `utility = 0`, then the live outcome's part when its weight is above 0
      and the blank outcome's part when its weight is below 1; the first
      error raised wins. */
  function Sum(hit: Result<Value>, miss: Result<Value>): Result<Value> {
    if hit.Err? then hit else if miss.Err? then miss else Ok(Plus(hit.value, miss.value))
  }

  /** The halving of a shot's utility unless eval_for is 0. */
  function Halved(evalFor: int, r: Result<Value>): Result<Value> {
    match r
    case Err(e) => Err(e)
    case Ok(v) => Ok(if evalFor == 0 then v else Times(0.5, v))
  }

  /** One outcome of a shot, weighted by p: `remove` of that shell, which
      may raise ValueError, then a search one ply deeper. */
  function ShotBranch(b: Game.Board, atOpponent: bool, isHit: bool, p: real, depth: int, evalFor: int, bound: nat): (r: Result<Value>)
    requires Cli.BoardOk(b) && Stock(b.table) <= bound && p > 0.0
    ensures r.Ok? ==> isHit in b.shotgun
    decreases |b.shotgun|, bound, 0, 0
  {
    match ShotChild(b, atOpponent, isHit)
    case None => Err(ValueError)
    case Some(c) => Weighted(p, Search(c, depth - 1, evalFor).0)
  }

  /** 'op' or 'self'. */
  function ShotValue(b: Game.Board, atOpponent: bool, hp: real, depth: int, evalFor: int, bound: nat): (r: Result<Value>)
    requires Cli.BoardOk(b) && Stock(b.table) <= bound && 0.0 <= hp <= 1.0
    ensures r.Ok? ==> (hp > 0.0 ==> true in b.shotgun) && (hp < 1.0 ==> false in b.shotgun)
    decreases |b.shotgun|, bound, 1, 0
  {
    var hit := if hp > 0.0 then ShotBranch(b, atOpponent, true, hp, depth, evalFor, bound) else Ok(Fin(0.0));
    var miss := if hit.Ok? && hp < 1.0 then ShotBranch(b, atOpponent, false, 1.0 - hp, depth, evalFor, bound) else Ok(Fin(0.0));
    Halved(evalFor, Sum(hit, miss))
  }

  /** One shown chamber after the magnifying glass, weighted by p, searched
      at the same depth on a copy of the board s that spent the glass. */
  function GlassBranch(s: Game.Board, live: bool, p: real, depth: int, evalFor: int, bound: nat): (r: Result<Value>)
    requires Cli.BoardOk(s) && Stock(s.table) < bound && p > 0.0
    decreases |s.shotgun|, bound, 0, 0
  {
    Weighted(p, Search(Peeked(s, live), depth, evalFor).0)
  }

  /** 'magnifying_glass'. */
  function GlassValue(b: Game.Board, hp: real, depth: int, evalFor: int, bound: nat): (r: Result<Value>)
    requires Cli.BoardOk(b) && Stock(b.table) <= bound && 0.0 <= hp <= 1.0
    requires b.table.items[b.table.currentTurn][MagnifyingGlass] > 0
    decreases |b.shotgun|, bound, 1, 0
  {
    var s := Spend(b, MagnifyingGlass);
    SpendStock(b, MagnifyingGlass);
    var hit := if hp > 0.0 then GlassBranch(s, true, hp, depth, evalFor, bound) else Ok(Fin(0.0));
    var miss := if hit.Ok? && hp < 1.0 then GlassBranch(s, false, 1.0 - hp, depth, evalFor, bound) else Ok(Fin(0.0));
    Sum(hit, miss)
  }

  /** One ejected shell after the beer, weighted by p: `remove` of that
      shell on a copy of the board s that spent the beer, then a search at
      the same depth. */
  function BeerBranch(s: Game.Board, live: bool, p: real, depth: int, evalFor: int, bound: nat): (r: Result<Value>)
    requires Cli.BoardOk(s) && Stock(s.table) <= bound && p > 0.0
    decreases |s.shotgun|, bound, 0, 0
  {
    match Ejected(s, live)
    case None => Err(ValueError)
    case Some(c) => Weighted(p, Search(c, depth, evalFor).0)
  }

  /** 'beer'. */
  function BeerValue(b: Game.Board, hp: real, depth: int, evalFor: int, bound: nat): (r: Result<Value>)
    requires Cli.BoardOk(b) && Stock(b.table) <= bound && 0.0 <= hp <= 1.0
    requires b.table.items[b.table.currentTurn][Beer] > 0
    decreases |b.shotgun|, bound, 1, 0
  {
    var s := Spend(b, Beer);
    SpendStock(b, Beer);
    var hit := if hp > 0.0 then BeerBranch(s, true, hp, depth, evalFor, bound) else Ok(Fin(0.0));
    var miss := if hit.Ok? && hp < 1.0 then BeerBranch(s, false, 1.0 - hp, depth, evalFor, bound) else Ok(Fin(0.0));
    Sum(hit, miss)
  }

  /** 'saw' or 'handcuffs': spent, then the copy with the effect raised
      searched at the same depth; its utility is the move's. */
  function EffectValue(b: Game.Board, k: Kind, depth: int, evalFor: int, bound: nat): (r: Result<Value>)
    requires Cli.BoardOk(b) && Stock(b.table) <= bound && (k == Saw || k == Handcuffs)
    requires b.table.items[b.table.currentTurn][k] > 0
    decreases |b.shotgun|, bound, 1, 0
  {
    var s := Spend(b, k);
    SpendStock(b, k);
    match Search(Raised(s, k), depth, evalFor).0
    case Err(e) => Err(e)
    case Ok(o) => Ok(o.value)
  }

  /** One step of the loop, unfolded. */
  lemma ScanStep(b: Game.Board, ms: seq<Move>, i: nat, depth: int, evalFor: int, x: nat, n: nat,
                 best: Option<Value>, bestMove: Move, bound: nat)
    requires Ready(b, ms, i, bound) && 0 < n && x <= n && i < |ms|
    ensures Ready(After(b, ms[i]), ms, i + 1, bound) && After(b, ms[i]).shotgun == b.shotgun
    ensures var u := MoveValue(b, ms[i], HitProb(b.table.chamberPublic, x, n), depth, evalFor, bound);
      var b1 := After(b, ms[i]);
      Scan(b, ms, i, depth, evalFor, x, n, best, bestMove, bound)
        == match u
           case Err(e) => (Err(e), b1)
           case Ok(v) =>
             if Above(v, best) then Scan(b1, ms, i + 1, depth, evalFor, x, n, Some(v), ms[i], bound)
             else Scan(b1, ms, i + 1, depth, evalFor, x, n, best, bestMove, bound)
  {
    AfterReady(b, ms, i, bound);
  }

  // ------------------------------------------------------------ properties of the search

  lemma {:induction false} CountTrueMembers(s: seq<bool>)
    ensures CountTrue(s) > 0 <==> true in s
    ensures CountTrue(s) < |s| <==> false in s
  {
    if s != [] {
      CountTrueMembers(s[1..]);
      assert s == [s[0]] + s[1..];
    }
  }

  /** With the chamber unknown, the weight of a live outcome is the share of
      live shells, and an outcome gets a nonzero weight exactly when a shell
      of that kind is left: the `remove` of a searched branch never raises. */
  lemma ChanceBranches(b: Game.Board, atOpponent: bool)
    requires Cli.BoardOk(b) && b.shotgun != [] && b.table.chamberPublic == None
    ensures var x, n := CountTrue(b.shotgun), |b.shotgun|;
      var hp := HitProb(None, x, n);
      && hp * n as real == x as real
      && (hp > 0.0 <==> ShotChild(b, atOpponent, true).Some?)
      && (hp < 1.0 <==> ShotChild(b, atOpponent, false).Some?)
      && (hp > 0.0 <==> Ejected(b, true).Some?)
      && (hp < 1.0 <==> Ejected(b, false).Some?)
  {
    CountTrueMembers(b.shotgun);
    ShareOfLive(CountTrue(b.shotgun), |b.shotgun|);
  }

  lemma ShareOfLive(x: nat, n: nat)
    requires 0 < n && x <= n
    ensures var hp := x as real / n as real;
      hp * n as real == x as real && (hp > 0.0 <==> x > 0) && (hp < 1.0 <==> x < n)
  {
    var hp := x as real / n as real;
    assert hp * n as real == x as real;
    if x < n {
      assert hp < 1.0 by {
        assert hp * n as real < n as real;
      }
    }
  }

  /** A search that stops at once: a leaf scores the heuristic, the
      cigarettes below the maximum charge are worth infinity, and a single
      move left after pruning is worth 0; the board is left as it was. */
  lemma SearchStops(b: Game.Board, depth: int, evalFor: int)
    requires Cli.BoardOk(b)
    ensures var r := Search(b, depth, evalFor);
      var t := b.table;
      && (depth == 0 || Winner(t.charges).Some? || b.shotgun == [] ==>
            r.1 == b && (r.0.Ok? <==> Heuristic(b, evalFor).Ok?)
            && (r.0.Ok? ==> r.0.value == Outcome(None, Fin(Heuristic(b, evalFor).value))))
      && (depth != 0 && Winner(t.charges).None? && b.shotgun != [] ==>
            && (t.items[t.currentTurn][Cigarettes] > 0 && t.active[Cigarettes] == 0.0 && t.charges[t.currentTurn] < t.maxCharges
                ==> r == (Ok(Outcome(Some(Use(Cigarettes)), Inf)), b))
            && (|Searched(b)| == 1 && !(Use(Cigarettes) in Cli.MovesSpec(t) && t.charges[t.currentTurn] < t.maxCharges)
                ==> r == (Ok(Outcome(Some(ShootOpponent), Fin(0.0))), b)))
  {
    Cli.MovesListed(b.table);
    PruneRules(b);
    var ms := Searched(b);
    if |ms| == 1 {
      assert ms[0] == ShootOpponent;
    }
  }

  /** The move a search returns is one of the board's moves: the
      cigarettes only below the maximum charge, and otherwise a move that
      survived the pruning (see PruneRules). */
  lemma SearchMoveListed(b: Game.Board, depth: int, evalFor: int)
    requires Cli.BoardOk(b)
    ensures var r := Search(b, depth, evalFor).0;
      var t := b.table;
      r.Ok? && r.value.move.Some? ==>
        var m := r.value.move.value;
        && m in Cli.MovesSpec(t)
        && (m == Use(Cigarettes) ==> t.charges[t.currentTurn] < t.maxCharges && r.value.value == Inf)
        && (m != Use(Cigarettes) ==> m in Searched(b))
  {
    var t := b.table;
    var x, n := CountTrue(b.shotgun), |b.shotgun|;
    if !(depth == 0 || Winner(t.charges).Some? || n == 0)
       && !(Use(Cigarettes) in Cli.MovesSpec(t) && t.charges[t.currentTurn] < t.maxCharges) {
      var ms := Searched(b);
      SearchedReady(b);
      PruneRules(b);
      if |ms| != 1 {
        ScanPicksListed(b, ms, 0, depth, evalFor, x, n, None, ShootOpponent, Stock(t));
      }
    }
  }

  lemma {:induction false} ScanPicksListed(b: Game.Board, ms: seq<Move>, i: nat, depth: int, evalFor: int, x: nat, n: nat,
                                           best: Option<Value>, bestMove: Move, bound: nat)
    requires Ready(b, ms, i, bound) && 0 < n && x <= n && (i < |ms| || best.Some?) && bestMove in ms
    ensures var r := Scan(b, ms, i, depth, evalFor, x, n, best, bestMove, bound).0;
      r.Ok? ==> r.value.move.Some? && r.value.move.value in ms
    decreases |ms| - i
  {
    if i < |ms| {
      var hp := HitProb(b.table.chamberPublic, x, n);
      var u := MoveValue(b, ms[i], hp, depth, evalFor, bound);
      AfterReady(b, ms, i, bound);
      if u.Ok? {
        if Above(u.value, best) {
          ScanPicksListed(After(b, ms[i]), ms, i + 1, depth, evalFor, x, n, Some(u.value), ms[i], bound);
        } else {
          ScanPicksListed(After(b, ms[i]), ms, i + 1, depth, evalFor, x, n, best, bestMove, bound);
        }
      }
    }
  }

  /** The utilities the loop computes for ms[i..], each on the board the
      earlier moves left, or the first error raised. */
  function Utilities(b: Game.Board, ms: seq<Move>, i: nat, depth: int, evalFor: int, x: nat, n: nat, bound: nat): (r: Result<seq<Value>>)
    requires Ready(b, ms, i, bound) && 0 < n && x <= n
    ensures r.Ok? ==> |r.value| == |ms| - i
    decreases |ms| - i
  {
    if i == |ms| then Ok([])
    else
      var u := MoveValue(b, ms[i], HitProb(b.table.chamberPublic, x, n), depth, evalFor, bound);
      AfterReady(b, ms, i, bound);
      match u
      case Err(e) => Err(e)
      case Ok(v) =>
        match Utilities(After(b, ms[i]), ms, i + 1, depth, evalFor, x, n, bound)
        case Err(e) => Err(e)
        case Ok(vs) => Ok([v] + vs)
  }

  /** vs[k] is the first of the largest values in vs, and above best. */
  predicate FirstBest(vs: seq<Value>, k: int, best: Option<Value>) {
    && 0 <= k < |vs| && Above(vs[k], best)
    && (forall j :: 0 <= j < k ==> Above(vs[k], Some(vs[j])))
    && (forall j :: k < j < |vs| ==> !Above(vs[j], Some(vs[k])))
  }

  /** No value of vs is above best. */
  predicate NoneAbove(vs: seq<Value>, best: Option<Value>) {
    forall j :: 0 <= j < |vs| ==> !Above(vs[j], best)
  }

  /** The loop's strict `>` returns the first of the largest utilities, or
      keeps the maximum it started with when none is larger; it raises
      exactly when computing some utility raises. */
  lemma {:induction false} ScanFirstBest(b: Game.Board, ms: seq<Move>, i: nat, depth: int, evalFor: int, x: nat, n: nat,
                                         best: Option<Value>, bestMove: Move, bound: nat)
    requires Ready(b, ms, i, bound) && 0 < n && x <= n && (i < |ms| || best.Some?)
    ensures var r := Scan(b, ms, i, depth, evalFor, x, n, best, bestMove, bound).0;
      var us := Utilities(b, ms, i, depth, evalFor, x, n, bound);
      && (r.Ok? <==> us.Ok?)
      && (r.Ok? ==>
            || (exists k :: FirstBest(us.value, k, best) && r.value == Outcome(Some(ms[i + k]), us.value[k]))
            || (NoneAbove(us.value, best) && best.Some? && r.value == Outcome(Some(bestMove), best.value)))
    decreases |ms| - i
  {
    if i < |ms| {
      var hp := HitProb(b.table.chamberPublic, x, n);
      var u := MoveValue(b, ms[i], hp, depth, evalFor, bound);
      ScanStep(b, ms, i, depth, evalFor, x, n, best, bestMove, bound);
      var b1 := After(b, ms[i]);
      if u.Ok? {
        var v := u.value;
        var best1 := if Above(v, best) then Some(v) else best;
        var move1 := if Above(v, best) then ms[i] else bestMove;
        ScanFirstBest(b1, ms, i + 1, depth, evalFor, x, n, best1, move1, bound);
        var r := Scan(b, ms, i, depth, evalFor, x, n, best, bestMove, bound).0;
        assert r == Scan(b1, ms, i + 1, depth, evalFor, x, n, best1, move1, bound).0;
        var us1 := Utilities(b1, ms, i + 1, depth, evalFor, x, n, bound);
        if r.Ok? {
          var vs := [v] + us1.value;
          assert Utilities(b, ms, i, depth, evalFor, x, n, bound) == Ok(vs);
          FirstBestStep(v, us1.value, best, r.value, ms[i..], bestMove);
        }
      }
    }
  }

  /** One step of ScanFirstBest: the first value either beats best or not. */
  lemma FirstBestStep(v: Value, vs: seq<Value>, best: Option<Value>, o: Outcome, ms: seq<Move>, bestMove: Move)
    requires |ms| == |vs| + 1
    requires var best1 := if Above(v, best) then Some(v) else best;
      var move1 := if Above(v, best) then ms[0] else bestMove;
      || (exists k :: FirstBest(vs, k, best1) && o == Outcome(Some(ms[1..][k]), vs[k]))
      || (NoneAbove(vs, best1) && best1.Some? && o == Outcome(Some(move1), best1.value))
    ensures || (exists k :: FirstBest([v] + vs, k, best) && o == Outcome(Some(ms[k]), ([v] + vs)[k]))
            || (NoneAbove([v] + vs, best) && best.Some? && o == Outcome(Some(bestMove), best.value))
  {
    var all := [v] + vs;
    var best1 := if Above(v, best) then Some(v) else best;
    if k :| FirstBest(vs, k, best1) && o == Outcome(Some(ms[1..][k]), vs[k]) {
      var w := vs[k];
      assert all[k + 1] == w;
      AboveOrder(w, v, v);
      if !Above(v, best) {
        assert best.Some?;
        AboveOrder(w, best.value, v);
        AboveOrder(v, best.value, w);
      }
      assert FirstBest(all, k + 1, best) by {
        forall j | 0 <= j < k + 1 ensures Above(w, Some(all[j])) {
          if j > 0 {
            assert all[j] == vs[j - 1];
          }
        }
        forall j | k + 1 < j < |all| ensures !Above(all[j], Some(w)) {
          assert all[j] == vs[j - 1];
        }
      }
    } else if Above(v, best) {
      assert FirstBest(all, 0, best) by {
        forall j | 0 < j < |all| ensures !Above(all[j], Some(v)) {
          assert all[j] == vs[j - 1];
        }
      }
    } else {
      assert NoneAbove(all, best) by {
        forall j | 0 <= j < |all| ensures !Above(all[j], best) {
          if j > 0 {
            assert all[j] == vs[j - 1];
          }
        }
      }
    }
  }

  /** The utilities of the searched moves of b, in order. */
  function SearchedUtilities(b: Game.Board, depth: int, evalFor: int): (r: Result<seq<Value>>)
    requires Cli.BoardOk(b) && b.shotgun != []
    ensures r.Ok? ==> |r.value| == |Searched(b)|
  {
    SearchedReady(b);
    Utilities(b, Searched(b), 0, depth, evalFor, CountTrue(b.shotgun), |b.shotgun|, Stock(b.table))
  }

  /** The move a search past its stops returns is the first of the moves
      it searched whose utility is the largest. */
  lemma SearchFirstBest(b: Game.Board, depth: int, evalFor: int)
    requires Cli.BoardOk(b) && depth != 0 && Winner(b.table.charges).None? && b.shotgun != []
    requires !(Use(Cigarettes) in Cli.MovesSpec(b.table) && b.table.charges[b.table.currentTurn] < b.table.maxCharges)
    requires |Searched(b)| >= 2
    ensures var r := Search(b, depth, evalFor).0;
      var ms := Searched(b);
      var us := SearchedUtilities(b, depth, evalFor);
      && (r.Ok? <==> us.Ok?)
      && (r.Ok? ==> exists k :: FirstBest(us.value, k, None) && r.value == Outcome(Some(ms[k]), us.value[k]))
  {
    var ms := Searched(b);
    SearchedReady(b);
    var x, n := CountTrue(b.shotgun), |b.shotgun|;
    ScanFirstBest(b, ms, 0, depth, evalFor, x, n, None, ShootOpponent, Stock(b.table));
    var us := Utilities(b, ms, 0, depth, evalFor, x, n, Stock(b.table));
    if us.Ok? {
      assert !NoneAbove(us.value, None) by {
        assert Above(us.value[0], None);
      }
    }
  }

  /** b1 is b with at most one of each of the mover's items among the first
      i moves spent, and the chamber possibly made unknown. */
  predicate SpentFrom(b: Game.Board, b1: Game.Board, ms: seq<Move>, i: nat)
    requires Cli.BoardOk(b) && Cli.BoardOk(b1) && i <= |ms|
  {
    var t, t1, p := b.table, b1.table, b.table.currentTurn;
    && b1.shotgun == b.shotgun
    && t1.(items := t.items, chamberPublic := t.chamberPublic) == t
    && t1.items[1 - p] == t.items[1 - p]
    && (t1.chamberPublic == t.chamberPublic || t1.chamberPublic == None)
    && forall k :: k in Cli.FiveKinds ==>
         if Use(k) in ms[..i] then t.items[p][k] - 1 <= t1.items[p][k] <= t.items[p][k]
         else t1.items[p][k] == t.items[p][k]
  }

  lemma {:induction false} ScanSpends(b0: Game.Board, b: Game.Board, ms: seq<Move>, i: nat, depth: int, evalFor: int, x: nat, n: nat,
                                      best: Option<Value>, bestMove: Move, bound: nat)
    requires Cli.BoardOk(b0) && Ready(b, ms, i, bound) && 0 < n && x <= n && (i < |ms| || best.Some?)
    requires SpentFrom(b0, b, ms, i)
    ensures var r := Scan(b, ms, i, depth, evalFor, x, n, best, bestMove, bound).1;
      Cli.BoardOk(r) && SpentFrom(b0, r, ms, |ms|)
    decreases |ms| - i
  {
    if i < |ms| {
      var hp := HitProb(b.table.chamberPublic, x, n);
      var u := MoveValue(b, ms[i], hp, depth, evalFor, bound);
      ScanStep(b, ms, i, depth, evalFor, x, n, best, bestMove, bound);
      var b1 := After(b, ms[i]);
      SpendStep(b0, b, ms, i);
      if u.Ok? {
        if Above(u.value, best) {
          ScanSpends(b0, b1, ms, i + 1, depth, evalFor, x, n, Some(u.value), ms[i], bound);
          assert Scan(b, ms, i, depth, evalFor, x, n, best, bestMove, bound)
              == Scan(b1, ms, i + 1, depth, evalFor, x, n, Some(u.value), ms[i], bound);
        } else {
          ScanSpends(b0, b1, ms, i + 1, depth, evalFor, x, n, best, bestMove, bound);
          assert Scan(b, ms, i, depth, evalFor, x, n, best, bestMove, bound)
              == Scan(b1, ms, i + 1, depth, evalFor, x, n, best, bestMove, bound);
        }
      } else {
        SpentLater(b0, b1, ms, i + 1);
        assert Scan(b, ms, i, depth, evalFor, x, n, best, bestMove, bound).1 == b1;
      }
    }
  }

  lemma SpendStep(b0: Game.Board, b: Game.Board, ms: seq<Move>, i: nat)
    requires Cli.BoardOk(b0) && Cli.BoardOk(b) && i < |ms| && Unique(ms) && SpentFrom(b0, b, ms, i)
    ensures SpentFrom(b0, After(b, ms[i]), ms, i + 1)
  {
    assert ms[..i + 1] == ms[..i] + [ms[i]];
    var m := ms[i];
    if m.Use? {
      assert m !in ms[..i] by {
        forall j | 0 <= j < i ensures ms[..i][j] != m {
          assert ms[j] != ms[i];
        }
      }
    }
  }

  lemma SpentLater(b0: Game.Board, b: Game.Board, ms: seq<Move>, i: nat)
    requires Cli.BoardOk(b0) && Cli.BoardOk(b) && i <= |ms| && SpentFrom(b0, b, ms, i)
    ensures SpentFrom(b0, b, ms, |ms|)
  {
    assert ms[..|ms|] == ms;
    forall k | k in Cli.FiveKinds && Use(k) in ms[..i] ensures Use(k) in ms {
    }
  }

  /** What `expectimax` does to the board it is given: the shells, charges,
      turn, effects and the opponent's items stay as they were; the chamber
      may become unknown; and each of the mover's items is spent at most
      once, and only one whose move was searched. */
  lemma SearchSpends(b: Game.Board, depth: int, evalFor: int)
    requires Cli.BoardOk(b)
    ensures var r := Search(b, depth, evalFor).1;
      Cli.BoardOk(r) && SpentFrom(b, r, Searched(b), |Searched(b)|)
  {
    var t := b.table;
    var ms := Searched(b);
    var x, n := CountTrue(b.shotgun), |b.shotgun|;
    assert ms[..0] == [];
    if depth == 0 || Winner(t.charges).Some? || n == 0
       || (Use(Cigarettes) in Cli.MovesSpec(t) && t.charges[t.currentTurn] < t.maxCharges) {
      SpentLater(b, b, ms, 0);
    } else {
      SearchedReady(b);
      if |ms| == 1 {
        SpentLater(b, b, ms, 0);
      } else {
        ScanSpends(b, b, ms, 0, depth, evalFor, x, n, None, ShootOpponent, Stock(t));
      }
    }
  }

  // ------------------------------------------------------------ the search on boards

  /** `board.items[board.current_turn][k] -= 1`, clearing the public chamber
      too for the beer. */
  method Take(board: Cli.Board, k: Kind)
    requires board.Valid() && k in Cli.FiveKinds
    modifies board
    ensures board.Snap() == Spend(old(board.Snap()), k) && board.Valid()
  {
    var p := board.currentTurn;
    board.items := board.items[p := board.items[p][k := board.items[p][k] - 1]];
    if k == Beer {
      board.chamberPublic := None;
    }
  }

  /** The search's local switch on a copy, as written (Local). */
  method Settle(c: Cli.Board, isHit: bool, atOpponent: bool)
    requires c.Valid()
    modifies c
    ensures c.Snap() == old(c.Snap()).(table := Local(old(c.Snap()).table, isHit, atOpponent)) && c.Valid()
  {
    c.active := c.active[Saw := 0.0];
    c.chamberPublic := None;
    if !atOpponent && !isHit {
      return;
    }
    if c.active[Handcuffs] > 0.5 {
      c.active := c.active[Handcuffs := c.active[Handcuffs] - 0.5];
    }
    if c.skipNext {
      c.skipNext := false;
    } else {
      c.SwitchTurn();
    }
  }

  /** The copy a shot searches, or None where `remove` raises ValueError. */
  method ShotBoard(board: Cli.Board, atOpponent: bool, isHit: bool) returns (r: Option<Cli.Board>)
    requires board.Valid()
    ensures r.None? <==> ShotChild(board.Snap(), atOpponent, isHit).None?
    ensures r.Some? ==> fresh(r.value) && r.value.Valid() && r.value.Snap() == ShotChild(board.Snap(), atOpponent, isHit).value
  {
    ghost var b := board.Snap();
    var c := board.Copy();
    var rest := RemoveValue(c.shotgun, isHit);
    if rest.None? {
      return None;
    }
    ghost var t := c.Snap().table;
    c.shotgun := rest.value;
    if isHit {
      var target := if atOpponent then Opponent(board.currentTurn) else board.currentTurn;
      var damage := if atOpponent && board.active[Saw] > 0.0 then 2 else 1;
      c.charges := c.charges[target := c.charges[target] - damage];
      assert c.Snap() == Game.Board(t.(charges := t.charges[target := t.charges[target] - damage]), rest.value);
    } else {
      assert c.Snap() == Game.Board(t, rest.value);
    }
    Settle(c, isHit, atOpponent);
    assert c.Snap() == ShotChild(b, atOpponent, isHit).value;
    r := Some(c);
  }

  /** One outcome of a shot. */
  method ShotBranchUtility(board: Cli.Board, atOpponent: bool, isHit: bool, p: real, depth: int, evalFor: int, ghost bound: nat)
    returns (u: Result<Value>)
    requires board.Valid() && Stock(board.Snap().table) <= bound && p > 0.0
    ensures u == ShotBranch(board.Snap(), atOpponent, isHit, p, depth, evalFor, bound)
    decreases |board.shotgun|, bound, 0, 0
  {
    var c := ShotBoard(board, atOpponent, isHit);
    if c.None? {
      return Err(ValueError);
    }
    var res := Expectimax(c.value, depth - 1, evalFor);
    u := Weighted(p, res);
  }

  /** The live outcome's part of a shot: searched only when its weight hp
      is above 0. */
  method HitUtility(board: Cli.Board, atOpponent: bool, hp: real, depth: int, evalFor: int, ghost bound: nat)
    returns (u: Result<Value>)
    requires board.Valid() && Stock(board.Snap().table) <= bound && 0.0 <= hp <= 1.0
    ensures u == if hp > 0.0 then ShotBranch(board.Snap(), atOpponent, true, hp, depth, evalFor, bound) else Ok(Fin(0.0))
    decreases |board.shotgun|, bound, 0, 1
  {
    u := Ok(Fin(0.0));
    if hp > 0.0 {
      u := ShotBranchUtility(board, atOpponent, true, hp, depth, evalFor, bound);
    }
  }

  /** The blank outcome's part of a shot: searched only when the live part
      did not raise and the weight 1 - hp is above 0. */
  method MissUtility(board: Cli.Board, atOpponent: bool, hit: Result<Value>, hp: real, depth: int, evalFor: int, ghost bound: nat)
    returns (u: Result<Value>)
    requires board.Valid() && Stock(board.Snap().table) <= bound && 0.0 <= hp <= 1.0
    ensures u == if hit.Ok? && hp < 1.0 then ShotBranch(board.Snap(), atOpponent, false, 1.0 - hp, depth, evalFor, bound) else Ok(Fin(0.0))
    decreases |board.shotgun|, bound, 0, 1
  {
    u := Ok(Fin(0.0));
    if hit.Ok? && hp < 1.0 {
      u := ShotBranchUtility(board, atOpponent, false, 1.0 - hp, depth, evalFor, bound);
    }
  }

  /** 'op' or 'self'. */
  method ShotUtility(board: Cli.Board, atOpponent: bool, hp: real, depth: int, evalFor: int, ghost bound: nat)
    returns (u: Result<Value>)
    requires board.Valid() && Stock(board.Snap().table) <= bound && 0.0 <= hp <= 1.0
    ensures u == ShotValue(board.Snap(), atOpponent, hp, depth, evalFor, bound)
    decreases |board.shotgun|, bound, 1, 0
  {
    var hit := HitUtility(board, atOpponent, hp, depth, evalFor, bound);
    var miss := MissUtility(board, atOpponent, hit, hp, depth, evalFor, bound);
    u := Halved(evalFor, Sum(hit, miss));
  }

  /** One shown chamber, on a board that spent the glass. */
  method GlassBranchUtility(board: Cli.Board, live: bool, p: real, depth: int, evalFor: int, ghost bound: nat)
    returns (u: Result<Value>)
    requires board.Valid() && Stock(board.Snap().table) < bound && p > 0.0
    ensures u == GlassBranch(board.Snap(), live, p, depth, evalFor, bound)
    decreases |board.shotgun|, bound, 0, 0
  {
    var c := board.Copy();
    c.chamberPublic := Some(live);
    assert c.Snap() == Peeked(board.Snap(), live);
    var res := Expectimax(c, depth, evalFor);
    u := Weighted(p, res);
  }

  /** 'magnifying_glass'. */
  method GlassUtility(board: Cli.Board, hp: real, depth: int, evalFor: int, ghost bound: nat) returns (u: Result<Value>)
    requires board.Valid() && Stock(board.Snap().table) <= bound && 0.0 <= hp <= 1.0
    requires board.items[board.currentTurn][MagnifyingGlass] > 0
    modifies board
    ensures u == GlassValue(old(board.Snap()), hp, depth, evalFor, bound)
    ensures board.Snap() == Spend(old(board.Snap()), MagnifyingGlass) && board.Valid()
    decreases |board.shotgun|, bound, 1, 0
  {
    SpendStock(board.Snap(), MagnifyingGlass);
    Take(board, MagnifyingGlass);
    var hit := GlassHitUtility(board, hp, depth, evalFor, bound);
    var miss := GlassMissUtility(board, hit, hp, depth, evalFor, bound);
    u := Sum(hit, miss);
  }

  /** The live half of the glass, on a board that spent it. */
  method GlassHitUtility(board: Cli.Board, hp: real, depth: int, evalFor: int, ghost bound: nat) returns (u: Result<Value>)
    requires board.Valid() && Stock(board.Snap().table) < bound && 0.0 <= hp <= 1.0
    ensures u == if hp > 0.0 then GlassBranch(board.Snap(), true, hp, depth, evalFor, bound) else Ok(Fin(0.0))
    decreases |board.shotgun|, bound, 0, 1
  {
    u := Ok(Fin(0.0));
    if hp > 0.0 {
      u := GlassBranchUtility(board, true, hp, depth, evalFor, bound);
    }
  }

  /** The blank half of the glass, searched only when the live half did not raise. */
  method GlassMissUtility(board: Cli.Board, hit: Result<Value>, hp: real, depth: int, evalFor: int, ghost bound: nat)
    returns (u: Result<Value>)
    requires board.Valid() && Stock(board.Snap().table) < bound && 0.0 <= hp <= 1.0
    ensures u == if hit.Ok? && hp < 1.0 then GlassBranch(board.Snap(), false, 1.0 - hp, depth, evalFor, bound) else Ok(Fin(0.0))
    decreases |board.shotgun|, bound, 0, 1
  {
    u := Ok(Fin(0.0));
    if hit.Ok? && hp < 1.0 {
      u := GlassBranchUtility(board, false, 1.0 - hp, depth, evalFor, bound);
    }
  }

  /** One ejected shell, on a board that spent the beer. */
  method BeerBranchUtility(board: Cli.Board, live: bool, p: real, depth: int, evalFor: int, ghost bound: nat)
    returns (u: Result<Value>)
    requires board.Valid() && Stock(board.Snap().table) <= bound && p > 0.0
    ensures u == BeerBranch(board.Snap(), live, p, depth, evalFor, bound)
    decreases |board.shotgun|, bound, 0, 0
  {
    var c := board.Copy();
    var rest := RemoveValue(c.shotgun, live);
    if rest.None? {
      return Err(ValueError);
    }
    c.shotgun := rest.value;
    assert Some(c.Snap()) == Ejected(board.Snap(), live);
    var res := Expectimax(c, depth, evalFor);
    u := Weighted(p, res);
  }

  /** 'beer'. */
  method BeerUtility(board: Cli.Board, hp: real, depth: int, evalFor: int, ghost bound: nat) returns (u: Result<Value>)
    requires board.Valid() && Stock(board.Snap().table) <= bound && 0.0 <= hp <= 1.0
    requires board.items[board.currentTurn][Beer] > 0
    modifies board
    ensures u == BeerValue(old(board.Snap()), hp, depth, evalFor, bound)
    ensures board.Snap() == Spend(old(board.Snap()), Beer) && board.Valid()
    decreases |board.shotgun|, bound, 1, 0
  {
    SpendStock(board.Snap(), Beer);
    Take(board, Beer);
    var hit := BeerHitUtility(board, hp, depth, evalFor, bound);
    var miss := BeerMissUtility(board, hit, hp, depth, evalFor, bound);
    u := Sum(hit, miss);
  }

  /** The live half of a beer, on a board that spent it. */
  method BeerHitUtility(board: Cli.Board, hp: real, depth: int, evalFor: int, ghost bound: nat) returns (u: Result<Value>)
    requires board.Valid() && Stock(board.Snap().table) <= bound && 0.0 <= hp <= 1.0
    ensures u == if hp > 0.0 then BeerBranch(board.Snap(), true, hp, depth, evalFor, bound) else Ok(Fin(0.0))
    decreases |board.shotgun|, bound, 0, 1
  {
    u := Ok(Fin(0.0));
    if hp > 0.0 {
      u := BeerBranchUtility(board, true, hp, depth, evalFor, bound);
    }
  }

  /** The blank half of a beer, searched only when the live half did not raise. */
  method BeerMissUtility(board: Cli.Board, hit: Result<Value>, hp: real, depth: int, evalFor: int, ghost bound: nat)
    returns (u: Result<Value>)
    requires board.Valid() && Stock(board.Snap().table) <= bound && 0.0 <= hp <= 1.0
    ensures u == if hit.Ok? && hp < 1.0 then BeerBranch(board.Snap(), false, 1.0 - hp, depth, evalFor, bound) else Ok(Fin(0.0))
    decreases |board.shotgun|, bound, 0, 1
  {
    u := Ok(Fin(0.0));
    if hit.Ok? && hp < 1.0 {
      u := BeerBranchUtility(board, false, 1.0 - hp, depth, evalFor, bound);
    }
  }

  /** 'saw' or 'handcuffs'. */
  method EffectUtility(board: Cli.Board, k: Kind, depth: int, evalFor: int, ghost bound: nat) returns (u: Result<Value>)
    requires board.Valid() && Stock(board.Snap().table) <= bound && (k == Saw || k == Handcuffs)
    requires board.items[board.currentTurn][k] > 0
    modifies board
    ensures u == EffectValue(old(board.Snap()), k, depth, evalFor, bound)
    ensures board.Snap() == Spend(old(board.Snap()), k) && board.Valid()
    decreases |board.shotgun|, bound, 1, 0
  {
    SpendStock(board.Snap(), k);
    Take(board, k);
    var c := board.Copy();
    c.active := c.active[k := c.active[k] + 1.0];
    assert c.Snap() == Raised(board.Snap(), k);
    var res := Expectimax(c, depth, evalFor);
    u := if res.Err? then Err(res.error) else Ok(res.value.value);
  }

  /** The body of the loop for one move: its utility, with the board after
      the move's own spending. */
  method MoveUtility(board: Cli.Board, m: Move, hp: real, depth: int, evalFor: int, ghost bound: nat) returns (u: Result<Value>)
    requires board.Valid() && Stock(board.Snap().table) <= bound && 0.0 <= hp <= 1.0
    requires m.Use? ==> m.kind in Cli.FiveKinds && board.items[board.currentTurn][m.kind] > 0
    modifies board
    ensures u == MoveValue(old(board.Snap()), m, hp, depth, evalFor, bound)
    ensures board.Snap() == After(old(board.Snap()), m) && board.Valid()
    decreases |board.shotgun|, bound, 2, 0
  {
    match m
    case ShootOpponent =>
      u := ShotUtility(board, true, hp, depth, evalFor, bound);
    case ShootSelf =>
      u := ShotUtility(board, false, hp, depth, evalFor, bound);
    case Use(k) =>
      if k == MagnifyingGlass {
        u := GlassUtility(board, hp, depth, evalFor, bound);
      } else if k == Beer {
        u := BeerUtility(board, hp, depth, evalFor, bound);
      } else if k == Saw || k == Handcuffs {
        u := EffectUtility(board, k, depth, evalFor, bound);
      } else {
        u := Ok(Fin(0.0));
      }
    case Unknown =>
      u := Ok(Fin(0.0));
  }

  /** The pruned moves of a board past its stops. */
  method PrunedMoves(board: Cli.Board, x: nat, n: nat) returns (ms: seq<Move>)
    requires board.Valid() && x == CountTrue(board.shotgun) && n == |board.shotgun|
    ensures ms == Searched(board.Snap())
  {
    ghost var t := board.Snap().table;
    ms := board.Moves();
    if Use(Cigarettes) in ms {
      ms := Without(ms, Use(Cigarettes));
    }
    ghost var listed := ms;
    WithoutMembers(ms, ShootSelf);
    if board.chamberPublic != Some(false) && x > 0 {
      ms := Without(ms, ShootSelf);
    }
    assert ms == DropIf(listed, ShootSelf, t.chamberPublic != Some(false) && x > 0);
    if (board.chamberPublic != None || n < 2) && Use(MagnifyingGlass) in ms {
      ms := Without(ms, Use(MagnifyingGlass));
    }
    if (board.charges[Opponent(board.currentTurn)] == 1 || board.active[Saw] > 0.0) && Use(Saw) in ms {
      ms := Without(ms, Use(Saw));
    }
    if n < 2 && Use(Handcuffs) in ms {
      ms := Without(ms, Use(Handcuffs));
    }
  }

  /** `expectimax(board, depth, eval_for)` on a board object, which the
      search mutates as the source does. */
  method Expectimax(board: Cli.Board, depth: int, evalFor: int) returns (r: Result<Outcome>)
    requires board.Valid()
    modifies board
    ensures (r, board.Snap()) == Search(old(board.Snap()), depth, evalFor)
    decreases |board.shotgun|, Stock(board.Snap().table), 4, 0
  {
    ghost var b0 := board.Snap();
    var x, n := board.ShotgunInfo();
    var w := board.Winner();
    if depth == 0 || w.Some? || n == 0 {
      var h := Heuristic(board.Snap(), evalFor);
      return if h.Err? then Err(h.error) else Ok(Outcome(None, Fin(h.value)));
    }
    var all := board.Moves();
    if Use(Cigarettes) in all && board.charges[board.currentTurn] < board.maxCharges {
      return Ok(Outcome(Some(Use(Cigarettes)), Inf));
    }
    var ms := PrunedMoves(board, x, n);
    SearchedReady(b0);
    if |ms| == 1 {
      return Ok(Outcome(Some(ms[0]), Fin(0.0)));
    }
    ghost var bound := Stock(b0.table);
    var best: Option<Value> := None;
    var bestMove := ShootOpponent;
    for i := 0 to |ms|
      invariant board.Valid() && board.shotgun == b0.shotgun
      invariant Ready(board.Snap(), ms, i, bound)
      invariant i > 0 ==> best.Some?
      invariant Search(b0, depth, evalFor) == Scan(board.Snap(), ms, i, depth, evalFor, x, n, best, bestMove, bound)
    {
      ScanStep(board.Snap(), ms, i, depth, evalFor, x, n, best, bestMove, bound);
      var hp := HitProb(board.chamberPublic, x, n);
      var u := MoveUtility(board, ms[i], hp, depth, evalFor, bound);
      if u.Err? {
        return Err(u.error);
      }
      if Above(u.value, best) {
        best := Some(u.value);
        bestMove := ms[i];
      }
    }
    r := Ok(Outcome(Some(bestMove), best.value));
  }
}
