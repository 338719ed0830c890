/** buckshot_roulette/ai.py: the players of the two-player board of
    buckshot_roulette/game.py.  This `Dealer` marks which shells it has
    seen (`known_shells`, True for a seen shell) and reads a seen shell off
    the board's own `_shotgun`; for the others it reasons from the counts.
    `Random` picks any listed move.  The random draws are parameters. */
module Ai {
  import opened Common
  import opened Inventory
  import opened Duel
  import Game

  /** `[False] * n`. */
  function Falses(n: nat): (r: seq<bool>)
    ensures |r| == n && forall j :: 0 <= j < n ==> !r[j]
  {
    seq(n, _ => false)
  }

  /** Seen shells of kind v. */
  function Marked(ks: seq<bool>, shells: seq<bool>, v: bool): (r: nat)
    requires |ks| == |shells|
  {
    if ks == [] then 0 else (if ks[0] && shells[0] == v then 1 else 0) + Marked(ks[1..], shells[1..], v)
  }

  /** Unseen shells of kind v. */
  function Unmarked(ks: seq<bool>, shells: seq<bool>, v: bool): (r: nat)
    requires |ks| == |shells|
  {
    if ks == [] then 0 else (if !ks[0] && shells[0] == v then 1 else 0) + Unmarked(ks[1..], shells[1..], v)
  }

  /** Every shell of kind v is either seen or not. */
  lemma {:induction false} MarkedSplit(ks: seq<bool>, shells: seq<bool>)
    requires |ks| == |shells|
    ensures CountTrue(shells) == Marked(ks, shells, true) + Unmarked(ks, shells, true)
    ensures |shells| - CountTrue(shells) == Marked(ks, shells, false) + Unmarked(ks, shells, false)
  {
    if ks != [] {
      MarkedSplit(ks[1..], shells[1..]);
    }
  }

  /** With no unseen shell of kind v, every unseen shell is of the other kind. */
  lemma {:induction false} UnmarkedNone(ks: seq<bool>, shells: seq<bool>, v: bool, i: int)
    requires |ks| == |shells| && Unmarked(ks, shells, v) == 0
    requires 0 <= i < |shells| && !ks[i]
    ensures shells[i] != v
  {
    if i > 0 {
      UnmarkedNone(ks[1..], shells[1..], v, i - 1);
    }
  }

  /** Shells that agree wherever they were seen have the same seen counts. */
  lemma {:induction false} MarkedSeen(ks: seq<bool>, a: seq<bool>, b: seq<bool>, v: bool)
    requires |ks| == |a| == |b| && forall i :: 0 <= i < |ks| && ks[i] ==> a[i] == b[i]
    ensures Marked(ks, a, v) == Marked(ks, b, v)
  {
    if ks != [] {
      MarkedSeen(ks[1..], a[1..], b[1..], v);
    }
  }

  /** `shell_at(idx, board)`: a seen shell is read off the gun; otherwise
      the live and blank counts of the gun decide, first as they are and
      then less the seen shells of each kind.  A position past the list
      raises IndexError. */
  function ShellAtSpec(ks: seq<bool>, idx: nat, shells: seq<bool>): (r: Result<Option<bool>>)
    requires |ks| == |shells|
    ensures r.Ok? <==> idx < |ks|
  {
    if idx >= |ks| then Err(IndexError)
    else if ks[idx] then Ok(Some(shells[idx]))
    else
      var live := CountTrue(shells);
      var blank := |shells| - live;
      if live == 0 then Ok(Some(false))
      else if blank == 0 then Ok(Some(true))
      else
        var l := live - Marked(ks, shells, true);
        var b := blank - Marked(ks, shells, false);
        if l == 0 then Ok(Some(false)) else if b == 0 then Ok(Some(true)) else Ok(None)
  }

  /** The dealer's answer about a shell is right whenever it gives one. */
  lemma ShellAtSound(ks: seq<bool>, idx: nat, shells: seq<bool>)
    requires |ks| == |shells| && ShellAtSpec(ks, idx, shells).Ok? && ShellAtSpec(ks, idx, shells).value.Some?
    ensures ShellAtSpec(ks, idx, shells).value.value == shells[idx]
  {
    if !ks[idx] {
      MarkedSplit(ks, shells);
      var v := ShellAtSpec(ks, idx, shells).value.value;
      assert Unmarked(ks, shells, !v) == 0;
      UnmarkedNone(ks, shells, !v, idx);
    }
  }

  /** Although it reads the board's own shells, the dealer learns nothing
      from the shells it has not seen: two guns with the same length and
      live count that agree on the seen shells get the same answer. */
  lemma ShellAtSeenOnly(ks: seq<bool>, idx: nat, a: seq<bool>, b: seq<bool>)
    requires |ks| == |a| == |b| && CountTrue(a) == CountTrue(b)
    requires forall i :: 0 <= i < |ks| && ks[i] ==> a[i] == b[i]
    ensures ShellAtSpec(ks, idx, a) == ShellAtSpec(ks, idx, b)
  {
    MarkedSeen(ks, a, b, true);
    MarkedSeen(ks, a, b, false);
  }

  /** The list `choice` trims to the gun: its front entries dropped while it
      is longer, False appended while it is shorter. */
  function Fitted(ks: seq<bool>, n: nat): (r: seq<bool>)
    ensures |r| == n
    ensures |ks| >= n ==> forall j :: 0 <= j < n ==> r[j] == ks[|ks| - n + j]
    ensures |ks| <= n ==> r[..|ks|] == ks && forall j :: |ks| <= j < n ==> !r[j]
  {
    if |ks| > n then ks[|ks| - n..] else ks + Falses(n - |ks|)
  }

  /** The list before trimming: a new dealer marks only the last shell as seen. */
  function Started(known: Option<seq<bool>>, n: nat): (r: seq<bool>)
    requires known.Some? || n >= 1
    ensures known.None? ==> |r| == n && r[n - 1] && forall j :: 0 <= j < n - 1 ==> !r[j]
  {
    if known.Some? then known.value else Falses(n - 1) + [true]
  }

  /** `moves` with the opponent's held items added, each one not listed yet. */
  function ExtendWith(ms: seq<Move>, ks: seq<Kind>): (r: seq<Move>)
    ensures forall m :: m in r <==> m in ms || exists k :: k in ks && m == Use(k)
    ensures ms <= r
  {
    if ks == [] then ms
    else
      var prev := ExtendWith(ms, ks[..|ks| - 1]);
      assert ks == ks[..|ks| - 1] + [ks[|ks| - 1]];
      if Use(ks[|ks| - 1]) in prev then prev else prev + [Use(ks[|ks| - 1])]
  }

  /** Whether the rules of `choice` take move m, on a gun of n shells, with
      what `shell_at(0)` gives as front; each rule tests one item name, and
      a rule that consults `shell_at` or the records raises what they raise. */
  function Wants(m: Move, ks: seq<bool>, front: Result<Option<bool>>, n: nat, t: Table, me: int, ms: seq<Move>)
    : (r: Result<bool>)
    ensures r.Err? ==> r.error == IndexError || front == Err(r.error)
  {
    match m
    case Use(item) =>
      if item == MagnifyingGlass then (if ks == [] then Err(IndexError) else Ok(!ks[0] && n != 1))
      else if item == Cigarettes then
        (match PyIndex(me, |t.charges|) case None => Err(IndexError) case Some(i) => Ok(t.charges[i] < t.maxCharges))
      else if item == Meds then
        (match PyIndex(1 - me, |t.charges|)
         case None => Err(IndexError)
         case Some(i) => Ok(t.charges[i] < t.maxCharges && Use(Cigarettes) !in ms))
      else if item == Beer then
        (match front case Err(e) => Err(e) case Ok(f) => Ok(f != Some(true) && n != 1))
      else if item == Handcuffs then Ok(n != 1)
      else if item == Saw then (match front case Err(e) => Err(e) case Ok(f) => Ok(f == Some(true)))
      else if item == BurnerPhone then Ok(n > 2)
      else if item == Inverter then (match front case Err(e) => Err(e) case Ok(f) => Ok(f == Some(false)))
      else Ok(false)
    case _ => Ok(false)
  }

  /** The scan of the moves from position i: the first one the rules take,
      none, or the error a rule raised first. */
  function FirstFrom(ms: seq<Move>, i: nat, ks: seq<bool>, front: Result<Option<bool>>, n: nat, t: Table, me: int)
    : (r: Result<Option<nat>>)
    requires i <= |ms|
    ensures r.Ok? && r.value.Some? ==>
              i <= r.value.value < |ms| && Wants(ms[r.value.value], ks, front, n, t, me, ms) == Ok(true)
              && forall j :: i <= j < r.value.value ==> Wants(ms[j], ks, front, n, t, me, ms) == Ok(false)
    ensures r == Ok(None) ==> forall j :: i <= j < |ms| ==> Wants(ms[j], ks, front, n, t, me, ms) == Ok(false)
    ensures r.Err? ==> r.error == IndexError || front == Err(r.error)
    decreases |ms| - i
  {
    if i == |ms| then Ok(None)
    else match Wants(ms[i], ks, front, n, t, me, ms)
      case Err(e) => Err(e)
      case Ok(w) => if w then Ok(Some(i)) else FirstFrom(ms, i + 1, ks, front, n, t, me)
  }

  /** The shot `choice` takes when no rule fires: at the last shell, or with
      the front shell deduced, the opponent if the gun's front shell is
      live and itself otherwise; else a coin decides. */
  function Fallback(front: Result<Option<bool>>, shells: seq<bool>, heads: bool): (r: Result<Move>)
    requires front.Ok? ==> |shells| >= 1
    ensures r.Ok? ==> r.value == ShootOpponent || r.value == ShootSelf
  {
    if |shells| == 1 then Ok(if shells[0] then ShootOpponent else ShootSelf)
    else match front
      case Err(e) => Err(e)
      case Ok(f) =>
        if f.Some? then Ok(if shells[0] then ShootOpponent else ShootSelf)
        else Ok(if heads then ShootOpponent else ShootSelf)
  }

  /** The move played once a rule took m: m itself if the board listed it,
      else adrenaline (to take m from the opponent) if that was listed. */
  function Settle(m: Move, own: seq<Move>): (r: Result<Move>)
    ensures r.Ok? <==> m in own || Use(Adrenaline) in own
    ensures r.Ok? ==> r.value in own
  {
    if m in own then Ok(m) else if Use(Adrenaline) in own then Ok(Use(Adrenaline)) else Err(RuntimeError)
  }

  /** The moves the rules scan: when adrenaline is listed, the opponent's
      held items are added to the listed moves (a seat outside the records
      raises IndexError). */
  function Scanned(own: seq<Move>, t: Table, me: int): (r: Result<seq<Move>>)
    requires TableOk(NineKinds, t)
    ensures r.Ok? ==> own <= r.value && forall m :: m in r.value && m !in own ==> Use(Adrenaline) in own
  {
    if Use(Adrenaline) in own then
      match PyIndex(1 - me, |t.items|)
      case None => Err(IndexError)
      case Some(j) => Ok(ExtendWith(own, Held(t.items[j], NineKinds)))
    else Ok(own)
  }

  /** The rules over the scanned moves ms, then the fallback shot. */
  function Decide(ms: seq<Move>, own: seq<Move>, ks: seq<bool>, shells: seq<bool>, t: Table, me: int, heads: bool)
    : (r: Result<Move>)
    requires |ks| == |shells|
    ensures r.Ok? ==> r.value in own || r.value == ShootOpponent || r.value == ShootSelf
  {
    var front := ShellAtSpec(ks, 0, shells);
    match FirstFrom(ms, 0, ks, front, |shells|, t, me)
    case Err(e) => Err(e)
    case Ok(found) =>
      if found.Some? then Settle(ms[found.value], own) else Fallback(front, shells, heads)
  }

  /** `choice(board)`: the list of seen shells is set up and trimmed to the
      gun, the board lists its moves (which may clear adrenaline), the
      opponent's items are added when adrenaline is listed, and the first
      move the rules take is played; with none, the fallback shot. */
  function ChoiceSpec(known: Option<seq<bool>>, me: int, b: Game.Board, heads: bool)
    : (r: (Result<Move>, Option<seq<bool>>, Game.Board))
    requires Game.BoardOk(b)
    ensures known.None? && |b.shotgun| == 0 ==> r == (Err(IndexError), Some([]), b)
    ensures known.Some? || |b.shotgun| >= 1 ==>
              r.1 == Some(Fitted(Started(known, |b.shotgun|), |b.shotgun|)) && r.2 == Game.Board(Moves(b.table).1, b.shotgun)
  {
    var n := |b.shotgun|;
    if known.None? && n == 0 then (Err(IndexError), Some([]), b)
    else
      var ks := Fitted(Started(known, n), n);
      var (own, t) := Moves(b.table);
      var b1 := Game.Board(t, b.shotgun);
      match Scanned(own, t, me)
      case Err(e) => (Err(e), Some(ks), b1)
      case Ok(ms) => (Decide(ms, own, ks, b.shotgun, t, me, heads), Some(ks), b1)
  }

  /** The RuntimeError `choice` guards against cannot happen: a move the
      rules take that the board did not list was added because adrenaline
      was listed, and then adrenaline is played.  An item played is always
      one the board listed. */
  lemma ChoiceSettles(known: Option<seq<bool>>, me: int, b: Game.Board, heads: bool)
    requires Game.BoardOk(b)
    ensures ChoiceSpec(known, me, b, heads).0 != Err(RuntimeError)
    ensures var r := ChoiceSpec(known, me, b, heads).0;
            r.Ok? && r.value.Use? ==> r.value in Moves(b.table).0
  {
    var n := |b.shotgun|;
    if !(known.None? && n == 0) {
      var ks := Fitted(Started(known, n), n);
      var (own, t) := Moves(b.table);
      var scanned := Scanned(own, t, me);
      if scanned.Ok? {
        var ms := scanned.value;
        var front := ShellAtSpec(ks, 0, b.shotgun);
        var found := FirstFrom(ms, 0, ks, front, n, t, me);
        if found.Ok? && found.value.Some? {
          assert ms[found.value.value] in ms;
        }
      }
    }
  }

  /** When no rule fires, the shot follows what the dealer deduced: it
      reads the gun's front shell only when it could have told it anyway. */
  lemma FallbackDeduced(ks: seq<bool>, shells: seq<bool>, heads: bool)
    requires |ks| == |shells| >= 1
    requires |shells| == 1 || ShellAtSpec(ks, 0, shells) != Ok(None)
    ensures ShellAtSpec(ks, 0, shells).value.Some?
    ensures Fallback(ShellAtSpec(ks, 0, shells), shells, heads)
            == Ok(if ShellAtSpec(ks, 0, shells).value.value then ShootOpponent else ShootSelf)
  {
    if |shells| == 1 && !ks[0] {
      assert shells[1..] == [];
      MarkedSplit(ks, shells);
    }
    ShellAtSound(ks, 0, shells);
  }

  // ---------------------------------------------------------------- after a move

  /** `post(last_move, move_result)`: the glass marks the front shell, the
      phone the position it reported.  The `case 'op', 'self'` arm is a
      sequence pattern, which never matches a move string, so a shot leaves
      the list as it is.  A list not set up yet raises TypeError, and so
      does a phone result that is not a position. */
  function PostSpec(known: Option<seq<bool>>, move: Move, result: Info): (r: Result<Option<seq<bool>>>)
    ensures r.Ok? && known.Some? ==> r.value.Some? && |r.value.value| == |known.value|
  {
    if move == Use(MagnifyingGlass) then
      (match known
       case None => Err(TypeError)
       case Some(ks) => if ks == [] then Err(IndexError) else Ok(Some(ks[0 := true])))
    else if move == Use(BurnerPhone) then
      (match result
       case Peek(i, _) =>
         (match known
          case None => Err(TypeError)
          case Some(ks) => match PyIndex(i, |ks|) case None => Err(IndexError) case Some(j) => Ok(Some(ks[j := true])))
       case _ => Err(TypeError))
    else Ok(known)
  }

  /** The dead shot arm costs nothing: the next `choice` trims the front
      entry of the shot shell away, just as dropping it at once would. */
  lemma ShotTrimmedLater(ks: seq<bool>, n: nat)
    requires |ks| == n + 1
    ensures PostSpec(Some(ks), ShootOpponent, Nothing) == Ok(Some(ks))
    ensures Fitted(ks, n) == Fitted(ks[1..], n)
  {
  }

  /** A seen shell is one the board showed: after `post` a position is
      marked exactly when it was marked before or the move showed it. */
  lemma PostMarksShown(ks: seq<bool>, move: Move, result: Info)
    requires PostSpec(Some(ks), move, result).Ok?
    ensures var after := PostSpec(Some(ks), move, result).value.value;
            forall j :: 0 <= j < |ks| ==>
              (after[j] <==>
                 (ks[j] || (move == Use(MagnifyingGlass) && j == 0)
                  || (move == Use(BurnerPhone) && PyIndex(result.index, |ks|) == Some(j))))
  {
  }

  /** The rule-following dealer playing in seat `me`. */
  class Dealer {
    const me: int
    var knownShells: Option<seq<bool>>

    constructor (playingAs: int)
      ensures me == playingAs && knownShells == None
    {
      me := playingAs;
      knownShells := None;
    }

    /** `shell_at(idx, board)`; the caller has trimmed the list to the gun. */
    method ShellAt(idx: nat, board: Game.BuckshotRoulette) returns (r: Result<Option<bool>>)
      requires knownShells.Some? && |knownShells.value| == |board.shotgun|
      ensures r == ShellAtSpec(knownShells.value, idx, board.shotgun)
    {
      var ks := knownShells.value;
      var shells := board.shotgun;
      if idx >= |ks| {
        return Err(IndexError);
      }
      if ks[idx] {
        return Ok(Some(shells[idx]));
      }
      var live := CountTrue(shells);
      var blank := |shells| - live;
      if live == 0 {
        return Ok(Some(false));
      } else if blank == 0 {
        return Ok(Some(true));
      }
      var i := 0;
      while i < |ks|
        invariant 0 <= i <= |ks|
        invariant live - Marked(ks[i..], shells[i..], true) == CountTrue(shells) - Marked(ks, shells, true)
        invariant blank - Marked(ks[i..], shells[i..], false) == |shells| - CountTrue(shells) - Marked(ks, shells, false)
      {
        assert ks[i..][1..] == ks[i + 1..] && shells[i..][1..] == shells[i + 1..];
        if ks[i] {
          if shells[i] {
            live := live - 1;
          } else {
            blank := blank - 1;
          }
        }
        i := i + 1;
      }
      if live == 0 {
        return Ok(Some(false));
      } else if blank == 0 {
        return Ok(Some(true));
      }
      return Ok(None);
    }

    /** The first steps of `choice`: the list is set up on first use and
        trimmed to a gun of n shells. */
    method Fit(n: nat) returns (r: Result<()>)
      modifies this
      ensures knownShells.Some?
      ensures r.Err? <==> old(knownShells).None? && n == 0
      ensures r.Err? ==> r.error == IndexError && knownShells == Some([])
      ensures r.Ok? ==> knownShells == Some(Fitted(Started(old(knownShells), n), n))
    {
      if knownShells.None? {
        var unseen := Falses(n);
        knownShells := Some(unseen);
        if n == 0 {
          return Err(IndexError);
        }
        knownShells := Some(unseen[n - 1 := true]);
        assert unseen[n - 1 := true] == Falses(n - 1) + [true];
      }
      var ks := knownShells.value;
      ghost var k0 := ks;
      while |ks| > n
        invariant |ks| <= |k0| && ks == k0[|k0| - |ks|..] && (|k0| > n ==> |ks| >= n) && (|k0| <= n ==> ks == k0)
      {
        ks := ks[1..];
      }
      ghost var k1 := ks;
      while |ks| < n
        invariant |k1| <= |ks| <= n || ks == k1
        invariant ks == k1 + Falses(|ks| - |k1|)
      {
        ks := ks + [false];
      }
      assert ks == Fitted(k0, n);
      knownShells := Some(ks);
      return Ok(());
    }

    /** `choice(board)`; `heads` is `random.random() > 0.5`. */
    method Choice(board: Game.BuckshotRoulette, heads: bool) returns (r: Result<Move>)
      requires board.Valid()
      modifies this, board
      ensures board.Valid()
      ensures (r, knownShells, board.Snap()) == ChoiceSpec(old(knownShells), me, old(board.Snap()), heads)
    {
      var fit := Fit(|board.shotgun|);
      if fit.Err? {
        return Err(fit.error);
      }
      var own := board.Moves();
      var scanned := Scan(own, board);
      if scanned.Err? {
        return Err(scanned.error);
      }
      r := Rules(scanned.value, own, board, heads);
    }

    /** The opponent's items added to the listed moves under adrenaline. */
    method Scan(own: seq<Move>, board: Game.BuckshotRoulette) returns (r: Result<seq<Move>>)
      requires board.Valid()
      ensures r == Scanned(own, board.Snap().table, me)
    {
      if Use(Adrenaline) !in own {
        return Ok(own);
      }
      var j := PyIndex(1 - me, |board.items|);
      if j.None? {
        return Err(IndexError);
      }
      var held := HeldKinds(board.items[j.value], NineKinds);
      var ms := own;
      var i := 0;
      while i < |held|
        invariant 0 <= i <= |held| && ms == ExtendWith(own, held[..i])
      {
        assert held[..i + 1][..i] == held[..i];
        if Use(held[i]) !in ms {
          ms := ms + [Use(held[i])];
        }
        i := i + 1;
      }
      assert held[..i] == held;
      return Ok(ms);
    }

    /** The loop over the scanned moves ms, then the fallback shot. */
    method Rules(ms: seq<Move>, own: seq<Move>, board: Game.BuckshotRoulette, heads: bool) returns (r: Result<Move>)
      requires board.Valid() && knownShells.Some? && |knownShells.value| == |board.shotgun|
      ensures r == Decide(ms, own, knownShells.value, board.shotgun, board.Snap().table, me, heads)
    {
      var front := ShellAt(0, board);
      var ks := knownShells.value;
      var n := |board.shotgun|;
      var t := board.Snap().table;
      var i := 0;
      while i < |ms|
        invariant 0 <= i <= |ms|
        invariant FirstFrom(ms, 0, ks, front, n, t, me) == FirstFrom(ms, i, ks, front, n, t, me)
      {
        var w := Wants(ms[i], ks, front, n, t, me, ms);
        if w.Err? {
          return Err(w.error);
        }
        if w.value {
          return Settle(ms[i], own);
        }
        i := i + 1;
      }
      return Fallback(front, board.shotgun, heads);
    }

    /** `post(last_move, move_result)`. */
    method Post(move: Move, result: Info) returns (r: Result<()>)
      modifies this
      ensures var spec := PostSpec(old(knownShells), move, result);
              (r.Ok? <==> spec.Ok?) && knownShells == (if spec.Ok? then spec.value else old(knownShells))
    {
      var spec := PostSpec(knownShells, move, result);
      if spec.Err? {
        return Err(spec.error);
      }
      knownShells := spec.value;
      return Ok(());
    }
  }

  /** `moves()` never comes back empty: an empty adrenaline list is
      followed by the normal one, which starts with the two shots. */
  lemma MovesNonEmpty(t: Table)
    requires TableOk(NineKinds, t)
    ensures |Moves(t).0| >= 1
    decreases if t.active[Adrenaline] > 0.0 then 1 else 0
  {
    if t.active[Adrenaline] > 0.0 && ItemMoves(NineKinds, t.items[Opponent(t.currentTurn)], t.active) == [] {
      MovesNonEmpty(t.(active := t.active[Adrenaline := 0.0]));
    }
  }

  /** `Random.choice(board)`: the listed move `pick` selects
      (`random.choice` of an empty list raises IndexError). */
  function RandomSpec(b: Game.Board, pick: nat): (r: (Result<Move>, Game.Board))
    requires Game.BoardOk(b)
    ensures r.1 == Game.Board(Moves(b.table).1, b.shotgun)
    ensures r.0.Ok? ==> r.0.value in Moves(b.table).0
  {
    var (ms, t) := Moves(b.table);
    (if ms == [] then Err(IndexError) else Ok(ms[pick % |ms|]), Game.Board(t, b.shotgun))
  }

  /** The random player always has a move to play. */
  lemma RandomPlays(b: Game.Board, pick: nat)
    requires Game.BoardOk(b)
    ensures RandomSpec(b, pick).0.Ok?
  {
    MovesNonEmpty(b.table);
  }

  /** The player that picks any listed move. */
  class Random {
    constructor ()
    {
    }

    /** `choice(board)`; `pick` is `random.choice`'s draw. */
    method Choice(board: Game.BuckshotRoulette, pick: nat) returns (r: Result<Move>)
      requires board.Valid()
      modifies board
      ensures board.Valid()
      ensures (r, board.Snap()) == RandomSpec(old(board.Snap()), pick)
    {
      var ms := board.Moves();
      if ms == [] {
        return Err(IndexError);
      }
      return Ok(ms[pick % |ms|]);
    }
  }
}
