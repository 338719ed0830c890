/** buckshot_roulette/multiplayer/ai.py: the players of the multiplayer
    board.  The `Dealer` keeps what it has learnt about the shells still in
    the gun (`known_shells`) and picks its move by a fixed list of rules;
    `Random` picks any listed move.  The random draws (`random.choice`,
    `random.random() > 0.5`) are parameters. */
module MultiplayerAi {
  import opened Common
  import opened Inventory
  import MG = MultiplayerGame

  /** What the dealer believes about each shell in the gun, front first:
      Some(true) live, Some(false) blank, None not known. */
  type Knowledge = seq<Option<bool>>

  /** A choice: the move string, and the adrenaline target passed to
      `make_move` (the owner of the item used, None for a shot). */
  datatype Pick = Pick(move: MG.Move, target: Option<int>)

  /** `[None] * n`. */
  function Nones(n: int): (r: Knowledge)
    ensures |r| == Max(n, 0) && forall j :: 0 <= j < |r| ==> r[j] == None
  {
    seq(Max(n, 0), _ => None)
  }

  /** How many entries of ks are known to be v. */
  function CountKnown(ks: Knowledge, v: bool): (r: nat)
    ensures r <= |ks|
  {
    if ks == [] then 0 else (if ks[0] == Some(v) then 1 else 0) + CountKnown(ks[1..], v)
  }

  // ---------------------------------------------------------------- knowledge

  /** The knowledge is right about the shells: one entry per shell, and
      every known entry says what the shell is. */
  predicate Agrees(ks: Knowledge, shells: seq<bool>) {
    |ks| == |shells| && forall i :: 0 <= i < |ks| && ks[i].Some? ==> ks[i].value == shells[i]
  }

  /** The knowledge is right about the shells once its oldest entries, those
      about shells already gone, are dropped. */
  predicate SuffixAgrees(ks: Knowledge, shells: seq<bool>) {
    |ks| >= |shells| && Agrees(ks[|ks| - |shells|..], shells)
  }

  /** Shells the knowledge leaves open that are v. */
  function Hidden(ks: Knowledge, shells: seq<bool>, v: bool): (r: nat)
    requires |ks| == |shells|
  {
    if shells == [] then 0
    else (if ks[0] == None && shells[0] == v then 1 else 0) + Hidden(ks[1..], shells[1..], v)
  }

  /** Every live shell is either known to be live or left open, and so is
      every blank one. */
  lemma {:induction false} HiddenSplit(ks: Knowledge, shells: seq<bool>)
    requires Agrees(ks, shells)
    ensures CountTrue(shells) == CountKnown(ks, true) + Hidden(ks, shells, true)
    ensures |shells| - CountTrue(shells) == CountKnown(ks, false) + Hidden(ks, shells, false)
  {
    if shells != [] {
      assert Agrees(ks[1..], shells[1..]) by {
        forall i | 0 <= i < |ks| - 1 && ks[1..][i].Some?
          ensures ks[1..][i].value == shells[1..][i]
        {
          assert ks[1..][i] == ks[i + 1];
        }
      }
      HiddenSplit(ks[1..], shells[1..]);
    }
  }

  /** With no open shell of kind v, every open shell is of the other kind. */
  lemma {:induction false} HiddenNone(ks: Knowledge, shells: seq<bool>, v: bool, i: int)
    requires |ks| == |shells| && Hidden(ks, shells, v) == 0
    requires 0 <= i < |shells| && ks[i] == None
    ensures shells[i] != v
  {
    if i > 0 {
      HiddenNone(ks[1..], shells[1..], v, i - 1);
    }
  }

  /** `shell_at(idx)` on a board with `total` shells of which `live` are
      live: what is known about that shell, else what the counts leave. */
  function ShellAtSpec(ks: Knowledge, idx: nat, total: int, live: int): Option<bool>
  {
    if idx < |ks| && ks[idx].Some? then ks[idx]
    else
      var l := live - CountKnown(ks, true);
      var b := total - live - CountKnown(ks, false);
      if l == 0 then Some(false) else if b == 0 then Some(true) else None
  }

  /** The dealer's deductions are right: when its knowledge agrees with the
      shells and the board's counts are those of the shells, a known answer
      is the shell there, and an open answer means both a live and a blank
      shell are still unaccounted for. */
  lemma ShellAtSound(ks: Knowledge, shells: seq<bool>, idx: nat)
    requires Agrees(ks, shells) && idx < |shells|
    ensures ShellAtSpec(ks, idx, |shells|, CountTrue(shells)).Some? ==>
              ShellAtSpec(ks, idx, |shells|, CountTrue(shells)).value == shells[idx]
    ensures ShellAtSpec(ks, idx, |shells|, CountTrue(shells)) == None ==>
              Hidden(ks, shells, true) > 0 && Hidden(ks, shells, false) > 0
  {
    HiddenSplit(ks, shells);
    if ks[idx] == None {
      if Hidden(ks, shells, true) == 0 {
        HiddenNone(ks, shells, true, idx);
      } else if Hidden(ks, shells, false) == 0 {
        HiddenNone(ks, shells, false, idx);
      }
    }
  }

  /** Python's `ks[-t:]`. */
  function TailSlice(ks: Knowledge, t: int): (r: Knowledge)
    ensures t > 0 ==> |r| == Min(t, |ks|) && forall j :: 0 <= j < |r| ==> r[j] == ks[|ks| - |r| + j]
  {
    if t == 0 then ks
    else if t > 0 then (if t <= |ks| then ks[|ks| - t..] else ks)
    else if -t <= |ks| then ks[-t..] else []
  }

  /** The first steps of `choice`: an empty list becomes one unknown entry
      per shell (the only shell of a one-shell load known from the live
      count), a longer one keeps its last `total` entries, a shorter one is
      padded with unknown entries. */
  function Normalised(ks: Knowledge, total: int, live: int): (r: Knowledge)
    ensures total >= 1 ==> |r| == total
    ensures total == 0 ==> r == ks
    ensures ks == [] && total == 1 ==> r == [Some(live > 0)]
    ensures ks == [] && total != 1 ==> forall j :: 0 <= j < |r| ==> r[j] == None
    ensures ks != [] && 1 <= total <= |ks| ==> forall j :: 0 <= j < total ==> r[j] == ks[|ks| - total + j]
    ensures ks != [] && |ks| <= total ==> r[..|ks|] == ks && forall j :: |ks| <= j < |r| ==> r[j] == None
  {
    var k0 := if ks == [] then (if total == 1 then [Some(live > 0)] else Nones(total)) else ks;
    if |k0| > total then TailSlice(k0, total)
    else if |k0| < total then k0 + Nones(total - |k0|)
    else k0
  }

  /** Knowledge that was right about the shells before some left the gun is
      right about the remaining ones once `choice` has trimmed it; so is the
      fresh knowledge of an empty list. */
  lemma NormalisedSound(ks: Knowledge, shells: seq<bool>)
    requires |shells| >= 1 && (ks == [] || SuffixAgrees(ks, shells))
    ensures Agrees(Normalised(ks, |shells|, CountTrue(shells)), shells)
  {
    var r := Normalised(ks, |shells|, CountTrue(shells));
    if ks == [] && |shells| == 1 {
      assert shells == [shells[0]];
      assert CountTrue(shells) == if shells[0] then 1 else 0 by {
        assert shells[1..] == [];
      }
    } else if ks != [] {
      forall i | 0 <= i < |r| && r[i].Some?
        ensures r[i].value == shells[i]
      {
        assert r[i] == ks[|ks| - |shells|..][i];
      }
    }
  }

  // ---------------------------------------------------------------- choice

  /** Whether the rules of `choice` take the listed entry e, given what the
      dealer believes of the front shell: each rule tests one move string.
      A cigarettes check with a seat outside the records raises IndexError,
      a jammer move names a status by its number (ValueError past 6), and a
      bare `jammer` has no number to split off (IndexError). */
  function Wants(e: MG.Entry, front: Option<bool>, c: MG.Config, s: MG.State, me: int): Result<bool>
  {
    match e.move
    case Shoot(_) => Ok(false)
    case Jam(k) =>
      if s.total <= 1 then Ok(false)
      else (match MG.StatusOf(k) case None => Err(ValueError) case Some(st) => Ok(st !in s.statuses))
    case Use(item) =>
      if item == MagnifyingGlass then Ok(front != Some(true) && s.total != 1)
      else if item == Cigarettes then
        (match PyIndex(me, |s.charges|)
         case None => Err(IndexError)
         case Some(i) => Ok(s.charges[i] < c.startCharges))
      else if item == Jammer then (if s.total > 1 then Err(IndexError) else Ok(false))
      else if item == Remote then Ok(true)
      else if item == Saw then Ok(front == Some(true))
      else if item == BurnerPhone then Ok(s.total > 2)
      else if item == Beer then Ok(front != Some(true) && s.total != 1)
      else if item == Inverter then Ok(front == Some(false))
      else Ok(false)
  }

  /** The scan of the listed moves from position i: the first one the rules
      take, none, or the error a rule raised first. */
  function FirstFrom(ms: seq<MG.Entry>, i: nat, front: Option<bool>, c: MG.Config, s: MG.State, me: int)
    : (r: Result<Option<nat>>)
    requires i <= |ms|
    ensures r.Ok? && r.value.Some? ==>
              i <= r.value.value < |ms| && Wants(ms[r.value.value], front, c, s, me) == Ok(true)
              && forall j :: i <= j < r.value.value ==> Wants(ms[j], front, c, s, me) == Ok(false)
    ensures r == Ok(None) ==> forall j :: i <= j < |ms| ==> Wants(ms[j], front, c, s, me) == Ok(false)
    ensures r.Err? ==>
              exists j :: (i <= j < |ms| && Wants(ms[j], front, c, s, me) == Err(r.error)
                && forall j' :: i <= j' < j ==> Wants(ms[j'], front, c, s, me) == Ok(false))
    decreases |ms| - i
  {
    if i == |ms| then Ok(None)
    else match Wants(ms[i], front, c, s, me)
      case Err(e) => Err(e)
      case Ok(w) => if w then Ok(Some(i)) else FirstFrom(ms, i + 1, front, c, s, me)
  }

  /** `[i for i in range(n) if i != me and charges[i] > 0]` over the first
      n seats. */
  function Opponents(charges: seq<int>, me: int, n: nat): (r: seq<nat>)
    requires n <= |charges|
    ensures forall i :: i in r <==> 0 <= i < n && i != me && charges[i] > 0
  {
    if n == 0 then []
    else Opponents(charges, me, n - 1) + (if n - 1 != me && charges[n - 1] > 0 then [n - 1] else [])
  }

  /** `select_opponent_to_shoot`: a living seat other than the dealer's,
      picked by `pick`, or the dealer's own seat when there is none. */
  function SelectOpponent(charges: seq<int>, me: int, pick: nat): (r: int)
    ensures r == me || (0 <= r < |charges| && r != me && charges[r] > 0)
  {
    var opps := Opponents(charges, me, |charges|);
    if opps == [] then me else (assert opps[pick % |opps|] in opps; opps[pick % |opps|])
  }

  /** The shot `choice` takes when no rule fires: at the last shell or with
      the front shell known, a live one goes at a picked opponent and a
      blank one at the dealer; otherwise a coin decides between the two.
      The picked seat number is written into the move as it is, although a
      shot names an offset from the player to move. */
  function Fallback(front: Option<bool>, total: int, me: int, charges: seq<int>, pick: nat, heads: bool)
    : (r: Pick)
    ensures r.target == None && r.move.Shoot?
    ensures total == 1 || front.Some? ==> (r.move.offset == 0 <==> front != Some(true) || SelectOpponent(charges, me, pick) == 0)
  {
    var t := SelectOpponent(charges, me, pick);
    if total == 1 || front.Some? then
      (if front == Some(true) then Pick(MG.Shoot(t), None) else Pick(MG.Shoot(0), None))
    else if heads then Pick(MG.Shoot(t), None) else Pick(MG.Shoot(0), None)
  }

  /** The fallback as evidently intended: the picked seat is turned into
      its offset from the player to move before it is written into the move. */
  function FallbackIntended(c: MG.Config, s: MG.State, front: Option<bool>, me: int, pick: nat, heads: bool)
    : (r: Pick)
    requires MG.Inv(c, s)
    ensures r.target == None && r.move.Shoot?
  {
    var t := MG.IdxToOffset(c, s, SelectOpponent(s.charges, me, pick));
    if s.total == 1 || front.Some? then
      (if front == Some(true) then Pick(MG.Shoot(t), None) else Pick(MG.Shoot(0), None))
    else if heads then Pick(MG.Shoot(t), None) else Pick(MG.Shoot(0), None)
  }

  /** As written, a dealer in seat 1 of three that knows the front shell is
      live shoots `shoot_0`, which is itself. */
  lemma FallbackShootsSelf(c: MG.Config, s: MG.State)
    requires MG.Inv(c, s) && c.playerCount == 3 && s.currentTurn == 1 && s.charges == [3, 3, 3]
    ensures Fallback(Some(true), s.total, 1, s.charges, 0, true) == Pick(MG.Shoot(0), None)
    ensures MG.OffsetToIdx(c, s, 0) == 1
  {
    assert Opponents(s.charges, 1, 3) == [0, 2] by {
      assert Opponents(s.charges, 1, 1) == [0];
      assert Opponents(s.charges, 1, 2) == [0];
    }
  }

  /** Corrected, a dealer on its own turn that knows the front shell is
      live shoots a living opponent whenever one is left. */
  lemma IntendedShootsOpponent(c: MG.Config, s: MG.State, me: int, pick: nat, heads: bool)
    requires MG.Inv(c, s) && me == s.currentTurn && Opponents(s.charges, me, |s.charges|) != []
    ensures FallbackIntended(c, s, Some(true), me, pick, heads).move.Shoot?
    ensures var t := MG.OffsetToIdx(c, s, FallbackIntended(c, s, Some(true), me, pick, heads).move.offset);
            t != me && s.charges[t] > 0
  {
    var seat := SelectOpponent(s.charges, me, pick);
    assert seat in Opponents(s.charges, me, |s.charges|);
    MG.IdxRoundTrip(c, s, seat);
    ModUnique(seat, c.playerCount, 0, seat);
  }

  /** `choice(game)`: the knowledge is trimmed to the load, the board lists
      its moves (which may clear adrenaline, or raise), and the first move
      the rules take is played with its owner as target; with none, the
      fallback shot. */
  function ChoiceSpec(ks: Knowledge, me: int, c: MG.Config, s: MG.State, pick: nat, heads: bool)
    : (r: (Result<Pick>, Knowledge, MG.State))
    requires MG.Inv(c, s)
    ensures r.1 == Normalised(ks, s.total, s.live) && r.2 == MG.MovesSpec(c, s).1
  {
    var k := Normalised(ks, s.total, s.live);
    var (listed, s1) := MG.MovesSpec(c, s);
    match listed
    case Err(e) => (Err(e), k, s1)
    case Ok(ms) =>
      var front := ShellAtSpec(k, 0, s1.total, s1.live);
      match FirstFrom(ms, 0, front, c, s1, me)
      case Err(e) => (Err(e), k, s1)
      case Ok(found) =>
        if found.Some? then (Ok(Pick(ms[found.value].move, Some(ms[found.value].owner))), k, s1)
        else (Ok(Fallback(front, s1.total, me, s1.charges, pick, heads)), k, s1)
  }

  /** A move `choice` plays with a target is a listed entry the rules take,
      and every entry listed before it is one they pass over; a shot is
      played only when the rules take none of them. */
  lemma ChoiceFirstRule(ks: Knowledge, me: int, c: MG.Config, s: MG.State, pick: nat, heads: bool,
                        ms: seq<MG.Entry>, s1: MG.State)
    requires MG.Inv(c, s) && MG.MovesSpec(c, s) == (Ok(ms), s1)
    requires ChoiceSpec(ks, me, c, s, pick, heads).0.Ok?
    ensures var front := ShellAtSpec(Normalised(ks, s.total, s.live), 0, s1.total, s1.live);
            var p := ChoiceSpec(ks, me, c, s, pick, heads).0.value;
            (p.target.Some? ==>
               (exists j :: 0 <= j < |ms| && ms[j] == MG.Entry(p.target.value, p.move)
                 && Wants(ms[j], front, c, s1, me) == Ok(true)
                 && forall i :: 0 <= i < j ==> Wants(ms[i], front, c, s1, me) == Ok(false))) &&
            (p.target.None? ==>
               p.move.Shoot? && forall i :: 0 <= i < |ms| ==> Wants(ms[i], front, c, s1, me) == Ok(false))
  {
    var front := ShellAtSpec(Normalised(ks, s.total, s.live), 0, s1.total, s1.live);
    var found := FirstFrom(ms, 0, front, c, s1, me);
    if found.value.Some? {
      var j := found.value.value;
      assert ms[j] == MG.Entry(ms[j].owner, ms[j].move);
    }
  }

  // ---------------------------------------------------------------- after a move

  /** `on_own_move(last_move, result)`: a shot drops the front entry; the
      magnifying glass records the shell it showed; the burner phone records
      the shell it named (at a Python list index); the inverter flips a
      known front shell.  An empty list has no front entry (IndexError), and
      a burner-phone result that is not a position raises TypeError. */
  function OwnMoveSpec(ks: Knowledge, move: MG.Move, result: Info): (r: Result<Knowledge>)
    ensures r.Err? ==> ks == [] || (move == MG.Use(BurnerPhone) && result != Nothing)
  {
    match move
    case Shoot(_) => Ok(if |ks| > 0 then ks[1..] else [])
    case Jam(_) => Ok(ks)
    case Use(item) =>
      if item == MagnifyingGlass then
        (if ks == [] then Err(IndexError) else Ok(ks[0 := AsKnown(result)]))
      else if item == BurnerPhone && result != Nothing then
        (match result
         case Peek(i, live) =>
           (match PyIndex(i, |ks|) case None => Err(IndexError) case Some(j) => Ok(ks[j := Some(live)]))
         case _ => Err(TypeError))
      else if item == Inverter then
        (if ks == [] then Err(IndexError)
         else if ks[0].Some? then Ok(ks[0 := Some(!ks[0].value)])
         else Ok(ks))
      else Ok(ks)
  }

  /** What a magnifying-glass result says about the front shell. */
  function AsKnown(result: Info): Option<bool>
  {
    match result
    case Shell(live) => Some(live)
    case _ => None
  }

  /** The shells left after the dealer's own move, as the multiplayer board
      plays it: a shot or a beer takes the front shell out (a beer empties a
      one-shell gun), the inverter flips it, anything else leaves them. */
  function ShellsAfter(shells: seq<bool>, move: MG.Move): (r: seq<bool>)
    requires |shells| >= 1
    ensures |r| <= |shells|
  {
    match move
    case Shoot(_) => shells[1..]
    case Jam(_) => shells
    case Use(item) =>
      if item == Beer then (if |shells| > 1 then shells[1..] else [])
      else if item == Inverter then shells[0 := !shells[0]]
      else shells
  }

  /** The result the board reports to the mover: the front shell for the
      glass, a position from 2 on and its shell for the phone (or none with
      three shells or fewer). */
  predicate TruthfulResult(shells: seq<bool>, move: MG.Move, result: Info)
    requires |shells| >= 1
  {
    (move == MG.Use(MagnifyingGlass) ==> result == Shell(shells[0])) &&
    (move == MG.Use(BurnerPhone) ==>
       result == Nothing || (result.Peek? && 2 <= result.index < |shells| && result.isLive == shells[result.index]))
  }

  /** Knowledge right about the shells is right, once trimmed, about any
      back part of them. */
  lemma SuffixSound(ks: Knowledge, shells: seq<bool>, n: nat)
    requires Agrees(ks, shells) && n <= |shells|
    ensures SuffixAgrees(ks, shells[n..])
  {
    var after := shells[n..];
    forall i | 0 <= i < |after| && ks[|ks| - |after|..][i].Some?
      ensures ks[|ks| - |after|..][i].value == after[i]
    {
      assert ks[|ks| - |after|..][i] == ks[n + i];
    }
  }

  /** Knowledge right about the shells is right about them untrimmed. */
  lemma WholeSound(ks: Knowledge, shells: seq<bool>)
    requires Agrees(ks, shells)
    ensures SuffixAgrees(ks, shells)
  {
    assert ks[|ks| - |shells|..] == ks;
  }

  /** The dealer's own moves keep its knowledge right: knowledge that agrees
      with the shells when it moves agrees, once trimmed, with those left. */
  lemma OwnMoveSound(ks: Knowledge, shells: seq<bool>, move: MG.Move, result: Info)
    requires |shells| >= 1 && Agrees(ks, shells) && TruthfulResult(shells, move, result)
    ensures OwnMoveSpec(ks, move, result).Ok?
    ensures SuffixAgrees(OwnMoveSpec(ks, move, result).value, ShellsAfter(shells, move))
  {
    if move.Shoot? {
      assert OwnMoveSpec(ks, move, result) == Ok(ks[1..]);
      SuffixSound(ks, shells, 1);
    } else if move == MG.Use(Beer) {
      assert OwnMoveSpec(ks, move, result) == Ok(ks);
      SuffixSound(ks, shells, |shells| - |ShellsAfter(shells, move)|);
    } else if move == MG.Use(MagnifyingGlass) {
      assert OwnMoveSpec(ks, move, result) == Ok(ks[0 := Some(shells[0])]);
      LearnSound(ks, shells, 0);
    } else if move == MG.Use(BurnerPhone) && result != Nothing {
      assert OwnMoveSpec(ks, move, result) == Ok(ks[result.index := Some(shells[result.index])]);
      LearnSound(ks, shells, result.index);
    } else if move == MG.Use(Inverter) {
      InvertSound(ks, shells);
    } else {
      assert OwnMoveSpec(ks, move, result) == Ok(ks) && ShellsAfter(shells, move) == shells;
      WholeSound(ks, shells);
    }
  }

  /** Recording the shell at position i keeps the knowledge right. */
  lemma LearnSound(ks: Knowledge, shells: seq<bool>, i: nat)
    requires Agrees(ks, shells) && i < |shells|
    ensures SuffixAgrees(ks[i := Some(shells[i])], shells)
  {
    assert Agrees(ks[i := Some(shells[i])], shells);
    WholeSound(ks[i := Some(shells[i])], shells);
  }

  /** The inverter flips the front shell and the dealer's knowledge of it. */
  lemma InvertSound(ks: Knowledge, shells: seq<bool>)
    requires |shells| >= 1 && Agrees(ks, shells)
    ensures OwnMoveSpec(ks, MG.Use(Inverter), Nothing).Ok?
    ensures SuffixAgrees(OwnMoveSpec(ks, MG.Use(Inverter), Nothing).value, shells[0 := !shells[0]])
  {
    var k := OwnMoveSpec(ks, MG.Use(Inverter), Nothing).value;
    assert Agrees(k, shells[0 := !shells[0]]);
    WholeSound(k, shells[0 := !shells[0]]);
  }

  /** `on_opponent_move(move, result)`: a shot or a beer drops the front entry. */
  function OpponentMoveSpec(ks: Knowledge, move: MG.Move): (r: Knowledge)
    ensures |r| == if ks != [] && (move.Shoot? || move == MG.Use(Beer)) then |ks| - 1 else |ks|
  {
    if move.Shoot? || move == MG.Use(Beer) then (if ks == [] then [] else ks[1..]) else ks
  }

  /** Another player's move keeps the dealer's knowledge right, except the
      inverter, which flips the front shell without the dealer following. */
  lemma OpponentMoveSound(ks: Knowledge, shells: seq<bool>, move: MG.Move)
    requires |shells| >= 1 && Agrees(ks, shells) && move != MG.Use(Inverter)
    ensures SuffixAgrees(OpponentMoveSpec(ks, move), ShellsAfter(shells, move))
  {
    var after := ShellsAfter(shells, move);
    var k := OpponentMoveSpec(ks, move);
    if move.Shoot? || move == MG.Use(Beer) {
      assert k == ks[1..];
      SuffixSound(ks[1..], shells[1..], |shells| - 1 - |after|);
      assert after == shells[1..][|shells| - 1 - |after|..];
    } else {
      assert k == ks && after == shells;
      WholeSound(k, after);
    }
  }

  /** After an opponent's inverter, a dealer that knew the front shell was
      live still believes it, while the shell is now blank. */
  lemma OpponentInverterMisleads()
    ensures var ks := OpponentMoveSpec([Some(true)], MG.Use(Inverter));
            var after := ShellsAfter([true], MG.Use(Inverter));
            ks == [Some(true)] && after == [false] && !Agrees(ks, after)
  {
    assert !Agrees([Some(true)], [false]) by {
      assert [Some(true)][0].Some?;
    }
  }

  /** A new load is not known at all, which is right about any shells. */
  lemma ReloadSound(shells: seq<bool>)
    ensures Agrees(Nones(|shells|), shells)
  {
  }

  // ---------------------------------------------------------------- players

  /** The rule-following dealer playing in seat `me`. */
  class Dealer {
    const me: int
    var knownShells: Knowledge
    var lastShell: Option<bool>

    constructor (playingAs: int)
      ensures me == playingAs && knownShells == [] && lastShell == None
    {
      me := playingAs;
      knownShells := [];
      lastShell := None;
    }

    /** `shell_at(idx, board)`: the counts are reduced by each known entry
        in turn. */
    method ShellAt(idx: nat, game: MG.BuckshotRoulette) returns (r: Option<bool>)
      ensures r == ShellAtSpec(knownShells, idx, game.total, game.live)
    {
      if idx < |knownShells| && knownShells[idx].Some? {
        return knownShells[idx];
      }
      var live := game.live;
      var blank := game.total - game.live;
      var i := 0;
      while i < |knownShells|
        invariant 0 <= i <= |knownShells|
        invariant live - CountKnown(knownShells[i..], true) == game.live - CountKnown(knownShells, true)
        invariant blank - CountKnown(knownShells[i..], false) == game.total - game.live - CountKnown(knownShells, false)
      {
        assert knownShells[i..][1..] == knownShells[i + 1..];
        if knownShells[i].Some? {
          if knownShells[i].value {
            live := live - 1;
          } else {
            blank := blank - 1;
          }
        }
        i := i + 1;
      }
      if live == 0 {
        return Some(false);
      } else if blank == 0 {
        return Some(true);
      }
      return None;
    }

    /** The first steps of `choice`, on the board's shell counts. */
    method Trim(total: int, live: int)
      modifies this
      ensures knownShells == Normalised(old(knownShells), total, live) && lastShell == old(lastShell)
    {
      if knownShells == [] {
        knownShells := Nones(total);
        if total == 1 {
          knownShells := knownShells[0 := Some(live > 0)];
        }
      }
      if |knownShells| > total {
        knownShells := TailSlice(knownShells, total);
      } else if |knownShells| < total {
        knownShells := knownShells + Nones(total - |knownShells|);
      }
    }

    /** `choice(game)`; `pick` is `random.choice`'s draw among the
        opponents and `heads` is `random.random() > 0.5`. */
    method Choice(game: MG.BuckshotRoulette, pick: nat, heads: bool) returns (r: Result<Pick>)
      requires game.Valid()
      modifies this, game
      ensures game.Valid() && lastShell == old(lastShell)
      ensures (r, knownShells, game.Snap()) == ChoiceSpec(old(knownShells), me, game.config, old(game.Snap()), pick, heads)
    {
      Trim(game.total, game.live);
      var listed := game.Moves();
      if listed.Err? {
        return Err(listed.error);
      }
      var ms := listed.value;
      var front := ShellAt(0, game);
      var i := 0;
      while i < |ms|
        invariant 0 <= i <= |ms|
        invariant FirstFrom(ms, 0, front, game.config, game.Snap(), me) == FirstFrom(ms, i, front, game.config, game.Snap(), me)
      {
        var w := Wants(ms[i], front, game.config, game.Snap(), me);
        if w.Err? {
          return Err(w.error);
        }
        if w.value {
          return Ok(Pick(ms[i].move, Some(ms[i].owner)));
        }
        i := i + 1;
      }
      return Ok(Fallback(front, game.total, me, game.charges, pick, heads));
    }

    /** `on_own_move(last_move, result)`. */
    method OnOwnMove(move: MG.Move, result: Info) returns (r: Result<()>)
      modifies this
      ensures lastShell == old(lastShell)
      ensures var spec := OwnMoveSpec(old(knownShells), move, result);
              (r.Ok? <==> spec.Ok?) && knownShells == (if spec.Ok? then spec.value else old(knownShells))
    {
      var spec := OwnMoveSpec(knownShells, move, result);
      if spec.Err? {
        return Err(spec.error);
      }
      knownShells := spec.value;
      return Ok(());
    }

    /** `on_opponent_move(move, result)`. */
    method OnOpponentMove(move: MG.Move)
      modifies this
      ensures knownShells == OpponentMoveSpec(old(knownShells), move) && lastShell == old(lastShell)
    {
      if move.Shoot? || move == MG.Use(Beer) {
        knownShells := if knownShells == [] then [] else knownShells[1..];
      }
    }

    /** `on_reload(game)`: nothing is known about the new load. */
    method OnReload(game: MG.BuckshotRoulette)
      modifies this
      ensures knownShells == Nones(game.total) && lastShell == None
    {
      lastShell := None;
      knownShells := Nones(game.total);
    }
  }

  /** `Random.choice(board)`: the listed entry `pick` selects, with its
      owner as target unless that is the player's own seat. */
  function RandomSpec(me: int, c: MG.Config, s: MG.State, pick: nat): (r: (Result<Pick>, MG.State))
    requires MG.Inv(c, s)
    ensures r.1 == MG.MovesSpec(c, s).1
    ensures r.0.Ok? ==>
              MG.MovesSpec(c, s).0.Ok? &&
              exists e :: (e in MG.MovesSpec(c, s).0.value && e.move == r.0.value.move
                && r.0.value.target == (if e.owner == me then None else Some(e.owner)))
    ensures r.0.Err? <==> MG.MovesSpec(c, s).0.Err?
  {
    var (listed, s1) := MG.MovesSpec(c, s);
    match listed
    case Err(e) => (Err(e), s1)
    case Ok(ms) =>
      var e := ms[pick % |ms|];
      (Ok(Pick(e.move, if e.owner == me then None else Some(e.owner))), s1)
  }

  /** The player that picks any listed move. */
  class Random {
    const me: int

    constructor (playingAs: int)
      ensures me == playingAs
    {
      me := playingAs;
    }

    /** `choice(board)`; `pick` is `random.choice`'s draw. */
    method Choice(game: MG.BuckshotRoulette, pick: nat) returns (r: Result<Pick>)
      requires game.Valid()
      modifies game
      ensures game.Valid()
      ensures (r, game.Snap()) == RandomSpec(me, game.config, old(game.Snap()), pick)
    {
      var listed := game.Moves();
      if listed.Err? {
        return Err(listed.error);
      }
      var e := listed.value[pick % |listed.value|];
      return Ok(Pick(e.move, if e.owner == me then None else Some(e.owner)));
    }
  }
}
