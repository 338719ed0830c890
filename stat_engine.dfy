/** stat_engine.py: two engines that play the board of cli_game.py.

    `StatEngine` scores bundles of items by the expected damage of the next
    shot (`expected_value`) less a penalty for spending scarce items, and
    plays the first item of the best bundle; a list of shortcuts decides
    first.  `DealerEngine` follows a first-match list of item rules, like the
    dealer of the other boards.  The record of the mover's items is a
    parameter `inv` of both `best_move`s: the attributes they read it from
    are not attributes of the board. */
module StatEngine {
  import opened Common
  import opened Inventory
  import opened Duel
  import Game
  import Cli

  // ------------------------------------------------------------ expected_value

  /** A bundle holds only the kinds the action pool is built from. */
  predicate Bundled(a: seq<Kind>) {
    forall i :: 0 <= i < |a| ==> a[i] == Beer || a[i] == Saw || a[i] == Handcuffs || a[i] == MagnifyingGlass
  }

  /** u weighted by the chance X/N plus v weighted by (N - X)/N. */
  function Mix(u: real, v: real, x: int, n: int): real
    requires n > 0
  {
    u * x as real / n as real + v * (n - x) as real / n as real
  }

  /** `expected_value(action, X, N)`: the expected damage of the next shot
      when the items of `action` are used first, in order, with X live
      shells among N. */
  function ExpectedValue(a: seq<Kind>, x: int, n: int): (r: real)
    requires Bundled(a)
    ensures r >= 0.0
    decreases |a|
  {
    if x <= 0 || n <= 0 then 0.0
    else if a == [] then x as real / n as real
    else if a[0] == MagnifyingGlass then
      if x < n then
        var wasBlank := ExpectedValue(a[1..], x, n - 1);
        Mixture(1.0, wasBlank, x, n, 1.0 + wasBlank);
        Mix(1.0, wasBlank, x, n)
      else 1.0
    else if a[0] == Beer then
      var wasLive := ExpectedValue(a[1..], x - 1, n - 1);
      if x < n then
        var wasBlank := ExpectedValue(a[1..], x, n - 1);
        Mixture(wasLive, wasBlank, x, n, wasLive + wasBlank);
        Mix(wasLive, wasBlank, x, n)
      else wasLive
    else 2.0 * ExpectedValue(a[1..], x, n)
  }

  /** The saws and handcuffs of a bundle: each doubles the value. */
  function Doublers(a: seq<Kind>): nat {
    if a == [] then 0 else (if a[0] == Saw || a[0] == Handcuffs then 1 else 0) + Doublers(a[1..])
  }

  function Pow2(k: nat): (r: nat)
    ensures r >= 1
  {
    if k == 0 then 1 else 2 * Pow2(k - 1)
  }

  /** A mixture of two values in [0, B] with weights X/N and (N-X)/N is in [0, B]. */
  lemma Mixture(u: real, v: real, x: int, n: int, bound: real)
    requires 0 <= x <= n && 0 < n && 0.0 <= u <= bound && 0.0 <= v <= bound
    ensures 0.0 <= Mix(u, v, x, n) <= bound
  {
    var p := x as real / n as real;
    var q := (n - x) as real / n as real;
    assert 0.0 <= p && 0.0 <= q && p + q == 1.0;
    assert u * x as real / n as real == u * p;
    assert v * (n - x) as real / n as real == v * q;
    assert u * p <= bound * p;
    assert v * q <= bound * q;
    assert bound * p + bound * q == bound * (p + q);
  }

  /** With 0 <= X <= N, the expected damage is never negative, is at most 1
      without a saw or handcuffs, and each saw or handcuffs at most doubles
      the bound. */
  lemma {:induction false} ExpectedValueBounds(a: seq<Kind>, x: int, n: int)
    requires Bundled(a) && 0 <= x <= n
    ensures 0.0 <= ExpectedValue(a, x, n) <= Pow2(Doublers(a)) as real
    decreases |a|
  {
    if x <= 0 || n <= 0 {
    } else if a == [] {
      assert x as real / n as real <= 1.0;
    } else {
      var rest := a[1..];
      assert Bundled(rest);
      if a[0] == MagnifyingGlass {
        if x < n {
          ExpectedValueBounds(rest, x, n - 1);
          Mixture(1.0, ExpectedValue(rest, x, n - 1), x, n, Pow2(Doublers(rest)) as real);
        }
      } else if a[0] == Beer {
        ExpectedValueBounds(rest, x - 1, n - 1);
        if x < n {
          ExpectedValueBounds(rest, x, n - 1);
          Mixture(ExpectedValue(rest, x - 1, n - 1), ExpectedValue(rest, x, n - 1), x, n, Pow2(Doublers(rest)) as real);
        }
      } else {
        ExpectedValueBounds(rest, x, n);
        assert Doublers(a) == Doublers(rest) + 1;
      }
    }
  }

  /** A beer alone keeps the chance that the next shell is live: X/N. */
  lemma BeerKeepsOdds(x: int, n: int)
    requires 0 < x < n
    ensures ExpectedValue([Beer], x, n) == x as real / n as real
  {
    assert [Beer][1..] == [];
    var xr, nr := x as real, n as real;
    var d := nr - 1.0;
    var wasLive := ExpectedValue([], x - 1, n - 1);
    var wasBlank := ExpectedValue([], x, n - 1);
    assert wasLive * d == xr - 1.0;
    assert wasBlank * d == xr;
    var m := Mix(wasLive, wasBlank, x, n);
    assert m * nr == wasLive * xr + wasBlank * (nr - xr);
    assert m * nr * d == (wasLive * d) * xr + (wasBlank * d) * (nr - xr);
    assert m * nr * d == xr * d;
    assert m * nr == xr;
  }

  // ------------------------------------------------------------ evaluate_action

  /** The keys of `item_value`, in its order. */
  const ValueOrder: seq<Kind> := [Beer, Cigarettes, Handcuffs, MagnifyingGlass, Saw]

  /** The values of `item_value`. */
  function ItemValue(k: Kind): real {
    match k
    case Beer => 0.1
    case Handcuffs => 0.3
    case MagnifyingGlass => 0.3
    case Saw => 0.1
    case _ => 0.0
  }

  /** `tuple(items_available.values())`: the counts in the order of the record's keys. */
  function Avail(inv: Counts): (r: seq<int>)
    requires Covers(inv, Cli.FiveKinds)
    ensures |r| == 5
  {
    [inv[Handcuffs], inv[MagnifyingGlass], inv[Beer], inv[Cigarettes], inv[Saw]]
  }

  /** The penalty loop as written, from key i on: the i-th key of
      `item_value` is charged against the i-th count of the record, which
      belongs to another kind for every key but the saw. */
  function PenaltyAsWritten(action: seq<Kind>, avail: seq<int>, i: nat): (r: real)
    requires |avail| == 5 && i <= 5
    ensures r >= 0.0
    ensures action == [] ==> r == 0.0
    decreases 5 - i
  {
    if i == 5 then 0.0
    else
      var key := ValueOrder[i];
      (if avail[i] > 0 && key in action then ItemValue(key) / avail[i] as real else 0.0)
      + PenaltyAsWritten(action, avail, i + 1)
  }

  /** The penalty loop with each key charged against its own count: a kind
      of the bundle costs its value divided by the copies held. */
  function Penalty(action: seq<Kind>, inv: Counts, i: nat): (r: real)
    requires Covers(inv, Cli.FiveKinds) && i <= 5
    ensures r >= 0.0
    ensures action == [] ==> r == 0.0
    decreases 5 - i
  {
    if i == 5 then 0.0
    else
      var key := ValueOrder[i];
      (if inv[key] > 0 && key in action then ItemValue(key) / inv[key] as real else 0.0)
      + Penalty(action, inv, i + 1)
  }

  /** A single-kind bundle costs that kind's value divided by the copies held,
      and nothing when none is held. */
  lemma PenaltyOfOne(k: Kind, inv: Counts)
    requires Covers(inv, Cli.FiveKinds) && k in Cli.FiveKinds
    ensures Penalty([k], inv, 0) == if inv[k] > 0 then ItemValue(k) / inv[k] as real else 0.0
  {
  }

  /** As written, a bundle of one beer with two beers and no handcuffs held
      costs nothing, where its own count gives 0.1 / 2. */
  lemma PenaltyMisread()
    ensures var inv := map[Handcuffs := 0, MagnifyingGlass := 0, Beer := 2, Cigarettes := 0, Saw := 0];
      && PenaltyAsWritten([Beer], Avail(inv), 0) == 0.0
      && Penalty([Beer], inv, 0) == 0.05
  {
  }

  /** `evaluate_action(action, X, N, tuple(items_available.values()))`: what
      the bundle adds to the expected damage, less the penalty as written. */
  function Score(action: seq<Kind>, x: int, n: int, inv: Counts): (r: real)
    requires Bundled(action) && Covers(inv, Cli.FiveKinds)
    ensures r <= ExpectedValue(action, x, n) - ExpectedValue([], x, n)
    ensures action == [] ==> r == 0.0
  {
    ExpectedValue(action, x, n) - ExpectedValue([], x, n) - PenaltyAsWritten(action, Avail(inv), 0)
  }

  /** The score the penalty loop was evidently meant to give, each kind
      charged against its own count. */
  function IntendedScore(action: seq<Kind>, x: int, n: int, inv: Counts): (r: real)
    requires Bundled(action) && Covers(inv, Cli.FiveKinds)
    ensures r <= ExpectedValue(action, x, n) - ExpectedValue([], x, n)
    ensures action == [] ==> r == 0.0
  {
    ExpectedValue(action, x, n) - ExpectedValue([], x, n) - Penalty(action, inv, 0)
  }

  /** With two beers and nothing else held, the beer bundle scores 0.05
      more as written than as intended: the written loop charges the beer
      count to the handcuffs, which the bundle does not hold. */
  lemma ScoreMisread(x: int, n: int)
    ensures var inv := map[Handcuffs := 0, MagnifyingGlass := 0, Beer := 2, Cigarettes := 0, Saw := 0];
      Score([Beer], x, n, inv) == IntendedScore([Beer], x, n, inv) + 0.05
  {
    PenaltyMisread();
  }

  // ------------------------------------------------------------ bundles

  /** `['beer'] * k`. */
  function Beers(k: int): (r: seq<Kind>)
    ensures |r| == Max(k, 0) && forall i :: 0 <= i < |r| ==> r[i] == Beer
    decreases k
  {
    if k <= 0 then [] else [Beer] + Beers(k - 1)
  }

  /** The single-use kinds the pool takes when they are legal moves. */
  const Extras: seq<Kind> := [Saw, Handcuffs, MagnifyingGlass]

  /** The kinds of ks that are legal moves, in order. */
  function Legal(ks: seq<Kind>, ms: seq<Move>): (r: seq<Kind>)
    ensures forall k :: k in r <==> k in ks && Use(k) in ms
  {
    if ks == [] then []
    else Legal(ks[..|ks| - 1], ms) + (if Use(ks[|ks| - 1]) in ms then [ks[|ks| - 1]] else [])
  }

  /** The action pool: a beer per beer held, then saw, handcuffs and
      magnifying glass where legal. */
  function Pool(inv: Counts, ms: seq<Move>): seq<Kind>
    requires Covers(inv, Cli.FiveKinds)
  {
    Beers(inv[Beer]) + Legal(Extras, ms)
  }

  /** `itertools.combinations(p, k)`: the k-element subsequences of p, in
      the order of their positions. */
  function Combos(p: seq<Kind>, k: nat): seq<seq<Kind>>
    decreases |p|
  {
    if k == 0 then [[]]
    else if |p| < k then []
    else Prefixed(p[0], Combos(p[1..], k - 1)) + Combos(p[1..], k)
  }

  function Prefixed(x: Kind, cs: seq<seq<Kind>>): (r: seq<seq<Kind>>)
    ensures |r| == |cs|
  {
    if cs == [] then [] else [[x] + cs[0]] + Prefixed(x, cs[1..])
  }

  /** The validity test: no beer after a magnifying glass. */
  predicate NoBeerAfterGlass(c: seq<Kind>) {
    forall i, j :: 0 <= i < j < |c| && c[i] == MagnifyingGlass ==> c[j] != Beer
  }

  /** The valid bundles of a list of combinations. */
  function Kept(cs: seq<seq<Kind>>): set<seq<Kind>> {
    if cs == [] then {}
    else Kept(cs[..|cs| - 1]) + (if NoBeerAfterGlass(cs[|cs| - 1]) then {cs[|cs| - 1]} else {})
  }

  /** `actions` once the sizes 1 to i are done: the empty bundle and every
      valid combination of those sizes. */
  function Bundles(pool: seq<Kind>, i: nat): (r: set<seq<Kind>>)
    ensures [] in r
  {
    if i == 0 then {[]} else Bundles(pool, i - 1) + Kept(Combos(pool, i))
  }

  /** Every kind of c is a kind of p. */
  predicate Within(c: seq<Kind>, p: seq<Kind>) {
    forall y :: y in c ==> y in p
  }

  /** Each of cs has k kinds, each taken from p. */
  predicate AllFrom(cs: seq<seq<Kind>>, k: nat, p: seq<Kind>) {
    forall c :: c in cs ==> |c| == k && Within(c, p)
  }

  lemma AllFromJoin(a: seq<seq<Kind>>, b: seq<seq<Kind>>, k: nat, p: seq<Kind>)
    requires AllFrom(a, k, p) && AllFrom(b, k, p)
    ensures AllFrom(a + b, k, p)
  {
  }

  lemma AllFromWider(cs: seq<seq<Kind>>, k: nat, p: seq<Kind>)
    requires p != [] && AllFrom(cs, k, p[1..])
    ensures AllFrom(cs, k, p)
  {
    forall c | c in cs ensures Within(c, p) {
      assert Within(c, p[1..]);
    }
  }

  /** A combination has k kinds, each taken from p. */
  lemma {:induction false} CombosFromPool(p: seq<Kind>, k: nat)
    ensures AllFrom(Combos(p, k), k, p)
    decreases |p|
  {
    if k != 0 && |p| >= k {
      var rest := p[1..];
      CombosFromPool(rest, k - 1);
      CombosFromPool(rest, k);
      PrefixedFrom(p[0], Combos(rest, k - 1), k - 1, p);
      AllFromWider(Combos(rest, k), k, p);
      AllFromJoin(Prefixed(p[0], Combos(rest, k - 1)), Combos(rest, k), k, p);
    }
  }

  lemma {:induction false} PrefixedFrom(y: Kind, cs: seq<seq<Kind>>, k: nat, p: seq<Kind>)
    requires p != [] && y == p[0] && AllFrom(cs, k, p[1..])
    ensures AllFrom(Prefixed(y, cs), k + 1, p)
  {
    if cs != [] {
      assert AllFrom(cs[1..], k, p[1..]);
      PrefixedFrom(y, cs[1..], k, p);
      assert Prefixed(y, cs) == [[y] + cs[0]] + Prefixed(y, cs[1..]);
      assert Within(cs[0], p[1..]);
    }
  }

  /** A combination of a valid list is valid. */
  lemma {:induction false} CombosValid(p: seq<Kind>, k: nat)
    requires NoBeerAfterGlass(p)
    ensures forall c :: c in Combos(p, k) ==> NoBeerAfterGlass(c)
    decreases |p|
  {
    if k != 0 && |p| >= k {
      var rest := p[1..];
      ValidTail(p);
      CombosValid(rest, k - 1);
      CombosValid(rest, k);
      CombosFromPool(rest, k - 1);
      PrefixedValid(p[0], Combos(rest, k - 1), rest);
    }
  }

  lemma {:induction false} PrefixedValid(y: Kind, cs: seq<seq<Kind>>, rest: seq<Kind>)
    requires forall c :: c in cs ==> NoBeerAfterGlass(c) && Within(c, rest)
    requires y == MagnifyingGlass ==> Beer !in rest
    ensures forall c :: c in Prefixed(y, cs) ==> NoBeerAfterGlass(c)
  {
    if cs != [] {
      PrefixedValid(y, cs[1..], rest);
      ValidCons(y, cs[0], rest);
      assert Prefixed(y, cs) == [[y] + cs[0]] + Prefixed(y, cs[1..]);
    }
  }

  /** The tail of a valid list is valid, and has no beer if the list starts
      with a magnifying glass. */
  lemma ValidTail(p: seq<Kind>)
    requires NoBeerAfterGlass(p) && p != []
    ensures NoBeerAfterGlass(p[1..]) && (p[0] == MagnifyingGlass ==> Beer !in p[1..])
  {
    var rest := p[1..];
    forall i, j | 0 <= i < j < |rest| && rest[i] == MagnifyingGlass ensures rest[j] != Beer {
      assert p[i + 1] == rest[i] && p[j + 1] == rest[j];
    }
    if p[0] == MagnifyingGlass {
      forall j | 0 <= j < |rest| ensures rest[j] != Beer {
        assert p[j + 1] == rest[j];
      }
    }
  }

  lemma ValidCons(y: Kind, tail: seq<Kind>, rest: seq<Kind>)
    requires NoBeerAfterGlass(tail) && Within(tail, rest)
    requires y == MagnifyingGlass ==> Beer !in rest
    ensures NoBeerAfterGlass([y] + tail)
  {
    var c := [y] + tail;
    forall i, j | 0 <= i < j < |c| && c[i] == MagnifyingGlass ensures c[j] != Beer {
      assert c[j] == tail[j - 1] && c[j] in tail;
      if i > 0 {
        assert c[i] == tail[i - 1];
      }
    }
  }

  /** The magnifying glass is the last kind of the pool, so the pool is
      valid, and it holds only the four bundle kinds. */
  lemma PoolValid(inv: Counts, ms: seq<Move>)
    requires Covers(inv, Cli.FiveKinds)
    ensures NoBeerAfterGlass(Pool(inv, ms)) && Bundled(Pool(inv, ms))
  {
    var beers := Beers(inv[Beer]);
    var extra := Legal(Extras, ms);
    var p := beers + extra;
    LegalGlassLast(ms);
    forall i | 0 <= i < |p| - 1 ensures p[i] != MagnifyingGlass {
      if i >= |beers| {
        assert p[i] == extra[i - |beers|];
      }
    }
    forall i | 0 <= i < |p| ensures p[i] == Beer || p[i] == Saw || p[i] == Handcuffs || p[i] == MagnifyingGlass {
      if i >= |beers| {
        assert p[i] == extra[i - |beers|] && p[i] in extra;
      }
    }
  }

  lemma LegalGlassLast(ms: seq<Move>)
    ensures var extra := Legal(Extras, ms);
      (forall y :: y in extra ==> y in Extras)
      && forall j :: 0 <= j < |extra| - 1 ==> extra[j] != MagnifyingGlass
  {
    var extra := Legal(Extras, ms);
    assert Extras[..2] == [Saw, Handcuffs];
    var front := Legal(Extras[..2], ms);
    assert forall y :: y in front ==> y == Saw || y == Handcuffs;
    assert extra == front + (if Use(MagnifyingGlass) in ms then [MagnifyingGlass] else []);
    forall j | 0 <= j < |extra| - 1 ensures extra[j] != MagnifyingGlass {
      assert extra[j] == front[j] && front[j] in front;
    }
  }

  /** Every combination of the pool is kept, and is a bundle. */
  lemma FilterKeepsAll(inv: Counts, ms: seq<Move>, k: nat)
    requires Covers(inv, Cli.FiveKinds)
    ensures forall c :: c in Combos(Pool(inv, ms), k) ==> NoBeerAfterGlass(c) && Bundled(c)
  {
    var p := Pool(inv, ms);
    PoolValid(inv, ms);
    CombosFromPool(p, k);
    CombosValid(p, k);
    forall c | c in Combos(p, k) ensures Bundled(c) {
      assert Within(c, p);
      forall i | 0 <= i < |c| ensures c[i] == Beer || c[i] == Saw || c[i] == Handcuffs || c[i] == MagnifyingGlass {
        assert c[i] in c && c[i] in p;
      }
    }
  }

  lemma {:induction false} KeptAll(cs: seq<seq<Kind>>)
    requires forall c :: c in cs ==> NoBeerAfterGlass(c)
    ensures Kept(cs) == set c | c in cs
  {
    if cs != [] {
      var front := cs[..|cs| - 1];
      assert forall c :: c in front ==> c in cs;
      KeptAll(front);
      assert cs == front + [cs[|cs| - 1]];
    }
  }

  /** The empty bundle and every combination of p of sizes 1 to i. */
  function AllCombos(p: seq<Kind>, i: nat): set<seq<Kind>> {
    if i == 0 then {[]} else AllCombos(p, i - 1) + set c | c in Combos(p, i)
  }

  /** The validity test drops nothing: the bundles are the empty bundle and
      every combination of the pool of sizes 1 to i. */
  lemma {:induction false} BundlesAll(inv: Counts, ms: seq<Move>, i: nat)
    requires Covers(inv, Cli.FiveKinds)
    ensures Bundles(Pool(inv, ms), i) == AllCombos(Pool(inv, ms), i)
  {
    if i > 0 {
      BundlesAll(inv, ms, i - 1);
      FilterKeepsAll(inv, ms, i);
      KeptAll(Combos(Pool(inv, ms), i));
    }
  }

  /** Every bundle of s takes its kinds from p. */
  predicate AllWithin(s: set<seq<Kind>>, p: seq<Kind>) {
    forall a :: a in s ==> Within(a, p)
  }

  /** Bundles of sizes up to i - 1 taken from p, joined with the
      combinations of size i, are still taken from p. */
  lemma WithinUnion(p: seq<Kind>, i: nat)
    requires i > 0 && AllWithin(AllCombos(p, i - 1), p)
    ensures AllWithin(AllCombos(p, i), p)
  {
    CombosFromPool(p, i);
    forall a | a in AllCombos(p, i) ensures Within(a, p) {
      if a !in AllCombos(p, i - 1) {
        assert a in Combos(p, i);
      }
    }
  }

  lemma {:induction false} AllCombosWithin(p: seq<Kind>, i: nat)
    ensures AllWithin(AllCombos(p, i), p)
  {
    if i > 0 {
      AllCombosWithin(p, i - 1);
      WithinUnion(p, i);
    } else {
      assert AllCombos(p, 0) == {[]};
    }
  }

  /** Every bundle takes its kinds from the pool, and so is made of the four
      bundle kinds. */
  lemma BundlesBundled(inv: Counts, ms: seq<Move>, i: nat)
    requires Covers(inv, Cli.FiveKinds)
    ensures forall a :: a in Bundles(Pool(inv, ms), i) ==> Bundled(a) && Within(a, Pool(inv, ms))
  {
    var p := Pool(inv, ms);
    BundlesAll(inv, ms, i);
    AllCombosWithin(p, i);
    PoolValid(inv, ms);
    forall a | a in Bundles(p, i) ensures Bundled(a) {
      assert Within(a, p);
      forall j | 0 <= j < |a| ensures a[j] == Beer || a[j] == Saw || a[j] == Handcuffs || a[j] == MagnifyingGlass {
        assert a[j] in a && a[j] in p;
      }
    }
  }

  // ------------------------------------------------------------ best_move

  /** The shortcuts tried once cigarettes are ruled out; None when none applies. */
  function Shortcut(t: Table, x: nat, n: nat, ms: seq<Move>): Option<Move> {
    if t.chamberPublic == Some(true) then
      Some(if Use(Handcuffs) in ms then Use(Handcuffs) else if Use(Saw) in ms then Use(Saw) else ShootOpponent)
    else if t.chamberPublic == Some(false) then Some(ShootSelf)
    else if x == n then Some(ShootOpponent)
    else if x == 0 then Some(ShootSelf)
    else if |ms| == 2 then Some(ShootOpponent)
    else None
  }

  /** The move a bundle stands for: its first item, or 'op' when empty. */
  function Lead(a: seq<Kind>): Move {
    if a == [] then ShootOpponent else Use(a[0])
  }

  /** m leads a bundle of actions that no other bundle outscores. */
  predicate Ranked(actions: set<seq<Kind>>, x: int, n: int, inv: Counts, m: Move)
    requires Covers(inv, Cli.FiveKinds) && forall a :: a in actions ==> Bundled(a)
  {
    exists a :: a in actions && m == Lead(a)
      && forall a' :: a' in actions ==> Score(a', x, n, inv) <= Score(a, x, n, inv)
  }

  /** The moves `best_move` may return: cigarettes when below the maximum,
      else a shortcut, else the lead of a bundle no other bundle outscores
      (which of equal bundles depends on set order). */
  predicate Chosen(b: Game.Board, inv: Counts, m: Move)
    requires Cli.BoardOk(b) && Covers(inv, Cli.FiveKinds)
    ensures Chosen(b, inv, m) ==> m != Unknown
  {
    var t := b.table;
    var (x, n) := Game.ShotgunInfoSpec(b);
    var ms := Cli.MovesSpec(t);
    if Use(Cigarettes) in ms && t.charges[t.currentTurn] < t.maxCharges then m == Use(Cigarettes)
    else
      var ms' := Uncut(ms);
      match Shortcut(t, x, n, ms')
      case Some(s) => m == s
      case None => PoolRanked(inv, ms', x, n, m)
  }

  /** m leads a best bundle of the pool built from inv and ms. */
  predicate PoolRanked(inv: Counts, ms: seq<Move>, x: int, n: int, m: Move)
    requires Covers(inv, Cli.FiveKinds)
  {
    var pool := Pool(inv, ms);
    BundlesBundled(inv, ms, |pool|);
    Ranked(Bundles(pool, |pool|), x, n, inv, m)
  }

  /** The moves once cigarettes are removed, if listed. */
  function Uncut(ms: seq<Move>): (r: seq<Move>)
    ensures Use(Cigarettes) !in ms ==> r == ms
    ensures forall y :: y in r ==> y in ms
  {
    if Use(Cigarettes) in ms then
      var r := RemoveValue(ms, Use(Cigarettes)).value;
      assert forall y :: y in r ==> y in ms by {
        forall y | y in r ensures y in ms {
          assert multiset(r)[y] > 0;
        }
      }
      r
    else ms
  }

  /** Whatever the record, the engine never shoots itself while the front
      shell is live, provided a public chamber tells the truth. */
  lemma NeverShootsSelfLive(b: Game.Board, inv: Counts)
    requires Cli.BoardOk(b) && Covers(inv, Cli.FiveKinds) && b.shotgun != []
    requires b.table.chamberPublic.Some? ==> b.table.chamberPublic.value == b.shotgun[0]
    requires Chosen(b, inv, ShootSelf)
    ensures !b.shotgun[0]
  {
    var (x, n) := Game.ShotgunInfoSpec(b);
    if x == 0 {
      assert !b.shotgun[0];
    }
  }

  /** A bundle's lead is 'op', a held beer, or a kind among the moves. */
  lemma RankedLead(inv: Counts, ms: seq<Move>, x: int, n: int, m: Move)
    requires Covers(inv, Cli.FiveKinds)
    requires PoolRanked(inv, ms, x, n, m)
    ensures m == ShootOpponent || (m == Use(Beer) && inv[Beer] > 0) || (m.Use? && m in ms)
  {
    var pool := Pool(inv, ms);
    BundlesBundled(inv, ms, |pool|);
    var a :| a in Bundles(pool, |pool|) && m == Lead(a);
    if a != [] {
      assert Within(a, pool) && a[0] in a;
      if a[0] != Beer {
        assert a[0] in Legal(Extras, ms);
      }
    }
  }

  /** With the record of the mover and no beer in effect, the engine picks
      one of the mover's legal moves. */
  lemma ChosenLegal(b: Game.Board, inv: Counts, m: Move)
    requires Cli.BoardOk(b) && inv == b.table.items[b.table.currentTurn] && b.table.active[Beer] == 0.0
    requires Covers(inv, Cli.FiveKinds) && Chosen(b, inv, m)
    ensures m in Cli.MovesSpec(b.table)
  {
    var t := b.table;
    var (x, n) := Game.ShotgunInfoSpec(b);
    var ms := Cli.MovesSpec(t);
    Cli.MovesListed(t);
    if !(Use(Cigarettes) in ms && t.charges[t.currentTurn] < t.maxCharges) {
      var ms' := Uncut(ms);
      if Shortcut(t, x, n, ms').None? {
        RankedLead(inv, ms', x, n, m);
        if m == Use(Beer) && inv[Beer] > 0 {
          assert m in ms[2..];
        }
      } else {
        ShortcutListed(t, x, n, ms');
      }
    }
  }

  /** A shortcut is a shot or one of the listed moves. */
  lemma ShortcutListed(t: Table, x: nat, n: nat, ms: seq<Move>)
    requires Shortcut(t, x, n, ms).Some?
    ensures var s := Shortcut(t, x, n, ms).value;
      s == ShootOpponent || s == ShootSelf || s in ms
  {
  }


  /** `StatEngine`, the engine that scores item bundles. */
  class StatEngine {
    const me: int

    constructor (playingAs: int)
      ensures me == playingAs
    {
      me := playingAs;
    }

    /** `best_move(board)`, with the mover's record as `inv`. */
    method BestMove(board: Cli.Board, inv: Counts) returns (r: Result<Move>)
      requires board.Valid() && Covers(inv, Cli.FiveKinds)
      ensures r.Err? <==> board.currentTurn != me
      ensures r.Err? ==> r.error == AssertionError
      ensures r.Ok? ==> Chosen(board.Snap(), inv, r.value)
    {
      if board.currentTurn != me {
        return Err(AssertionError);
      }
      var x, n := board.ShotgunInfo();
      var ms := board.Moves();
      ghost var listed := ms;
      var t := board.Snap().table;
      if Use(Cigarettes) in ms && board.charges[me] < board.maxCharges {
        return Ok(Use(Cigarettes));
      } else if Use(Cigarettes) in ms {
        ms := RemoveValue(ms, Use(Cigarettes)).value;
      }
      assert ms == Uncut(listed);
      var shortcut := Shortcut(t, x, n, ms);
      if shortcut.Some? {
        return Ok(shortcut.value);
      }
      var m := Rank(inv, ms, x, n);
      r := Ok(m);
    }

    /** The bundle part of `best_move`: pool, bundles, and the lead of the
        last bundle once sorted by score. */
    method Rank(inv: Counts, ms: seq<Move>, x: int, n: int) returns (m: Move)
      requires Covers(inv, Cli.FiveKinds)
      ensures PoolRanked(inv, ms, x, n, m)
    {
      var pool := PoolOf(inv, ms);
      var actions := Actions(pool);
      BundlesBundled(inv, ms, |pool|);
      var best := Best(actions, x, n, inv);
      m := Lead(best);
      assert Ranked(actions, x, n, inv, m);
    }

    /** `evaluate_action(action, X, N, tuple(items_available.values()))`:
        the i-th key of `item_value` is charged against the i-th count. */
    method EvaluateAction(action: seq<Kind>, x: int, n: int, inv: Counts) returns (score: real)
      requires Bundled(action) && Covers(inv, Cli.FiveKinds)
      ensures score == Score(action, x, n, inv)
    {
      var exVal := ExpectedValue(action, x, n) - ExpectedValue([], x, n);
      var avail := Avail(inv);
      var penalty := 0.0;
      var i := 0;
      while i < 5
        invariant 0 <= i <= 5
        invariant penalty + PenaltyAsWritten(action, avail, i) == PenaltyAsWritten(action, avail, 0)
      {
        var key := ValueOrder[i];
        if avail[i] > 0 && key in action {
          penalty := penalty + ItemValue(key) / avail[i] as real;
        }
        i := i + 1;
      }
      score := exVal - penalty;
    }

    /** The last element of the bundles sorted by score: one no other outscores. */
    method Best(actions: set<seq<Kind>>, x: int, n: int, inv: Counts) returns (best: seq<Kind>)
      requires [] in actions && (forall a :: a in actions ==> Bundled(a)) && Covers(inv, Cli.FiveKinds)
      ensures best in actions
      ensures forall a :: a in actions ==> Score(a, x, n, inv) <= Score(best, x, n, inv)
    {
      best := [];
      var top := EvaluateAction(best, x, n, inv);
      var rest := actions;
      while rest != {}
        invariant rest <= actions && best in actions && top == Score(best, x, n, inv)
        invariant forall a :: a in actions && a !in rest ==> Score(a, x, n, inv) <= top
        invariant Score([], x, n, inv) <= top
        decreases |rest|
      {
        var a :| a in rest;
        var s := EvaluateAction(a, x, n, inv);
        if s >= top {
          best, top := a, s;
        }
        rest := rest - {a};
      }
    }
  }

  /** The pool loop: beers, then each extra kind that is a legal move. */
  method PoolOf(inv: Counts, ms: seq<Move>) returns (pool: seq<Kind>)
    requires Covers(inv, Cli.FiveKinds)
    ensures pool == Pool(inv, ms)
  {
    pool := Beers(inv[Beer]);
    var i := 0;
    while i < |Extras|
      invariant 0 <= i <= |Extras|
      invariant pool == Beers(inv[Beer]) + Legal(Extras[..i], ms)
    {
      assert Extras[..i + 1][..i] == Extras[..i];
      if Use(Extras[i]) in ms {
        pool := pool + [Extras[i]];
      }
      i := i + 1;
    }
    assert Extras[..|Extras|] == Extras;
  }

  /** The inner loop: false at the first beer after a magnifying glass. */
  method CheckBundle(c: seq<Kind>) returns (valid: bool)
    ensures valid == NoBeerAfterGlass(c)
  {
    valid := true;
    var mg := false;
    var i := 0;
    while i < |c|
      invariant 0 <= i <= |c|
      invariant mg <==> MagnifyingGlass in c[..i]
      invariant NoBeerAfterGlass(c[..i])
    {
      if c[i] == MagnifyingGlass {
        mg := true;
      }
      if c[i] == Beer && mg {
        assert MagnifyingGlass in c[..i];
        valid := false;
        return;
      }
      i := i + 1;
      assert forall p :: 0 <= p < i ==> c[..i][p] == c[p];
    }
    assert c[..i] == c;
  }

  /** The loops that fill `actions`: the empty bundle, then each valid
      combination of each size from 1 to the pool's length. */
  method Actions(pool: seq<Kind>) returns (actions: set<seq<Kind>>)
    ensures actions == Bundles(pool, |pool|)
  {
    actions := {[]};
    for i := 1 to |pool| + 1
      invariant actions == Bundles(pool, i - 1)
    {
      actions := AddSize(pool, i, actions);
    }
  }

  /** One pass of the outer loop: the combinations of size i, each valid
      one added. */
  method AddSize(pool: seq<Kind>, i: nat, start: set<seq<Kind>>) returns (actions: set<seq<Kind>>)
    requires i >= 1 && start == Bundles(pool, i - 1)
    ensures actions == Bundles(pool, i)
  {
    var combs := Combos(pool, i);
    actions := AddValid(start, combs);
  }

  /** The loop over the combinations of one size: each valid one is added. */
  method AddValid(start: set<seq<Kind>>, combs: seq<seq<Kind>>) returns (actions: set<seq<Kind>>)
    ensures actions == start + Kept(combs)
  {
    actions := start;
    var j := 0;
    while j < |combs|
      invariant 0 <= j <= |combs|
      invariant actions == start + Kept(combs[..j])
    {
      assert combs[..j + 1][..j] == combs[..j];
      var valid := CheckBundle(combs[j]);
      if valid {
        actions := actions + {combs[j]};
      }
      j := j + 1;
    }
    assert combs[..j] == combs;
  }

  // ------------------------------------------------------------ DealerEngine

  /** `target`: '' before a decision, then 'op' or 'self'. */
  datatype Target = Undecided | AtOpponent | AtSelf

  /** The target a known front shell gives. */
  function Aim(known: Option<bool>): (r: Target)
    ensures r == Undecided <==> known.None?
  {
    match known
    case None => Undecided
    case Some(live) => if live then AtOpponent else AtSelf
  }

  /** What `known_shell` becomes: the last shell when one is left, else the
      public chamber. */
  function Known(b: Game.Board): Option<bool> {
    if |b.shotgun| == 1 then Some(b.shotgun[0]) else b.table.chamberPublic
  }

  /** The rule of the loop for one held kind: the move it returns, if any;
      reading `charges[me]` for cigarettes may raise IndexError. */
  function ItemRule(k: Kind, known: Option<bool>, n: nat, t: Table, me: int): (r: Result<Option<Move>>)
    ensures r.Err? <==> k == Cigarettes && PyIndex(me, |t.charges|).None?
    ensures r.Err? ==> r.error == IndexError
    ensures r.Ok? && r.value.Some? ==> r.value.value == Use(k)
  {
    if k == MagnifyingGlass && known.None? && n != 1 then Ok(Some(Use(MagnifyingGlass)))
    else if k == Cigarettes then
      match PyIndex(me, |t.charges|)
      case None => Err(IndexError)
      case Some(i) => Ok(if t.charges[i] < t.maxCharges then Some(Use(Cigarettes)) else None)
    else if k == Beer && known.None? && n != 1 then Ok(Some(Use(Beer)))
    else if k == Handcuffs && n != 1 then Ok(Some(Use(Handcuffs)))
    else if k == Saw && known == Some(true) then Ok(Some(Use(Saw)))
    else Ok(None)
  }

  /** The first rule that fires over ks[i..], or the first error. */
  function FirstRule(ks: seq<Kind>, i: nat, known: Option<bool>, n: nat, t: Table, me: int): (r: Result<Option<Move>>)
    requires i <= |ks|
    ensures r == Ok(None) ==> forall j :: i <= j < |ks| ==> ItemRule(ks[j], known, n, t, me) == Ok(None)
    ensures r != Ok(None) ==> exists j :: i <= j < |ks| && ItemRule(ks[j], known, n, t, me) == r
    decreases |ks| - i
  {
    if i == |ks| then Ok(None)
    else
      var here := ItemRule(ks[i], known, n, t, me);
      if here != Ok(None) then here else FirstRule(ks, i + 1, known, n, t, me)
  }

  /** `DealerEngine.best_move`: the move, then `known_shell` and `target`.
      `held` is the order in which the set of held kinds is iterated;
      `sawOp` is the `randint(0, 1)` of the saw override being 1, and
      `pickOp` the `random.choice` of the fallback landing on 'op'. */
  function DealerSpec(me: int, b: Game.Board, inv: Counts, held: seq<Kind>, sawOp: bool, pickOp: bool)
    : (r: (Result<Move>, Option<bool>, Target))
    requires Cli.BoardOk(b) && Covers(inv, Cli.FiveKinds)
    ensures r.0.Err? ==> r.0.error == IndexError && Cigarettes in held
    ensures r.0.Ok? ==> r.0.value != Unknown
    ensures r.0.Ok? && r.0.value.Use? ==> r.0.value.kind in held
  {
    var t := b.table;
    var n := |b.shotgun|;
    var known := Known(b);
    var target := Aim(known);
    match FirstRule(held, 0, known, n, t, me)
    case Err(e) => (Err(e), known, target)
    case Ok(Some(m)) => (Ok(m), known, target)
    case Ok(None) => Fallback(inv[Saw] >= 1 && t.active[Saw] == 0.0, known, target, sawOp, pickOp)
  }

  /** When no item rule fires: a ready saw (held, not in effect) re-aims
      unless the chamber is known blank, the shell is forgotten, and the
      aim decides the shot, a coin flip when undecided. */
  function Fallback(sawReady: bool, known: Option<bool>, target: Target, sawOp: bool, pickOp: bool)
    : (r: (Result<Move>, Option<bool>, Target))
    ensures r.0.Ok? && (r.0.value == ShootOpponent || r.0.value == ShootSelf) && r.1 == None
    ensures r.2 == AtOpponent ==> r.0.value == ShootOpponent
    ensures r.2 == AtSelf ==> r.0.value == ShootSelf
  {
    var aimed := if sawReady && known != Some(false) then (if sawOp then AtOpponent else AtSelf) else target;
    var m := match aimed
      case Undecided => if pickOp then ShootOpponent else ShootSelf
      case AtOpponent => ShootOpponent
      case AtSelf => ShootSelf;
    (Ok(m), None, aimed)
  }

  /** `held` lists each kind the record holds at least once, once. */
  predicate HeldOrder(inv: Counts, held: seq<Kind>)
    requires Covers(inv, Cli.FiveKinds)
  {
    Distinct(held) && forall k :: k in held <==> k in Cli.FiveKinds && inv[k] >= 1
  }

  /** When the front shell is known (one shell left, or a public chamber)
      and no item rule fires, the engine shoots the opponent exactly when
      that shell is live. */
  lemma DealerKnownFront(me: int, b: Game.Board, inv: Counts, held: seq<Kind>, sawOp: bool, pickOp: bool)
    requires Cli.BoardOk(b) && Covers(inv, Cli.FiveKinds) && HeldOrder(inv, held) && Known(b).Some?
    ensures var (r, _, _) := DealerSpec(me, b, inv, held, sawOp, pickOp);
      r.Ok? && !r.value.Use? ==> (r.value == ShootOpponent <==> Known(b).value) && r.value != Unknown
  {
    var t := b.table;
    var known := Known(b);
    if known == Some(true) && inv[Saw] >= 1 {
      assert Saw in held;
      SawRuleFires(held, |b.shotgun|, t, me);
    }
  }

  /** With a live front known, a held saw makes some rule fire. */
  lemma SawRuleFires(held: seq<Kind>, n: nat, t: Table, me: int)
    requires Saw in held
    ensures FirstRule(held, 0, Some(true), n, t, me) != Ok(None)
  {
    var j :| 0 <= j < |held| && held[j] == Saw;
    assert ItemRule(held[j], Some(true), n, t, me) != Ok(None);
  }

  /** With one shell left the engine never uses the magnifying glass, beer
      or handcuffs, uses the saw only on a live shell, and otherwise shoots
      the opponent exactly when that shell is live. */
  lemma DealerLastShell(me: int, b: Game.Board, inv: Counts, held: seq<Kind>, sawOp: bool, pickOp: bool)
    requires Cli.BoardOk(b) && Covers(inv, Cli.FiveKinds) && HeldOrder(inv, held) && |b.shotgun| == 1
    ensures var (r, _, _) := DealerSpec(me, b, inv, held, sawOp, pickOp);
      r.Ok? ==> (r.value == Use(Cigarettes) || (r.value == Use(Saw) && b.shotgun[0])
                 || r.value == (if b.shotgun[0] then ShootOpponent else ShootSelf))
  {
    DealerKnownFront(me, b, inv, held, sawOp, pickOp);
  }

  /** `DealerEngine`, the rule-list engine. */
  class DealerEngine {
    const me: int
    var knownShell: Option<bool>
    var target: Target

    constructor (turn: int)
      ensures me == turn && knownShell == None && target == AtOpponent
    {
      me := turn;
      knownShell := None;
      target := AtOpponent;
    }

    /** `best_move(board)`, with the mover's record as `inv`. */
    method BestMove(board: Cli.Board, inv: Counts, held: seq<Kind>, sawOp: bool, pickOp: bool) returns (r: Result<Move>)
      requires board.Valid() && Covers(inv, Cli.FiveKinds)
      modifies this
      ensures (r, knownShell, target) == DealerSpec(me, board.Snap(), inv, held, sawOp, pickOp)
    {
      var x, n := board.ShotgunInfo();
      knownShell := board.chamberPublic;
      if n == 1 {
        knownShell := Some(board.shotgun[0]);
      }
      target := Aim(knownShell);
      var i := 0;
      while i < |held|
        invariant 0 <= i <= |held|
        invariant knownShell == Known(board.Snap()) && target == Aim(knownShell)
        invariant FirstRule(held, 0, knownShell, n, board.Snap().table, me) == FirstRule(held, i, knownShell, n, board.Snap().table, me)
      {
        var fired := ItemRule(held[i], knownShell, n, board.Snap().table, me);
        if fired != Ok(None) {
          return if fired.Ok? then Ok(fired.value.value) else Err(fired.error);
        }
        i := i + 1;
      }
      r := Resolve(inv[Saw] >= 1 && board.active[Saw] == 0.0, sawOp, pickOp);
    }

    /** The end of `best_move` once no item rule fires. */
    method Resolve(sawReady: bool, sawOp: bool, pickOp: bool) returns (r: Result<Move>)
      modifies this
      ensures (r, knownShell, target) == Fallback(sawReady, old(knownShell), old(target), sawOp, pickOp)
    {
      if sawReady && knownShell != Some(false) {
        target := if sawOp then AtOpponent else AtSelf;
      }
      knownShell := None;
      if target == Undecided {
        r := Ok(if pickOp then ShootOpponent else ShootSelf);
      } else {
        r := Ok(if target == AtOpponent then ShootOpponent else ShootSelf);
      }
    }
  }
}
