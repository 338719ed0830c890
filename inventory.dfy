/** Item inventories.

    Every board keeps, per player, an `Items` record: one integer count per
    item kind the board knows.  The boards differ in which kinds their record
    has and in the order (`POSSIBLE_ITEMS`) in which iterating over a record
    lists them.  Here a record is a map from kinds to counts, and `order` is
    the board's `POSSIBLE_ITEMS` list; the boards' own modules fix it. */
module Inventory {
  import opened Common

  datatype Kind =
    | Handcuffs
    | MagnifyingGlass
    | Beer
    | Cigarettes
    | Saw
    | Inverter
    | BurnerPhone
    | Meds
    | Adrenaline
    | Jammer
    | Remote

  /** An `Items` record: a count for each kind it has. */
  type Counts = map<Kind, int>

  predicate Distinct(order: seq<Kind>) {
    forall i, j :: 0 <= i < j < |order| ==> order[i] != order[j]
  }

  /** The record has a count for every kind in `order`. */
  predicate Covers(c: Counts, order: seq<Kind>) {
    forall k :: k in order ==> k in c
  }

  /** The record built with no arguments: every count 0. */
  function Zero(order: seq<Kind>): (r: Counts)
    ensures r.Keys == set k | k in order
    ensures forall k :: k in r ==> r[k] == 0
  {
    map k | k in order :: 0
  }

  /** `item_count()`: the sum of the counts of all kinds of the record. */
  function ItemCount(c: Counts, order: seq<Kind>): int
    requires Covers(c, order)
  {
    if order == [] then 0 else c[order[0]] + ItemCount(c, order[1..])
  }

  /** The empty record holds no items. */
  lemma {:induction false} ItemCountZero(order: seq<Kind>)
    ensures ItemCount(Zero(order), order) == 0
  {
    if order != [] {
      assert Covers(Zero(order), order[1..]);
      ItemCountZeroTail(order, order[1..]);
    }
  }

  lemma {:induction false} ItemCountZeroTail(order: seq<Kind>, tail: seq<Kind>)
    requires forall k :: k in tail ==> k in order
    ensures ItemCount(Zero(order), tail) == 0
  {
    if tail != [] {
      ItemCountZeroTail(order, tail[1..]);
    }
  }

  /** Raising one count by d raises item_count by d. */
  lemma {:induction false} ItemCountBump(c: Counts, order: seq<Kind>, k: Kind, d: int)
    requires Covers(c, order) && Distinct(order) && k in order
    ensures ItemCount(c[k := c[k] + d], order) == ItemCount(c, order) + d
  {
    var c' := c[k := c[k] + d];
    if order[0] == k {
      assert k !in order[1..] by {
        forall j | 0 <= j < |order[1..]| ensures order[1..][j] != k {
          assert order[0] != order[j + 1];
        }
      }
      ItemCountOther(c, order[1..], k, d);
    } else {
      assert Distinct(order[1..]) by {
        forall i, j | 0 <= i < j < |order[1..]| ensures order[1..][i] != order[1..][j] {
          assert order[i + 1] != order[j + 1];
        }
      }
      ItemCountBump(c, order[1..], k, d);
    }
  }

  /** Changing a kind the record list does not mention leaves item_count alone. */
  lemma {:induction false} ItemCountOther(c: Counts, order: seq<Kind>, k: Kind, d: int)
    requires Covers(c, order) && k !in order && k in c
    ensures ItemCount(c[k := c[k] + d], order) == ItemCount(c, order)
  {
    if order != [] {
      ItemCountOther(c, order[1..], k, d);
    }
  }

  /** The kinds iterating over a record yields: those with count at least 1,
      in `order`. */
  function Held(c: Counts, order: seq<Kind>): (r: seq<Kind>)
    requires Covers(c, order)
    ensures |r| <= |order|
  {
    if order == [] then []
    else (if c[order[0]] >= 1 then [order[0]] else []) + Held(c, order[1..])
  }

  /** Iteration yields exactly the kinds with count at least 1. */
  lemma {:induction false} HeldMembers(c: Counts, order: seq<Kind>)
    requires Covers(c, order)
    ensures forall k :: k in Held(c, order) <==> k in order && c[k] >= 1
  {
    if order != [] {
      HeldMembers(c, order[1..]);
      assert order == [order[0]] + order[1..];
    }
  }

  /** Iteration yields each held kind once. */
  lemma {:induction false} HeldDistinct(c: Counts, order: seq<Kind>)
    requires Covers(c, order) && Distinct(order)
    ensures Distinct(Held(c, order))
  {
    if order != [] {
      var tail := order[1..];
      assert Distinct(tail) by {
        forall i, j | 0 <= i < j < |tail| ensures tail[i] != tail[j] {
          assert order[i + 1] != order[j + 1];
        }
      }
      HeldDistinct(c, tail);
      HeldMembers(c, tail);
      assert order[0] !in tail by {
        forall j | 0 <= j < |tail| ensures tail[j] != order[0] {
          assert order[0] != order[j + 1];
        }
      }
      var h := Held(c, tail);
      var r := Held(c, order);
      if c[order[0]] >= 1 {
        assert r == [order[0]] + h;
        forall i, j | 0 <= i < j < |r| ensures r[i] != r[j] {
          if i == 0 {
            assert r[j] == h[j - 1] && r[j] in h;
          } else {
            assert r[i] == h[i - 1] && r[j] == h[j - 1];
          }
        }
      } else {
        assert r == h;
      }
    }
  }

  /** A record lists a kind other than x exactly when it holds one. */
  lemma HeldOther(c: Counts, order: seq<Kind>, x: Kind)
    requires Covers(c, order)
    ensures (exists k :: k in Held(c, order) && k != x) <==> exists k :: k in order && k != x && c[k] >= 1
  {
    HeldMembers(c, order);
    if exists k :: k in order && k != x && c[k] >= 1 {
      var k :| k in order && k != x && c[k] >= 1;
      assert k in Held(c, order);
    }
  }

  /** One step of the filter, from position i of `order`. */
  lemma HeldFrom(c: Counts, order: seq<Kind>, i: nat)
    requires Covers(c, order) && i < |order|
    ensures Held(c, order[i..])
      == (if c[order[i]] >= 1 then [order[i]] else []) + Held(c, order[i + 1..])
  {
    assert order[i..][1..] == order[i + 1..];
  }

  /** Kinds below count 1 are skipped by the filter. */
  lemma {:induction false} HeldSkip(c: Counts, order: seq<Kind>, i: nat, j: nat)
    requires Covers(c, order) && i <= j <= |order|
    requires forall m :: i <= m < j ==> c[order[m]] < 1
    ensures Held(c, order[i..]) == Held(c, order[j..])
    decreases j - i
  {
    if i < j {
      HeldFrom(c, order, i);
      HeldSkip(c, order, i + 1, j);
    }
  }

  /** The scan of `__next__`: from position i, passes the kinds whose count
      is below 1; the filter lists the same kinds from where it stops. */
  method SkipEmpty(c: Counts, order: seq<Kind>, i: nat) returns (j: nat)
    requires Covers(c, order) && i <= |order|
    ensures i <= j <= |order| && (j < |order| ==> c[order[j]] >= 1)
    ensures Held(c, order[i..]) == Held(c, order[j..])
  {
    j := i;
    while j < |order| && c[order[j]] < 1
      invariant i <= j <= |order|
      invariant forall m :: i <= m < j ==> c[order[m]] < 1
      decreases |order| - j
    {
      j := j + 1;
    }
    HeldSkip(c, order, i, j);
  }

  /** `ItemIterable`: walks `order` with an index, skipping kinds whose
      count is below 1.  `Next` returning None stands for StopIteration. */
  class ItemIterable {
    const data: Counts
    const order: seq<Kind>
    var index: int

    predicate Valid()
      reads this
    {
      Covers(data, order) && 0 <= index <= |order|
    }

    constructor (data: Counts, order: seq<Kind>)
      requires Covers(data, order)
      ensures Valid() && this.data == data && this.order == order && index == 0
    {
      this.data := data;
      this.order := order;
      index := 0;
    }

    /** `__next__`: the next held kind, or None once every kind was passed. */
    method Next() returns (r: Option<Kind>)
      requires Valid()
      modifies this
      ensures Valid() && old(index) <= index
      ensures r.Some? ==> old(index) < index
      ensures r.Some? ==> Held(data, order[old(index)..]) == [r.value] + Held(data, order[index..])
      ensures r.None? ==> Held(data, order[old(index)..]) == [] && index == |order|
    {
      ghost var start := index;
      if index < |order| {
        index := SkipEmpty(data, order, index);
        if index >= |order| {
          assert order[index..] == [];
          r := None;
          return;
        }
        HeldFrom(data, order, index);
        ghost var rest := Held(data, order[index + 1..]);
        assert Held(data, order[start..]) == [order[index]] + rest;
        r := Some(order[index]);
        index := index + 1;
      } else {
        assert order[index..] == [];
        r := None;
      }
    }
  }

  /** `for key in items`: the kinds an iteration yields, collected in order. */
  method HeldKinds(c: Counts, order: seq<Kind>) returns (ks: seq<Kind>)
    requires Covers(c, order)
    ensures ks == Held(c, order)
  {
    var it := new ItemIterable(c, order);
    assert order[0..] == order;
    ks := [];
    var next := it.Next();
    while next.Some?
      invariant it.Valid() && it.data == c && it.order == order
      invariant next.Some? ==> ks + ([next.value] + Held(c, order[it.index..])) == Held(c, order)
      invariant next.None? ==> ks == Held(c, order)
      decreases |order| - it.index, if next.Some? then 1 else 0
    {
      ghost var tail := Held(c, order[it.index..]);
      assert (ks + [next.value]) + tail == Held(c, order);
      ks := ks + [next.value];
      next := it.Next();
    }
  }

  /** Sets the count of every kind of `ks` to a[k] + b[k]. */
  function AddHeld(acc: Counts, a: Counts, b: Counts, ks: seq<Kind>): (r: Counts)
    requires forall k :: k in ks ==> k in a && k in b
    ensures r.Keys == acc.Keys + set k | k in ks
    ensures forall k :: k in r ==> r[k] == if k in ks then a[k] + b[k] else acc[k]
    decreases ks
  {
    if ks == [] then acc
    else AddHeld(acc[ks[0] := a[ks[0]] + b[ks[0]]], a, b, ks[1..])
  }

  /** `a + b`: a new record built from the kinds `a` holds only, so every
      kind `a` does not hold gets the default 0. */
  function Add(a: Counts, b: Counts, order: seq<Kind>): (r: Counts)
    requires Covers(a, order) && Covers(b, order)
    ensures r.Keys == set k | k in order
    ensures forall k :: k in order ==> r[k] == if a[k] >= 1 then a[k] + b[k] else 0
  {
    HeldMembers(a, order);
    AddHeld(Zero(order), a, b, Held(a, order))
  }

  /** `a += b`: adds b's count to each kind `a` holds, iterating over `a`;
      the kinds `a` does not hold keep their count. */
  method IAdd(a: Counts, b: Counts, order: seq<Kind>) returns (r: Counts)
    requires Covers(a, order) && Covers(b, order) && Distinct(order)
    ensures r.Keys == a.Keys
    ensures forall k :: k in order ==> r[k] == if a[k] >= 1 then a[k] + b[k] else a[k]
    ensures forall k :: k in a && k !in order ==> r[k] == a[k]
  {
    ghost var h := Held(a, order);
    var it := new ItemIterable(a, order);
    assert order[0..] == order;
    r := a;
    ghost var done: seq<Kind> := [];
    var next := it.Next();
    while next.Some?
      invariant it.Valid() && it.data == a && it.order == order
      invariant next.Some? ==> done + ([next.value] + Held(a, order[it.index..])) == h
      invariant next.None? ==> done == h
      invariant forall k :: k in done ==> k in order
      invariant r.Keys == a.Keys
      invariant forall k :: k in r ==> r[k] == if k in done then a[k] + b[k] else a[k]
      decreases |order| - it.index, if next.Some? then 1 else 0
    {
      var k := next.value;
      PendingKind(a, order, done, k, Held(a, order[it.index..]));
      ghost var r0 := r;
      r := r[k := r[k] + b[k]];
      forall j | j in r ensures r[j] == if j in done + [k] then a[j] + b[j] else a[j] {
        if j != k {
          assert r[j] == r0[j];
          assert j in done + [k] <==> j in done;
        }
      }
      done := done + [k];
      next := it.Next();
    }
    HeldMembers(a, order);
  }

  /** `for i in POSSIBLE_ITEMS: total[i] += record[i]`: every kind of the
      order, held or not, gains the record's count. */
  method AddAll(total: Counts, rec: Counts, order: seq<Kind>) returns (r: Counts)
    requires Covers(total, order) && Covers(rec, order) && Distinct(order)
    ensures r.Keys == total.Keys
    ensures forall k :: k in order ==> r[k] == total[k] + rec[k]
    ensures forall k :: k in total && k !in order ==> r[k] == total[k]
  {
    r := total;
    var i := 0;
    while i < |order|
      invariant 0 <= i <= |order|
      invariant r.Keys == total.Keys
      invariant forall k :: k in r ==> r[k] == if k in order[..i] then total[k] + rec[k] else total[k]
    {
      var k := order[i];
      assert order[..i + 1] == order[..i] + [k];
      forall j | 0 <= j < i ensures order[..i][j] != k {
        assert order[j] != order[i];
      }
      r := r[k := r[k] + rec[k]];
      i := i + 1;
    }
    assert order[..i] == order;
  }

  /** The kind an iteration yields next is held and was not yielded before. */
  lemma PendingKind(a: Counts, order: seq<Kind>, done: seq<Kind>, k: Kind, tail: seq<Kind>)
    requires Covers(a, order) && Distinct(order)
    requires done + ([k] + tail) == Held(a, order)
    ensures k in order && a[k] >= 1 && k !in done
    ensures (done + [k]) + tail == Held(a, order)
  {
    var h := Held(a, order);
    var whole := done + ([k] + tail);
    assert (done + [k]) + tail == whole;
    assert whole[|done|] == k;
    HeldMembers(a, order);
    assert k in h;
    HeldDistinct(a, order);
    forall i | 0 <= i < |done| ensures done[i] != k {
      assert whole[i] == done[i];
      assert h[i] != h[|done|];
    }
  }

  /** r lists some of the entries of s, in the order s lists them. */
  predicate SubsequenceOf(r: seq<Kind>, s: seq<Kind>)
    decreases |s|
  {
    r == [] || (s != [] && ((r[0] == s[0] && SubsequenceOf(r[1..], s[1..])) || SubsequenceOf(r, s[1..])))
  }

  /** The kinds a player may be given: those of the order below the
      per-player cap, each once, in the order's order. */
  function Eligible(order: seq<Kind>, player: Counts, caps: Counts): (r: seq<Kind>)
    requires Covers(player, order) && Covers(caps, order)
    ensures forall k :: k in r <==> k in order && player[k] < caps[k]
    ensures Distinct(order) ==> Distinct(r)
    ensures SubsequenceOf(r, order)
  {
    if order == [] then []
    else
      var rest := Eligible(order[1..], player, caps);
      DistinctTail(order);
      if player[order[0]] < caps[order[0]] then [order[0]] + rest else rest
  }

  /** The kinds a player may be given on the N-player boards: below the
      per-player cap and with the count over all players below the global cap. */
  function EligibleGlobal(order: seq<Kind>, player: Counts, caps: Counts, global: Counts, globalCaps: Counts): (r: seq<Kind>)
    requires Covers(player, order) && Covers(caps, order)
    requires Covers(global, order) && Covers(globalCaps, order)
    ensures forall k :: k in r <==> k in order && player[k] < caps[k] && global[k] < globalCaps[k]
    ensures Distinct(order) ==> Distinct(r)
    ensures SubsequenceOf(r, order)
  {
    if order == [] then []
    else
      var rest := EligibleGlobal(order[1..], player, caps, global, globalCaps);
      DistinctTail(order);
      var k := order[0];
      if player[k] < caps[k] && global[k] < globalCaps[k] then [k] + rest else rest
  }

  /** `list.remove(k)` guarded by `k in list`: drops the first occurrence. */
  function RemoveFirst(s: seq<Kind>, k: Kind): (r: seq<Kind>)
    ensures k in s ==> |r| == |s| - 1
    ensures k !in s ==> r == s
    ensures forall j :: j in r ==> j in s
    ensures forall j :: j != k ==> (j in r <==> j in s)
    ensures Distinct(s) ==> k !in r
  {
    DistinctTail(s);
    if s == [] then []
    else if s[0] == k then s[1..]
    else [s[0]] + RemoveFirst(s[1..], k)
  }

  /** The tail of a list without repeats has none either, nor its head. */
  lemma DistinctTail(order: seq<Kind>)
    ensures Distinct(order) && order != [] ==> Distinct(order[1..]) && order[0] !in order[1..]
  {
    if Distinct(order) && order != [] {
      forall i, j | 0 <= i < j < |order[1..]| ensures order[1..][i] != order[1..][j] {
        assert order[i + 1] != order[j + 1];
      }
      forall j | 0 <= j < |order[1..]| ensures order[1..][j] != order[0] {
        assert order[0] != order[j + 1];
      }
    }
  }

  /** The picks of `random.choices(choices, k=n)` for a non-empty list:
      the j-th is choices[draw(j) mod |choices|].  (The IndexError of an
      empty list and the empty result of n <= 0 are the callers' `Gift`.) */
  function DrawsFrom(choices: seq<Kind>, n: nat, draw: nat -> nat): (r: seq<Kind>)
    requires choices != []
    ensures |r| == n
    ensures forall j :: 0 <= j < n ==> r[j] == choices[draw(j) % |choices|]
    ensures forall k :: k in r ==> k in choices
  {
    if n == 0 then [] else DrawsFrom(choices, n - 1, draw) + [choices[draw(n - 1) % |choices|]]
  }

  /** `for item in items: player[item] += 1`. */
  function Credited(player: Counts, ks: seq<Kind>): (r: Counts)
    requires forall k :: k in ks ==> k in player
  {
    map k | k in player :: player[k] + multiset(ks)[k]
  }

  method Credit(player: Counts, ks: seq<Kind>) returns (r: Counts)
    requires forall k :: k in ks ==> k in player
    ensures r == Credited(player, ks)
  {
    r := player;
    var i := 0;
    while i < |ks|
      invariant 0 <= i <= |ks|
      invariant r == Credited(player, ks[..i])
    {
      CreditedPrefix(player, ks, i);
      r := r[ks[i] := r[ks[i]] + 1];
      i := i + 1;
    }
    assert ks[..i] == ks;
  }

  /** Crediting one more kind of `ks` adds one to its count. */
  lemma CreditedPrefix(player: Counts, ks: seq<Kind>, i: nat)
    requires forall k :: k in ks ==> k in player
    requires i < |ks|
    ensures Credited(player, ks[..i + 1]) == Credited(player, ks[..i])[ks[i] := Credited(player, ks[..i])[ks[i]] + 1]
  {
    assert ks[..i + 1] == ks[..i] + [ks[i]];
    CreditedStep(player, ks[..i], ks[i]);
  }

  /** Crediting one more kind adds one to its count. */
  lemma CreditedStep(player: Counts, ks: seq<Kind>, k: Kind)
    requires forall j :: j in ks ==> j in player
    requires k in player
    ensures Credited(player, ks + [k]) == Credited(player, ks)[k := Credited(player, ks)[k] + 1]
  {
    var c := Credited(player, ks);
    assert multiset(ks + [k]) == multiset(ks) + multiset{k};
    assert forall j :: j in player ==> Credited(player, ks + [k])[j] == c[k := c[k] + 1][j];
  }

  /** A player credited with |ks| items holds |ks| more. */
  lemma {:induction false} ItemCountCredited(player: Counts, ks: seq<Kind>, order: seq<Kind>)
    requires Covers(player, order) && Distinct(order)
    requires forall k :: k in ks ==> k in order
    ensures ItemCount(Credited(player, ks), order) == ItemCount(player, order) + |ks|
    decreases |ks|
  {
    if ks == [] {
      assert Credited(player, ks) == player;
    } else {
      var last := ks[|ks| - 1];
      var init := ks[..|ks| - 1];
      assert ks == init + [last];
      ItemCountCredited(player, init, order);
      var c := Credited(player, init);
      CreditedStep(player, init, last);
      ItemCountBump(c, order, last, 1);
    }
  }
}
