/** Shell sequences: which orders of live and blank shells a round can load.

    Every board builds a round as a fixed number of live and blank shells put
    in random order (`random.shuffle`, or `random.choice` over all
    arrangements in cli_game.py).  Randomness is not modelled; instead the
    outcome is "arrangement number k", where the arrangements of x live shells
    among n are numbered 0 .. Choose(n, x) - 1 in the order
    `itertools.combinations` lists the positions of the live shells.  Unrank
    and Rank convert between numbers and arrangements, and are inverse. */
module Shells {
  import opened Common

  /** Arrangement number k of x live shells among n: the ones with a live
      shell in front come first (there are Choose(n - 1, x - 1) of them),
      which is the lexicographic order of the sets of live positions. */
  function Unrank(x: nat, n: nat, k: nat): (r: seq<bool>)
    requires k < Choose(n, x)
    ensures |r| == n && CountTrue(r) == x
    decreases n
  {
    if n == 0 then
      assert x == 0;
      []
    else if k < LiveFirst(x, n) then
      [true] + Unrank(x - 1, n - 1, k)
    else
      [false] + Unrank(x, n - 1, k - LiveFirst(x, n))
  }

  /** How many arrangements of x live shells among n > 0 start with a live one. */
  function LiveFirst(x: nat, n: nat): (r: nat)
    requires n > 0
    ensures r + Choose(n - 1, x) == Choose(n, x)
  {
    if x > 0 then Choose(n - 1, x - 1) else 0
  }

  /** The number of an arrangement: the inverse of Unrank. */
  function Rank(s: seq<bool>): (r: nat)
    ensures r < Choose(|s|, CountTrue(s))
  {
    if s == [] then 0
    else if s[0] then
      assert CountTrue(s) == CountTrue(s[1..]) + 1;
      ChooseMonotone(|s| - 1, CountTrue(s[1..]));
      Rank(s[1..])
    else
      LiveFirst(CountTrue(s), |s|) + Rank(s[1..])
  }

  lemma ChooseMonotone(m: nat, y: nat)
    ensures Choose(m, y) <= Choose(m + 1, y + 1)
  {
  }

  /** Numbering an arrangement and unranking the number gives it back. */
  lemma {:induction false} UnrankRank(s: seq<bool>)
    ensures Unrank(CountTrue(s), |s|, Rank(s)) == s
  {
    if s != [] {
      var rest := s[1..];
      UnrankRank(rest);
      assert s == [s[0]] + rest;
      if s[0] {
        assert CountTrue(s) == CountTrue(rest) + 1;
        ChooseMonotone(|rest|, CountTrue(rest));
      } else {
        assert CountTrue(s) == CountTrue(rest);
      }
    }
  }

  /** Unranking a number and numbering the arrangement gives it back. */
  lemma {:induction false} RankUnrank(x: nat, n: nat, k: nat)
    requires k < Choose(n, x)
    ensures Rank(Unrank(x, n, k)) == k
    decreases n
  {
    if n > 0 {
      var s := Unrank(x, n, k);
      if k < LiveFirst(x, n) {
        RankUnrank(x - 1, n - 1, k);
        assert s[1..] == Unrank(x - 1, n - 1, k);
      } else {
        RankUnrank(x, n - 1, k - LiveFirst(x, n));
        assert s[1..] == Unrank(x, n - 1, k - LiveFirst(x, n));
      }
    }
  }

  /** Different numbers give different arrangements. */
  lemma UnrankInjective(x: nat, n: nat, i: nat, j: nat)
    requires i < Choose(n, x) && j < Choose(n, x) && i != j
    ensures Unrank(x, n, i) != Unrank(x, n, j)
  {
    RankUnrank(x, n, i);
    RankUnrank(x, n, j);
  }

  /** Every sequence with x live shells among n is some arrangement. */
  lemma UnrankSurjective(s: seq<bool>)
    ensures exists k: nat :: k < Choose(|s|, CountTrue(s)) && Unrank(CountTrue(s), |s|, k) == s
  {
    UnrankRank(s);
  }

  /** a comes before b in the order of their sets of live positions: at the
      first position where they differ, a has the live shell. */
  predicate LiveEarlier(a: seq<bool>, b: seq<bool>) {
    a != [] && b != [] && ((a[0] && !b[0]) || (a[0] == b[0] && LiveEarlier(a[1..], b[1..])))
  }

  /** Arrangements come in the order `itertools.combinations` lists their
      sets of live positions. */
  lemma {:induction false} UnrankOrdered(x: nat, n: nat, i: nat, j: nat)
    requires i < j < Choose(n, x)
    ensures LiveEarlier(Unrank(x, n, i), Unrank(x, n, j))
    decreases n
  {
    if n == 0 {
      assert false;
    }
    var lf := LiveFirst(x, n);
    var a, b := Unrank(x, n, i), Unrank(x, n, j);
    if j < lf {
      UnrankOrdered(x - 1, n - 1, i, j);
      assert a[1..] == Unrank(x - 1, n - 1, i) && b[1..] == Unrank(x - 1, n - 1, j);
    } else if i >= lf {
      UnrankOrdered(x, n - 1, i - lf, j - lf);
      assert a[1..] == Unrank(x, n - 1, i - lf) && b[1..] == Unrank(x, n - 1, j - lf);
    }
  }

  function Factorial(n: nat): (r: nat)
    ensures r >= 1
  {
    if n == 0 then 1 else n * Factorial(n - 1)
  }

  /** Pascal's rule. */
  function Choose(n: nat, x: nat): nat
    decreases n
  {
    if x == 0 then 1
    else if n == 0 then 0
    else Choose(n - 1, x - 1) + Choose(n - 1, x)
  }

  lemma {:induction false} ChooseAbove(n: nat, x: nat)
    requires x > n
    ensures Choose(n, x) == 0
    decreases n
  {
    if n > 0 {
      ChooseAbove(n - 1, x - 1);
      ChooseAbove(n - 1, x);
    }
  }

  /** The arithmetic of Pascal's rule on factorials: with a (x-1)! y! == f
      and b x! (y-1)! == f, (a + b) x! y! == (x + y) f. */
  lemma PascalFactorials(a: int, b: int, x: int, y: int, u: int, v: int, f: int)
    requires a * (u * (y * v)) == f
    requires b * ((x * u) * v) == f
    ensures (a + b) * ((x * u) * (y * v)) == (x + y) * f
  {
    var p := u * v;
    assert a * (u * (y * v)) == a * y * p;
    assert b * ((x * u) * v) == b * x * p;
    assert (a + b) * ((x * u) * (y * v)) == (a + b) * (x * y * p);
    assert (a + b) * (x * y * p) == x * (a * y * p) + y * (b * x * p);
  }

  /** n choose x times x! (n-x)! is n!, so the factorial quotient is exact. */
  lemma {:induction false} ChooseFactorial(n: nat, x: nat)
    requires x <= n
    ensures Choose(n, x) * (Factorial(x) * Factorial(n - x)) == Factorial(n)
    decreases n
  {
    if x == 0 {
      assert Factorial(n - x) == Factorial(n);
    } else if x == n {
      ChooseAbove(n - 1, x);
      ChooseFactorial(n - 1, x - 1);
      assert Choose(n, x) == Choose(n - 1, x - 1);
      assert Factorial(n - x) == 1;
    } else {
      var y: nat := n - x;
      var x1: nat := x - 1;
      var y1: nat := y - 1;
      var n1: nat := n - 1;
      ChooseFactorial(n1, x1);
      ChooseFactorial(n1, x);
      assert n1 - x1 == y && n1 - x == y1;
      var u, v := Factorial(x1), Factorial(y1);
      assert Factorial(x) == x * u;
      assert Factorial(y) == y * v;
      PascalFactorials(Choose(n1, x1), Choose(n1, x), x, y, u, v, Factorial(n1));
    }
  }

  lemma DivExact(c: int, d: int)
    requires d > 0
    ensures (c * d) / d == c
  {
    var q, r := (c * d) / d, (c * d) % d;
    assert (c - q) * d == r;
    if c - q >= 1 { MulAtLeast(c - q, d); }
    else if c - q <= -1 { MulAtLeast(q - c, d); }
  }

  lemma MulAtLeast(a: int, d: int)
    requires a >= 1 && d > 0
    ensures a * d >= d
  {
  }

  /** The factorial quotient `n! // (x! (n-x)!)` is n choose x. */
  lemma FactorialQuotient(n: nat, x: nat)
    requires x <= n
    ensures Factorial(n) / (Factorial(x) * Factorial(n - x)) == Choose(n, x)
  {
    ChooseFactorial(n, x);
    DivExact(Choose(n, x), Factorial(x) * Factorial(n - x));
  }

  /** x of n shells can be arranged in at least one way. */
  lemma {:induction false} ChoosePositive(n: nat, x: nat)
    requires x <= n
    ensures Choose(n, x) >= 1
    decreases n
  {
    if x > 0 && x < n {
      ChoosePositive(n - 1, x);
    } else if x > 0 {
      ChoosePositive(n - 1, x - 1);
    }
  }

  /** A shuffle outcome: arrangement number `pick`, taken modulo the number
      of arrangements, of x live shells among n. */
  function Shuffled(x: nat, n: nat, pick: nat): (r: seq<bool>)
    requires x <= n
    ensures |r| == n && CountTrue(r) == x
  {
    ChoosePositive(n, x);
    Unrank(x, n, pick % Choose(n, x))
  }

  lemma ModSmall(k: int, m: int)
    requires 0 <= k < m
    ensures k % m == k
  {
  }

  /** Every order of the shells is a possible shuffle outcome. */
  lemma ShuffledCoversAll(s: seq<bool>)
    ensures exists pick: nat :: Shuffled(CountTrue(s), |s|, pick) == s
  {
    UnrankRank(s);
    ModSmall(Rank(s), Choose(|s|, CountTrue(s)));
    assert Shuffled(CountTrue(s), |s|, Rank(s)) == s;
  }
}
