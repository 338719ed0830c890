/** Values shared by every part of the model: optional values, the Python
    exceptions the game raises, and results that carry either a value or one
    of those exceptions. */
module Common {

  datatype Option<+T> = None | Some(value: T)

  /** The Python exception classes raised by the game code. */
  datatype Error =
    | ValueError
    | IndexError
    | KeyError
    | TypeError
    | RuntimeError
    | AssertionError
    | UnboundLocalError

  /** A call either returns a value or raises one of the errors above. */
  datatype Result<+T> = Ok(value: T) | Err(error: Error)

  /** A value `make_move` reports: None, a number, a shell, a position and
      the shell found there, or the string "INVALID_MOVE" of the
      single-player board. */
  datatype Info = Nothing | Num(n: int) | Shell(isLive: bool) | Peek(index: int, isLive: bool) | Invalid

  /** Python's `l[i]` on a list of length n: a negative index counts from the
      end; anything outside [-n, n) raises IndexError (None here). */
  function PyIndex(i: int, n: nat): (r: Option<nat>)
    ensures r.Some? <==> -(n as int) <= i < n
    ensures r.Some? ==> r.value < n && (r.value - i) % n == 0
  {
    if 0 <= i < n then Some(i)
    else if -(n as int) <= i < 0 then Some(i + n)
    else None
  }

  function Min(a: int, b: int): (r: int)
    ensures r <= a && r <= b && (r == a || r == b)
  {
    if a <= b then a else b
  }

  function Max(a: int, b: int): (r: int)
    ensures r >= a && r >= b && (r == a || r == b)
  {
    if a >= b then a else b
  }

  /** Number of live (true) shells in a shell sequence: Python's `sum(shotgun)`. */
  function CountTrue(s: seq<bool>): (r: nat)
    ensures r <= |s|
  {
    if s == [] then 0 else (if s[0] then 1 else 0) + CountTrue(s[1..])
  }

  lemma {:induction false} CountTrueAppend(a: seq<bool>, b: seq<bool>)
    ensures CountTrue(a + b) == CountTrue(a) + CountTrue(b)
  {
    if a == [] {
      assert a + b == b;
    } else {
      assert (a + b)[1..] == a[1..] + b;
      CountTrueAppend(a[1..], b);
    }
  }

  /** Flipping the front shell (the inverter) changes the live count by one. */
  lemma CountTrueFlipFront(s: seq<bool>)
    requires |s| > 0
    ensures CountTrue(s[0 := !s[0]]) == if s[0] then CountTrue(s) - 1 else CountTrue(s) + 1
  {
    assert s[0 := !s[0]][1..] == s[1..];
  }

  /** Python's `list.remove(x)`: the list without the first occurrence of x,
      or None (a ValueError) when x does not occur. */
  function RemoveValue<T(==)>(s: seq<T>, x: T): (r: Option<seq<T>>)
    ensures r.Some? <==> x in s
    ensures r.Some? ==> |r.value| == |s| - 1 && multiset(r.value) == multiset(s) - multiset{x}
  {
    if s == [] then None
    else
      assert s == [s[0]] + s[1..];
      if s[0] == x then Some(s[1..])
      else match RemoveValue(s[1..], x)
        case None => None
        case Some(t) => Some([s[0]] + t)
  }

  /** Python's `%` with a positive divisor, like Dafny's, is determined by
      the quotient-remainder decomposition. */
  lemma ModUnique(x: int, p: int, d: int, r: int)
    requires p > 0 && 0 <= r < p && x == d * p + r
    ensures x % p == r
  {
    var q, m := x / p, x % p;
    assert (d - q) * p == m - r;
    if d - q >= 1 {
      MulGrows(d - q, p);
    } else if d - q <= -1 {
      MulGrows(q - d, p);
    }
  }

  lemma MulGrows(a: int, p: int)
    requires a >= 1 && p > 0
    ensures a * p >= p
  {
  }

  /** Adding a multiple of p does not change the remainder. */
  lemma ModAddMultiple(x: int, k: int, p: int)
    requires p > 0
    ensures (x + k * p) % p == x % p
  {
    ModUnique(x + k * p, p, x / p + k, x % p);
  }

  /** Reducing one summand first does not change the remainder. */
  lemma ModAddMod(a: int, b: int, p: int)
    requires p > 0
    ensures (a % p + b) % p == (a + b) % p
  {
    ModAddMultiple(a % p + b, a / p, p);
  }

  lemma ModOfMod(a: int, p: int)
    requires p > 0
    ensures (a % p) % p == a % p
  {
    ModUnique(a % p, p, 0, a % p);
  }

  /** Reducing the subtrahend first does not change the remainder. */
  lemma ModSubMod(b: int, a: int, p: int)
    requires p > 0
    ensures (b - a % p) % p == (b - a) % p
  {
    ModAddMultiple(b - a, a / p, p);
    assert b - a % p == (b - a) + (a / p) * p;
  }

  /** Shifting by t and back again, reducing modulo n in between. */
  lemma ShiftBack(t: int, x: int, n: int)
    requires n > 0
    ensures ((t + x) % n - t) % n == x % n
  {
    ModAddMod(t + x, -t, n);
    assert (t + x) + -t == x;
  }

  lemma ShiftForward(t: int, x: int, n: int)
    requires n > 0
    ensures (t + (x - t) % n) % n == x % n
  {
    ModAddMod(x - t, t, n);
    assert (x - t) + t == x;
  }
}
