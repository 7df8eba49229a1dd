/** Greatest common divisor by repeated subtraction. */
module Gcd {
  function Product(d: int, q: int): int {
    d * q
  }

  ghost predicate Divides(d: int, x: int) {
    exists q: int :: Product(d, q) == x
  }

  /** `g` is an integer combination of `a` and `b`. */
  ghost predicate Combination(g: int, a: int, b: int) {
    exists x: int, y: int :: Product(a, x) + Product(b, y) == g
  }

  /** `g` divides both and is divisible by every common divisor. */
  ghost predicate IsGcd(g: int, a: int, b: int) {
    && Divides(g, a) && Divides(g, b)
    && forall d: int :: Divides(d, a) && Divides(d, b) ==> Divides(d, g)
  }

  function Abs(x: int): nat {
    if x < 0 then -x else x
  }

  lemma Difference(d: int, q: int, p: int)
    ensures Product(d, q - p) == Product(d, q) - Product(d, p)
  {
  }

  lemma DividesDifference(d: int, x: int, y: int)
    requires Divides(d, x) && Divides(d, y)
    ensures Divides(d, x - y)
  {
    var q :| Product(d, q) == x;
    var p :| Product(d, p) == y;
    Difference(d, q, p);
  }

  lemma DividesBack(d: int, x: int, y: int)
    requires Divides(d, x - y) && Divides(d, y)
    ensures Divides(d, x)
  {
    var q :| Product(d, q) == x - y;
    var p :| Product(d, p) == y;
    Difference(d, q, -p);
    assert Product(d, -p) == -Product(d, p);
    assert Product(d, q - (-p)) == x;
  }

  lemma CombinationDifference(g: int, h: int, a: int, b: int)
    requires Combination(g, a, b) && Combination(h, a, b)
    ensures Combination(g - h, a, b)
  {
    var x, y :| Product(a, x) + Product(b, y) == g;
    var u, v :| Product(a, u) + Product(b, v) == h;
    Difference(a, x, u);
    Difference(b, y, v);
    assert Product(a, x - u) + Product(b, y - v) == g - h;
  }

  lemma Trivial(a: int, b: int)
    ensures Divides(a, a) && Divides(a, 0)
    ensures Combination(a, a, b) && Combination(b, a, b)
  {
    assert Product(a, 1) == a && Product(a, 0) == 0 && Product(b, 0) == 0 && Product(b, 1) == b;
    assert Product(a, 1) + Product(b, 0) == a;
    assert Product(a, 0) + Product(b, 1) == b;
  }

  /** The common divisors of `c` and `d` are those of `a` and `b`. */
  ghost predicate SameDivisors(c: int, d: int, a: int, b: int) {
    forall k: int :: Divides(k, c) && Divides(k, d) <==> Divides(k, a) && Divides(k, b)
  }

  lemma SubtractSecond(c: int, d: int, a: int, b: int)
    requires SameDivisors(c, d, a, b)
    ensures SameDivisors(c - d, d, a, b)
  {
    forall k: int ensures Divides(k, c - d) && Divides(k, d) <==> Divides(k, c) && Divides(k, d) {
      if Divides(k, c) && Divides(k, d) {
        DividesDifference(k, c, d);
      }
      if Divides(k, c - d) && Divides(k, d) {
        DividesBack(k, c, d);
      }
    }
  }

  lemma Swap(c: int, d: int, a: int, b: int)
    requires SameDivisors(c, d, a, b)
    ensures SameDivisors(d, c, a, b)
  {
  }

  lemma SameAtStart(a: int, b: int)
    ensures SameDivisors(a, b, a, b)
  {
  }

  lemma GcdAtEnd(c: int, a: int, b: int)
    requires SameDivisors(c, 0, a, b)
    ensures IsGcd(c, a, b)
  {
    Trivial(c, 0);
  }

  /** The arguments on which the loop comes to an end. */
  predicate Halts(a: int, b: int) {
    a == 0 || b == 0 || (a > 0 && b > 0) || a == b
  }

  /** The result divides both arguments, is divisible by every common divisor and is a combination
      of the two; it takes at most |a| + |b| rounds. Arguments that are not negative give a result
      that is not negative. */
  method Gcd(a: int, b: int) returns (r: int, ghost rounds: nat)
    requires Halts(a, b)
    ensures IsGcd(r, a, b) && Combination(r, a, b)
    ensures a >= 0 && b >= 0 ==> r >= 0
    ensures rounds <= Abs(a) + Abs(b)
    ensures a != 0 ==> Iterate(a, b, rounds) == (r, 0)
    ensures a == 0 ==> r == b
  {
    var c := a;
    var d := b;
    rounds := 0;
    Trivial(a, b);
    SameAtStart(a, b);
    if c == 0 {
      Swap(a, b, a, b);
      GcdAtEnd(b, a, b);
      return d, 0;
    }
    hide SameDivisors, Combination, IsGcd;
    while d != 0
      invariant c != 0 && (d == 0 || (c > 0 && d > 0) || c == d)
      invariant a >= 0 && b >= 0 ==> c >= 0
      invariant SameDivisors(c, d, a, b)
      invariant Combination(c, a, b) && Combination(d, a, b)
      invariant rounds + Abs(c) + Abs(d) <= Abs(a) + Abs(b)
      invariant Iterate(a, b, rounds) == (c, d)
      decreases Abs(c) + Abs(d)
    {
      if c > d {
        SubtractSecond(c, d, a, b);
        CombinationDifference(c, d, a, b);
        c := c - d;
      } else {
        Swap(c, d, a, b);
        SubtractSecond(d, c, a, b);
        Swap(d - c, c, a, b);
        CombinationDifference(d, c, a, b);
        d := d - c;
      }
      rounds := rounds + 1;
    }
    GcdAtEnd(c, a, b);
    return c, rounds;
  }

  // ---------- the loop as a function ----------

  function Round(c: int, d: int): (int, int) {
    if d == 0 then (c, d) else if c > d then (c - d, d) else (c, d - c)
  }

  function Iterate(a: int, b: int, n: nat): (int, int) {
    if n == 0 then (a, b)
    else
      var (c, d) := Iterate(a, b, n - 1);
      Round(c, d)
  }

  predicate Between(a: int, x: int) {
    0 <= x <= a || a <= x <= 0
  }

  /** Where the loop ends, each variable stays between zero and its argument, so nothing overflows. */
  lemma {:induction false} InRange(a: int, b: int, n: nat)
    requires a != 0 && Halts(a, b)
    ensures Between(a, Iterate(a, b, n).0) && Between(b, Iterate(a, b, n).1)
    ensures Iterate(a, b, n).0 != 0 && Halts(Iterate(a, b, n).0, Iterate(a, b, n).1)
  {
    if n > 0 {
      InRange(a, b, n - 1);
    }
  }

  /** On other arguments the second variable never becomes zero. */
  lemma {:induction false} Diverges(a: int, b: int, n: nat)
    requires !Halts(a, b)
    ensures !Halts(Iterate(a, b, n).0, Iterate(a, b, n).1)
  {
    if n > 0 {
      Diverges(a, b, n - 1);
    }
  }

  /** The loop ends exactly when an argument is zero, both are positive, or they are equal; then
      within |a| + |b| rounds. */
  lemma HaltsExactly(a: int, b: int)
    requires a != 0
    ensures (exists n: nat :: Iterate(a, b, n).1 == 0) <==> Halts(a, b)
    ensures Halts(a, b) ==> exists n: nat :: n <= Abs(a) + Abs(b) && Iterate(a, b, n).1 == 0
  {
    if Halts(a, b) {
      var n := HaltsWithin(a, b, 0);
    }
    if n: nat :| Iterate(a, b, n).1 == 0 {
      if !Halts(a, b) {
        Diverges(a, b, n);
      }
    }
  }

  /** From opposite signs one variable moves away from zero by at least one in every round. */
  lemma {:induction false} Grows(a: int, b: int, n: nat)
    requires (a > 0 && b < 0) || (a < 0 && b > 0)
    ensures a > 0 ==> Iterate(a, b, n).0 >= a + n && Iterate(a, b, n).1 == b
    ensures a < 0 ==> Iterate(a, b, n).1 >= b + n && Iterate(a, b, n).0 == a
  {
    if n > 0 {
      Grows(a, b, n - 1);
    }
  }

  /** One round later. */
  lemma {:induction false} Shifted(a: int, b: int, n: nat)
    ensures Iterate(a, b, n + 1) == Iterate(Round(a, b).0, Round(a, b).1, n)
  {
    if n > 0 {
      Shifted(a, b, n - 1);
    } else {
      assert Iterate(a, b, 1) == Round(Iterate(a, b, 0).0, Iterate(a, b, 0).1);
    }
  }

  predicate Exceeds(a: int, b: int, n: nat, bound: int) {
    Iterate(a, b, n).0 > bound || Iterate(a, b, n).1 > bound
  }

  /** Where the loop does not end, a variable exceeds every bound. */
  lemma Unbounded(a: int, b: int, bound: int) returns (n: nat)
    requires !Halts(a, b)
    ensures Exceeds(a, b, n, bound)
  {
    n := Abs(bound) + Abs(a) + Abs(b) + 1;
    if a < 0 && b < 0 {
      var (c, d) := Round(a, b);
      Grows(c, d, n);
      Shifted(a, b, n);
      n := n + 1;
    } else {
      Grows(a, b, n);
    }
  }

  /** The values of C's int. */
  predicate IsInt(x: int) {
    -0x8000_0000 <= x < 0x8000_0000
  }

  predicate IntsAt(a: int, b: int, n: nat) {
    IsInt(Iterate(a, b, n).0) && IsInt(Iterate(a, b, n).1)
  }

  /** On C's integers the loop is free of overflow exactly on the arguments on which it ends: the
      rounds of all others leave the range, which is undefined; 1 and -1 are such a pair. With a
      first argument of zero the loop is not reached. */
  lemma DefinedExactly(a: int, b: int)
    requires a != 0 && IsInt(a) && IsInt(b)
    ensures (forall n: nat :: IntsAt(a, b, n)) <==> Halts(a, b)
    ensures !Halts(1, -1) && forall n: nat :: Iterate(1, -1, n) == (1 + n, -1)
  {
    if Halts(a, b) {
      forall n: nat ensures IntsAt(a, b, n) { InRange(a, b, n); }
    } else {
      var n := Unbounded(a, b, 0x7fff_ffff);
      assert !IntsAt(a, b, n);
    }
    forall n: nat ensures Iterate(1, -1, n) == (1 + n, -1) { OneMinusOne(n); }
  }

  lemma {:induction false} OneMinusOne(n: nat)
    ensures Iterate(1, -1, n) == (1 + n, -1)
  {
    if n > 0 {
      OneMinusOne(n - 1);
    }
  }

  lemma {:induction false} HaltsWithin(a: int, b: int, k: nat) returns (n: nat)
    requires a != 0 && Iterate(a, b, k).0 != 0 && Halts(Iterate(a, b, k).0, Iterate(a, b, k).1)
    requires k + Abs(Iterate(a, b, k).0) + Abs(Iterate(a, b, k).1) <= Abs(a) + Abs(b)
    ensures n <= Abs(a) + Abs(b) && Iterate(a, b, n).1 == 0
    decreases Abs(Iterate(a, b, k).0) + Abs(Iterate(a, b, k).1)
  {
    if Iterate(a, b, k).1 == 0 {
      n := k;
    } else {
      n := HaltsWithin(a, b, k + 1);
    }
  }
}
