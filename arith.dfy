/** Facts about integer division and remainder by a positive divisor, and about counting indices. */
module Arith {

  lemma DivMod(a: int, n: int)
    requires n > 0
    ensures a == n * (a / n) + a % n && 0 <= a % n < n
  {
  }

  lemma MulAtLeast(n: int, x: int)
    requires n > 0 && x >= 1
    ensures n * x >= n
  {
  }

  lemma MulMonotone(n: int, x: int, y: int)
    requires n >= 0 && x <= y
    ensures n * x <= n * y
  {
  }

  /** Quotient and remainder are the unique pair with `a == n * q + r` and `0 <= r < n`. */
  lemma DivModUnique(a: int, n: int, q: int, r: int)
    requires n > 0 && 0 <= r < n && a == n * q + r
    ensures a / n == q && a % n == r
  {
    DivMod(a, n);
    var d := q - a / n;
    assert n * d == a % n - r;
    if d >= 1 { MulAtLeast(n, d); }
    if d <= -1 { MulAtLeast(n, -d); }
  }

  /** `(a % n + b) % n == (a + b) % n`. */
  lemma ModAddLeft(a: int, b: int, n: int)
    requires n > 0
    ensures (a % n + b) % n == (a + b) % n
  {
    DivMod(a, n);
    DivMod(a % n + b, n);
    var q1, q2 := a / n, (a % n + b) / n;
    assert a + b == n * (q1 + q2) + (a % n + b) % n;
    DivModUnique(a + b, n, q1 + q2, (a % n + b) % n);
  }

  /** Adding a multiple of `n` adds its quotient: `(n * k + b) / n == k + b / n`, same remainder. */
  lemma DivAddMultiple(k: int, b: int, n: int)
    requires n > 0
    ensures (n * k + b) / n == k + b / n
    ensures (n * k + b) % n == b % n
  {
    DivMod(b, n);
    assert n * k + b == n * (k + b / n) + b % n;
    DivModUnique(n * k + b, n, k + b / n, b % n);
  }

  /** A set of indices below `n` has at most `n` members. */
  lemma {:induction false} IndexSetBound(s: set<nat>, n: nat)
    requires forall x :: x in s ==> x < n
    ensures |s| <= n
    decreases n
  {
    if n > 0 {
      var rest := s - {n - 1};
      IndexSetBound(rest, n - 1);
      assert s <= rest + {n - 1};
    } else {
      assert s == {};
    }
  }
}
