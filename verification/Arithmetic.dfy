/** Division and remainder by a variable: the quotient and the remainder are the only ones that fit. */
module Arithmetic {
  lemma Times(n: nat, a: int, b: int)
    requires a <= b
    ensures n * a <= n * b
  {
  }

  lemma DivMod(x: int, n: nat)
    requires 0 < n
    ensures x == n * (x / n) + x % n && 0 <= x % n < n
  {
  }

  lemma SameQuotient(n: nat, q: int, q': int, r: int, r': int)
    requires 0 <= r < n && 0 <= r' < n && n * q + r == n * q' + r'
    ensures q == q' && r == r'
  {
    if q < q' {
      Times(n, q + 1, q');
    } else if q' < q {
      Times(n, q' + 1, q);
    }
  }

  lemma Unique(x: int, q: int, r: int, n: nat)
    requires 0 <= r < n && x == n * q + r
    ensures x / n == q && x % n == r
  {
    DivMod(x, n);
    SameQuotient(n, q, x / n, r, x % n);
  }

  lemma ModShift(x: int, q: int, n: nat)
    requires 0 < n
    ensures (x + n * q) % n == x % n
  {
    DivMod(x, n);
    assert x + n * q == n * (x / n + q) + x % n;
    Unique(x + n * q, x / n + q, x % n, n);
  }

  lemma ModAdd(x: int, y: int, n: nat)
    requires 0 < n
    ensures (x % n + y) % n == (x + y) % n
  {
    DivMod(x, n);
    ModShift(x % n + y, x / n, n);
  }

  /** Less than two turns: the remainder is one subtraction. */
  lemma Modulo(x: nat, n: nat)
    requires 0 < n && x < 2 * n
    ensures x % n == if x < n then x else x - n
  {
    if x < n {
      Unique(x, 0, x, n);
    } else {
      Unique(x, 1, x - n, n);
    }
  }
}
