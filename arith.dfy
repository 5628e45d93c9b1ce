/** Facts about `/` and `%` by a variable divisor, which the solver does not find unaided. */
module Arith {

  lemma SmallMod(k: nat, n: nat)
    requires k < n
    ensures k % n == k && k / n == 0
  {
  }

  lemma {:induction false} MulAtLeast(d: nat, n: nat)
    requires d >= 1
    ensures d * n >= n
  {
    if d > 1 {
      MulAtLeast(d - 1, n);
      assert d * n == (d - 1) * n + n;
    }
  }

  /** Quotient and remainder are the unique `b`, `r` with `a == b * n + r` and `r < n`. */
  lemma DivModUnique(a: nat, b: nat, r: nat, n: nat)
    requires n > 0 && r < n && a == b * n + r
    ensures a % n == r && a / n == b
  {
    var q, m := a / n, a % n;
    assert a == q * n + m;
    if q > b {
      MulAtLeast(q - b, n);
      assert false;
    } else if q < b {
      MulAtLeast(b - q, n);
      assert false;
    }
  }

  /**
   * `i` reduced into `[0, n)` by repeated subtraction. The model indexes
   * cyclically with this rather than with `%`, which keeps non-linear terms
   * out of the larger proofs; `WrapIsMod` shows the two agree.
   */
  function Wrap(i: nat, n: nat): (r: nat)
    requires n > 0
    ensures r < n
    decreases i
  {
    if i < n then i else Wrap(i - n, n)
  }

  lemma {:induction false} WrapIsMod(i: nat, n: nat)
    requires n > 0
    ensures Wrap(i, n) == i % n
  {
    if i < n {
      SmallMod(i, n);
    } else {
      WrapIsMod(i - n, n);
      var q, r := (i - n) / n, (i - n) % n;
      assert i - n == q * n + r;
      DivModUnique(i, q + 1, r, n);
    }
  }

  /** How quotient and remainder move from `m` to `m + 1`. */
  lemma DivModSucc(m: nat, n: nat)
    requires n > 0
    ensures m % n < n - 1 ==> (m + 1) % n == m % n + 1 && (m + 1) / n == m / n
    ensures m % n == n - 1 ==> (m + 1) % n == 0 && (m + 1) / n == m / n + 1
  {
    var q, r := m / n, m % n;
    assert m == q * n + r;
    if r < n - 1 {
      DivModUnique(m + 1, q, r + 1, n);
    } else {
      assert m + 1 == (q + 1) * n;
      DivModUnique(m + 1, q + 1, 0, n);
    }
  }

  /** `(a + n - 1) / n` is the quotient rounded up. */
  lemma CeilDiv(a: nat, n: nat)
    requires n > 0
    ensures (a + n - 1) / n == a / n + (if a % n == 0 then 0 else 1)
  {
    var q, r := a / n, a % n;
    assert a == q * n + r;
    if r == 0 {
      DivModUnique(a + n - 1, q, n - 1, n);
    } else {
      assert a + n - 1 == (q + 1) * n + (r - 1);
      DivModUnique(a + n - 1, q + 1, r - 1, n);
    }
  }
}
