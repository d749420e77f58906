/** Quotients and remainders of natural numbers by a variable divisor. */
module Division {

  const TWO64: nat := 0x1_0000_0000_0000_0000

  lemma Monotone(a: nat, b: nat, n: nat)
    requires a <= b
    ensures a * n <= b * n
  {
  }

  /** Quotient and remainder are unique. */
  lemma Unique(k: nat, m: nat, q: nat, r: nat, n: nat)
    requires k * n + m == q * n + r && m < n && r < n
    ensures k == q && m == r
  {
    if k > q {
      Monotone(q + 1, k, n);
    } else if k < q {
      Monotone(k + 1, q, n);
    }
  }

  lemma QuotientBounds(a: nat, n: nat)
    requires n > 0
    ensures (a / n) * n <= a < (a / n) * n + n
  {
    assert a == (a / n) * n + a % n;
  }

  lemma ModOf(q: nat, n: nat, r: nat)
    requires r < n
    ensures (q * n + r) / n == q && (q * n + r) % n == r
  {
    var x := q * n + r;
    Unique(x / n, x % n, q, r, n);
  }

  lemma Distributes(j: nat, q: nat, n: nat)
    ensures (j + q) * n == j * n + q * n
  {
  }

  lemma ShiftedBy(j: nat, n: nat, m: nat)
    requires n > 0
    ensures (j * n + m) / n == j + m / n && (j * n + m) % n == m % n
  {
    var q, r := m / n, m % n;
    assert m == q * n + r;
    Distributes(j, q, n);
    ModOf(j + q, n, r);
  }

  lemma NextMod(v: nat, n: nat)
    requires n > 0
    ensures (v + 1) % n == if v % n + 1 == n then 0 else v % n + 1
    ensures (v + 1) / n == if v % n + 1 == n then v / n + 1 else v / n
  {
    var q, r := v / n, v % n;
    assert v == q * n + r;
    if r + 1 == n {
      assert v + 1 == (q + 1) * n;
      ModOf(q + 1, n, 0);
    } else {
      ModOf(q, n, r + 1);
    }
  }

  lemma SumOfResidues(q: nat, r: nat, p: nat, s: nat, n: nat)
    requires r < n && s < n
    ensures (q * n + r + (p * n + s)) % n == if r + s < n then r + s else r + s - n
  {
    Distributes(q, p, n);
    if r + s < n {
      ModOf(q + p, n, r + s);
    } else {
      Distributes(q + p, 1, n);
      ModOf(q + p + 1, n, r + s - n);
    }
  }

  lemma Split(a: nat, n: nat) returns (q: nat, r: nat)
    requires n > 0
    ensures a == q * n + r && r < n && a % n == r
  {
    q, r := a / n, a % n;
  }

  lemma SameResidue(a: nat, d: nat, n: nat)
    requires n > 0
    ensures a % n == (a + d) % n <==> d % n == 0
  {
    var q, r := Split(a, n);
    var p, s := Split(d, n);
    SumOfResidues(q, r, p, s, n);
  }
}
