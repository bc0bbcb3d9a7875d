/** Products of naturals: the few facts that paging and positional notation need, by induction. */
module Arithmetic {

  lemma {:induction false} MulMonotone(a: nat, b: nat, c: nat)
    requires a <= b
    ensures a * c <= b * c
  {
    if a < b {
      MulMonotone(a, b - 1, c);
      assert b * c == (b - 1) * c + c;
    }
  }

  lemma LessFromProduct(a: nat, b: nat, c: nat)
    requires a * c < b * c
    ensures a < b
  {
    if b <= a {
      MulMonotone(b, a, c);
    }
  }

  /** Below p with one more digit is below p * base. */
  lemma AppendDigit(v: nat, d: nat, base: nat, p: nat)
    requires v < p && d < base
    ensures v * base + d < p * base
  {
    MulMonotone(v + 1, p, base);
    assert (v + 1) * base == v * base + base;
  }

  /** Division with remainder is unique. */
  lemma SameQuotient(q: nat, v: nat, d: nat, base: nat)
    requires d < base && q * base <= v * base + d < q * base + base
    ensures q == v
  {
    assert (v + 1) * base == v * base + base && (q + 1) * base == q * base + base;
    LessFromProduct(q, v + 1, base);
    LessFromProduct(v, q + 1, base);
  }

  lemma RemainderIs(a: nat, q: nat, r: nat, d: nat)
    requires r < d && a == q * d + r
    ensures a % d == r
  {
    assert a == a / d * d + a % d;
    SameQuotient(a / d, q, r, d);
  }

  lemma Doubled(q: nat, m: nat)
    ensures q * (2 * m) == q * m * 2
  {
  }

  lemma HalfRemainder(a: nat, m: nat)
    requires m > 0
    ensures a % (2 * m) == a / 2 % m * 2 + a % 2
  {
    var half := a / 2;
    var q, r := half / m, half % m;
    Doubled(q, m);
    assert half == q * m + r;
    RemainderIs(a, q, r * 2 + a % 2, 2 * m);
  }
}
