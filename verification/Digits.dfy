/** Fixed-width positional notation, most significant digit first: big-endian bytes, base32
    groups and zero-padded decimals are all instances. */
module Digits {
  import opened Arithmetic

  predicate Below(ds: seq<nat>, base: nat) {
    forall i :: 0 <= i < |ds| ==> ds[i] < base
  }

  function Pow(base: nat, k: nat): nat {
    if k == 0 then 1 else Pow(base, k - 1) * base
  }

  function Quotient(n: nat, base: nat): (q: nat)
    requires base > 0
    ensures q * base <= n < q * base + base
  {
    if n < base then 0 else Quotient(n - base, base) + 1
  }

  function Digits(n: nat, base: nat, k: nat): (ds: seq<nat>)
    requires base > 0
    ensures |ds| == k && Below(ds, base)
  {
    if k == 0 then [] else Digits(Quotient(n, base), base, k - 1) + [n - Quotient(n, base) * base]
  }

  function Value(ds: seq<nat>, base: nat): nat {
    if ds == [] then 0 else Value(ds[..|ds| - 1], base) * base + ds[|ds| - 1]
  }

  lemma Divide(v: nat, d: nat, base: nat)
    requires d < base
    ensures Quotient(v * base + d, base) == v
  {
    SameQuotient(Quotient(v * base + d, base), v, d, base);
  }

  /** Reading back what was written gives the number, if it fits. */
  lemma {:induction false} ValueOfDigits(n: nat, base: nat, k: nat)
    requires base > 0 && n < Pow(base, k)
    ensures Value(Digits(n, base, k), base) == n
  {
    if k > 0 {
      var q, p := Quotient(n, base), Pow(base, k - 1);
      LessFromProduct(q, p, base);
      ValueOfDigits(q, base, k - 1);
      assert Digits(n, base, k)[..k - 1] == Digits(q, base, k - 1);
    }
  }

  /** Writing what was read gives the digits back. */
  lemma {:induction false} DigitsOfValue(ds: seq<nat>, base: nat)
    requires base > 0 && Below(ds, base)
    ensures Value(ds, base) < Pow(base, |ds|)
    ensures Digits(Value(ds, base), base, |ds|) == ds
  {
    if ds != [] {
      var init, last := ds[..|ds| - 1], ds[|ds| - 1];
      DigitsOfValue(init, base);
      var v, p := Value(init, base), Pow(base, |init|);
      Divide(v, last, base);
      AppendDigit(v, last, base, p);
      assert ds == init + [last];
    }
  }

  // ---------- bit masks ----------

  /** Bitwise and. */
  function BitAnd(a: nat, b: nat): nat {
    if a == 0 || b == 0 then 0 else BitAnd(a / 2, b / 2) * 2 + if a % 2 == 1 && b % 2 == 1 then 1 else 0
  }

  /** Masking with k ones takes the remainder by 2^k. */
  lemma {:induction false} MaskIsRemainder(a: nat, k: nat)
    ensures Pow(2, k) > 0 && BitAnd(a, Pow(2, k) - 1) == a % Pow(2, k)
  {
    if k > 0 {
      MaskIsRemainder(a / 2, k - 1);
      var m := Pow(2, k - 1);
      assert (2 * m - 1) / 2 == m - 1 && (2 * m - 1) % 2 == 1;
      HalfRemainder(a, m);
      if a == 0 {
        assert 0 / 2 % m * 2 + 0 % 2 == 0;
      }
    }
  }
}
