/** Offset and limit pages of a fixed list, and the page count computed in floating point
    (user_repo.go List, user_usecase.go ListUsers). */
module Paging {
  import opened Arithmetic

  const TWO_63: int := 0x8000_0000_0000_0000
  const TWO_53: int := 0x20_0000_0000_0000

  /** The value a Go int keeps of an integer: 64 bits, two's complement. */
  function Wrap(x: int): int {
    (x + TWO_63) % (2 * TWO_63) - TWO_63
  }

  lemma WrapFits(x: int)
    ensures -TWO_63 <= x < TWO_63 <==> Wrap(x) == x
  {
  }

  function Start(page: int, limit: int): int {
    (page - 1) * limit
  }

  /** (Page - 1) * Limit in Go's int. */
  function Offset(page: int, limit: int): int {
    Wrap(Start(page, limit))
  }

  function ClampPage(page: int): int {
    if page < 1 then 1 else page
  }

  /** The repository's clamp, which has no upper bound. */
  function ClampLimit(limit: int): int {
    if limit < 1 then 10 else limit
  }

  /** The use case's clamp. */
  function ClampLimitTo100(limit: int): int {
    if limit < 1 then 10 else if limit > 100 then 100 else limit
  }

  /** The use case's clamp lands in 1 to 100 and is a fixed point of the repository's, which only has a floor. */
  lemma Clamps(page: int, limit: int)
    ensures 1 <= ClampLimitTo100(limit) <= 100 && (1 <= limit <= 100 ==> ClampLimitTo100(limit) == limit)
    ensures (limit > 100 ==> ClampLimitTo100(limit) == 100) && (limit < 1 ==> ClampLimitTo100(limit) == 10)
    ensures ClampLimit(ClampLimitTo100(limit)) == ClampLimitTo100(limit)
    ensures ClampLimit(limit) == if limit < 1 then 10 else limit
    ensures ClampPage(page) == if page < 1 then 1 else page
    ensures ClampPage(ClampPage(page)) == ClampPage(page) && ClampLimit(ClampLimit(limit)) == ClampLimit(limit)
  {
  }

  function Min(a: int, b: int): int {
    if a < b then a else b
  }

  /** Rows from an offset on, at most limit of them: SQL's LIMIT and OFFSET. */
  function Slice<T>(rows: seq<T>, offset: nat, limit: nat): seq<T> {
    rows[Min(offset, |rows|)..Min(offset + limit, |rows|)]
  }

  /** The rows List returns for a page: none when the wrapped offset is negative, which the
      database rejects. */
  function PageOf<T>(rows: seq<T>, page: int, limit: int): (r: seq<T>)
    requires page >= 1 && limit >= 1
  {
    var offset := Offset(page, limit);
    if offset < 0 then [] else Slice(rows, offset, limit)
  }

  function CeilDiv(n: nat, d: nat): nat
    requires d > 0
  {
    if n % d == 0 then n / d else n / d + 1
  }

  /** Pages 1 to n, one after another. */
  function FirstPages<T>(rows: seq<T>, limit: int, n: nat): seq<T>
    requires limit >= 1
  {
    if n == 0 then [] else FirstPages(rows, limit, n - 1) + PageOf(rows, n, limit)
  }

  lemma CeilDivBounds(n: nat, d: nat)
    requires d > 0
    ensures n <= CeilDiv(n, d) * d < n + d
  {
    assert n == n / d * d + n % d;
    assert (n / d + 1) * d == n / d * d + d;
  }

  lemma StartNext(page: int, limit: int)
    ensures Start(page + 1, limit) == Start(page, limit) + limit == page * limit
  {
  }

  /** Where pages start, against the number of rows. */
  lemma Starts(rows: nat, limit: nat, page: nat)
    requires 1 <= limit && 1 <= page
    ensures Start(page, limit) >= 0
    ensures page <= CeilDiv(rows, limit) <==> Start(page, limit) < rows
    ensures page == CeilDiv(rows, limit) + 1 ==> rows <= Start(page, limit) < rows + limit
  {
    var n := CeilDiv(rows, limit);
    CeilDivBounds(rows, limit);
    MulMonotone(0, page - 1, limit);
    if page <= n {
      MulMonotone(page, n, limit);
      StartNext(page, limit);
    } else {
      MulMonotone(n, page - 1, limit);
    }
  }

  /** The offset of a page that has rows does not overflow; nor does that of the page after the last, if
      it is below 2^63. */
  lemma OffsetFits(rows: nat, limit: nat, page: nat)
    requires rows < TWO_63 && 1 <= limit && 1 <= page <= CeilDiv(rows, limit) + 1
    ensures page <= CeilDiv(rows, limit) ==> Offset(page, limit) == Start(page, limit) < rows
    ensures Offset(page, limit) == Start(page, limit) <==> Start(page, limit) < TWO_63
  {
    hide CeilDiv, Start, Wrap;
    Starts(rows, limit, page);
    WrapFits(Start(page, limit));
  }

  lemma {:induction false} FirstPagesArePrefix<T>(rows: seq<T>, limit: nat, n: nat)
    requires 1 <= limit && |rows| < TWO_63 && n <= CeilDiv(|rows|, limit)
    ensures FirstPages(rows, limit, n) == rows[..Min(n * limit, |rows|)]
  {
    hide Offset, CeilDiv, Start;
    if n > 0 {
      FirstPagesArePrefix(rows, limit, n - 1);
      OffsetFits(|rows|, limit, n);
      Starts(|rows|, limit, n);
      StartNext(n, limit);
      StartNext(n - 1, limit);
      AppendSlice(rows, Start(n, limit), limit);
    }
  }

  lemma AppendSlice<T>(rows: seq<T>, start: nat, limit: nat)
    requires start <= |rows|
    ensures rows[..Min(start, |rows|)] + Slice(rows, start, limit) == rows[..Min(start + limit, |rows|)]
  {
  }

  /** Pages 1 to the page count give the list exactly once, in order. */
  lemma PagesPartition<T>(rows: seq<T>, limit: nat)
    requires 1 <= limit && |rows| < TWO_63
    ensures FirstPages(rows, limit, CeilDiv(|rows|, limit)) == rows
  {
    hide CeilDiv;
    FirstPagesArePrefix(rows, limit, CeilDiv(|rows|, limit));
    CeilDivBounds(|rows|, limit);
  }

  /** Every page before the last is full, the last is not empty, and each holds the rows from its start on. */
  lemma PageContents<T>(rows: seq<T>, limit: nat, page: nat)
    requires 1 <= limit && |rows| < TWO_63 && 1 <= page <= CeilDiv(|rows|, limit)
    ensures var p, start := PageOf(rows, page, limit), Start(page, limit);
            && (page < CeilDiv(|rows|, limit) ==> |p| == limit)
            && 1 <= |p| <= limit
            && forall k :: 0 <= k < |p| ==> 0 <= start + k < |rows| && p[k] == rows[start + k]
  {
    hide Offset, CeilDiv, Start;
    OffsetFits(|rows|, limit, page);
    Starts(|rows|, limit, page);
    Starts(|rows|, limit, page + 1);
    StartNext(page, limit);
  }

  /** A page past the last is empty if and only if its offset, wrapped to 64 bits, does not fall
      back inside the list. */
  lemma PagesPastTheEnd<T>(rows: seq<T>, limit: nat, page: nat)
    requires 1 <= limit && page > CeilDiv(|rows|, limit)
    ensures PageOf(rows, page, limit) == [] <==> !(0 <= Offset(page, limit) < |rows|)
    ensures Start(page, limit) < TWO_63 ==> PageOf(rows, page, limit) == []
  {
    hide CeilDiv, Start, Wrap;
    Starts(|rows|, limit, page);
    WrapFits(Start(page, limit));
  }

  /** It can fall back inside: page 2^62 + 1 of four rows each is page 1 again. */
  lemma HugePageWrapsAround<T>(row: T)
    ensures PageOf([row], 0x4000_0000_0000_0001, 4) == [row]
  {
    assert Offset(0x4000_0000_0000_0001, 4) == 0;
    hide Offset;
  }

  // ---------- the floating-point page count ----------

  ghost predicate Monotone(rnd: real -> real) {
    forall x, y :: x <= y ==> rnd(x) <= rnd(y)
  }

  ghost predicate FixesIntegers(rnd: real -> real) {
    forall n: int {:trigger rnd(n as real)} :: -TWO_53 <= n <= TWO_53 ==> rnd(n as real) == n as real
  }

  /** Relative error at most 2^-53 on the positive reals. */
  ghost predicate Precise(rnd: real -> real) {
    forall x {:trigger rnd(x)} :: x > 0.0 ==>
      (rnd(x) - x) * (TWO_53 as real) <= x && (x - rnd(x)) * (TWO_53 as real) <= x
  }

  /** What binary64 rounding to nearest (section 4.3 of IEEE 754-2008) satisfies. */
  ghost predicate Rounding(rnd: real -> real) {
    Monotone(rnd) && FixesIntegers(rnd) && Precise(rnd)
  }

  function Ceil(x: real): int {
    -((-x).Floor)
  }

  /** int(math.Ceil(float64(total) / float64(limit))) */
  function FloatPages(rnd: real -> real, total: int, limit: int): int
    requires limit >= 1
    requires rnd(limit as real) != 0.0
  {
    Ceil(rnd(rnd(total as real) / rnd(limit as real)))
  }

  lemma QuotientBounds(total: nat, limit: nat)
    requires limit >= 1
    ensures var q, m := total as real / limit as real, total / limit;
            && m as real <= q && q * limit as real == total as real
            && (total % limit == 0 ==> q == m as real)
            && (total % limit != 0 ==> q <= (m + 1) as real && (q - m as real) * limit as real >= 1.0)
  {
    var q, m := total as real / limit as real, total / limit;
    assert q * limit as real == total as real;
    assert total == m * limit + total % limit;
    assert (q - m as real) * limit as real == (total % limit) as real;
    assert ((m + 1) as real - q) * limit as real == (limit - total % limit) as real;
  }

  lemma GapExceedsError(d: real, q: real, l: real, total: real, two: real)
    requires l > 0.0 && 0.0 < q * l == total < two && d * l >= 1.0
    ensures d * two > q
  {
    assert (d * two) * l == (d * l) * two >= two;
    assert (d * two - q) * l > 0.0;
  }

  /** An inexact quotient is not rounded down to the integer below it. */
  lemma RoundsAbove(rnd: real -> real, q: real, m: nat, total: nat, limit: nat)
    requires Precise(rnd) && 0 < total < TWO_53 && limit >= 1
    requires q > 0.0 && q * limit as real == total as real && (q - m as real) * limit as real >= 1.0
    ensures rnd(q) > m as real
  {
    GapExceedsError(q - m as real, q, limit as real, total as real, TWO_53 as real);
    assert (q - rnd(q)) * (TWO_53 as real) <= q;
  }

  /** A rounded value strictly between m and m + 1, or rounded up to m + 1, has ceiling m + 1. */
  lemma CeilRoundedUp(rnd: real -> real, q: real, m: int)
    requires Rounding(rnd) && -TWO_53 <= m < TWO_53 && q <= (m + 1) as real && rnd(q) > m as real
    ensures Ceil(rnd(q)) == m + 1
  {
    hide Precise;
    assert rnd((m + 1) as real) == (m + 1) as real;
    assert rnd(q) <= rnd((m + 1) as real);
  }

  lemma CeilOfInteger(rnd: real -> real, m: int)
    requires FixesIntegers(rnd) && -TWO_53 <= m <= TWO_53
    ensures Ceil(rnd(m as real)) == m
  {
  }

  lemma CeilOfRounded(rnd: real -> real, total: nat, limit: nat)
    requires Rounding(rnd) && 0 < total < TWO_53 && limit >= 1
    ensures Ceil(rnd(total as real / limit as real)) == CeilDiv(total, limit)
  {
    hide Rounding, Monotone, FixesIntegers, Precise, Ceil;
    var q, m := total as real / limit as real, total / limit;
    QuotientBounds(total, limit);
    assert m <= total by { MulMonotone(1, limit, m); }
    assert FixesIntegers(rnd) && Precise(rnd) by { RoundingParts(rnd); }
    if total % limit == 0 {
      CeilOfInteger(rnd, m);
    } else {
      assert q > 0.0;
      RoundsAbove(rnd, q, m, total, limit);
      CeilRoundedUp(rnd, q, m);
    }
  }

  lemma RoundingParts(rnd: real -> real)
    requires Rounding(rnd)
    ensures Monotone(rnd) && FixesIntegers(rnd) && Precise(rnd)
  {
  }

  /** The floating-point count is the integer one, for every row count below 2^53. */
  lemma FloatPagesExact(rnd: real -> real, total: nat, limit: nat)
    requires Rounding(rnd) && 0 < total < TWO_53 && 1 <= limit <= 100
    ensures rnd(limit as real) != 0.0
    ensures FloatPages(rnd, total, limit) == CeilDiv(total, limit)
  {
    assert rnd(total as real) == total as real;
    assert rnd(limit as real) == limit as real;
    CeilOfRounded(rnd, total, limit);
  }

  /** The same with the count of an empty list, which the code leaves at 0. */
  lemma PagesCounted(rnd: real -> real, total: nat, limit: nat)
    requires Rounding(rnd) && total < TWO_53 && 1 <= limit <= 100
    ensures rnd(limit as real) != 0.0
    ensures (if total > 0 then FloatPages(rnd, total, limit) else 0) == CeilDiv(total, limit)
  {
    if total > 0 {
      FloatPagesExact(rnd, total, limit);
    } else {
      assert rnd(limit as real) == limit as real;
    }
  }

  /** Above 2^53 the count can be wrong: for 2^53 + 1 rows, one a page, rounding to the even neighbour
      loses a page. */
  lemma FloatPagesInexactAbove(rnd: real -> real)
    requires Rounding(rnd) && rnd((TWO_53 + 1) as real) == TWO_53 as real
    ensures rnd(1 as real) != 0.0
    ensures FloatPages(rnd, TWO_53 + 1, 1) == CeilDiv(TWO_53 + 1, 1) - 1
  {
    assert rnd(1 as real) == 1 as real;
    assert rnd(TWO_53 as real) == TWO_53 as real;
  }
}
