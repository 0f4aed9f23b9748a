/** How the client splits the byte total over its streams, in IEEE 754 double arithmetic (NewTcpMsmtClient). */
module ByteSplit {

  const TWO_TO_52: int := 0x10_0000_0000_0000
  const TWO_TO_53: int := 0x20_0000_0000_0000

  /** The integer nearest to `x`, ties to even. */
  function RoundHalfEven(x: real): int {
    var f := x.Floor;
    var d := x - f as real;
    if d < 0.5 then f else if d > 0.5 then f + 1 else if f % 2 == 0 then f else f + 1
  }

  function Scale(x: real): nat
    requires x > 0.0
  {
    if x >= TWO_TO_53 as real then x.Floor
    else if x >= 1.0 then TWO_TO_53 - x.Floor
    else TWO_TO_53 + (1.0 / x).Floor
  }

  lemma DoublingScales(x: real)
    requires 0.0 < x < TWO_TO_52 as real
    ensures 2.0 * x < TWO_TO_53 as real && Scale(2.0 * x) < Scale(x)
  {
    if x < 1.0 {
      var y := 1.0 / x;
      assert y * x == 1.0;
      assert y > 1.0;
      assert 1.0 / (2.0 * x) == y / 2.0;
    }
  }

  /**
   * Rounding a positive number to a double: 53 significant bits, nearest, ties to even.
   * Numbers outside [2^52, 2^53) are scaled by two; exponent range is no concern for byte counts.
   */
  function RoundToDouble(x: real): (r: real)
    requires x > 0.0
    decreases Scale(x)
  {
    if x >= TWO_TO_53 as real then 2.0 * RoundToDouble(x / 2.0)
    else if x < TWO_TO_52 as real then
      DoublingScales(x);
      RoundToDouble(2.0 * x) / 2.0
    else RoundHalfEven(x) as real
  }

  function Ceil(x: real): int { -((-x).Floor) }

  /** `uint(math.Ceil(float64(total) / float64(workers)))` */
  function StreamBytes(total: nat, workers: nat): int
    requires workers >= 1
  {
    if total == 0 then 0
    else
      var t, w := RoundToDouble(total as real), RoundToDouble(workers as real);
      RoundsPositive(total as real);
      RoundsPositive(workers as real);
      Ceil(RoundToDouble(t / w))
  }

  lemma {:induction false} RoundsPositive(x: real)
    requires x > 0.0
    ensures RoundToDouble(x) > 0.0
    decreases Scale(x)
  {
    if x >= TWO_TO_53 as real {
      RoundsPositive(x / 2.0);
    } else if x < TWO_TO_52 as real {
      DoublingScales(x);
      RoundsPositive(2.0 * x);
    }
  }

  /** Every integer up to 2^53 is a double. */
  lemma {:induction false} IntegersExact(k: nat)
    requires 0 < k <= TWO_TO_53
    ensures RoundToDouble(k as real) == k as real
    decreases Scale(k as real)
  {
    var x := k as real;
    if k == TWO_TO_53 {
      assert x / 2.0 == TWO_TO_52 as real;
      assert RoundToDouble(x / 2.0) == TWO_TO_52 as real;
    } else if k < TWO_TO_52 {
      DoublingScales(x);
      assert 2.0 * x == (2 * k) as real;
      IntegersExact(2 * k);
    }
  }

  /** The rounding error is strictly less than 2^-53 of the number. */
  lemma {:induction false} RelativeError(x: real)
    requires x > 0.0
    ensures -x < (RoundToDouble(x) - x) * TWO_TO_53 as real < x
    decreases Scale(x)
  {
    if x >= TWO_TO_53 as real {
      RelativeError(x / 2.0);
    } else if x < TWO_TO_52 as real {
      DoublingScales(x);
      RelativeError(2.0 * x);
    } else if x == TWO_TO_52 as real {
    } else {
      var d := RoundToDouble(x) - x;
      assert -0.5 <= d <= 0.5;
      assert -(TWO_TO_52 as real) <= d * TWO_TO_53 as real <= TWO_TO_52 as real;
    }
  }

  function CeilDiv(total: nat, workers: nat): nat
    requires workers >= 1
  {
    (total + workers - 1) / workers
  }

  lemma CeilDivBracket(total: nat, workers: nat)
    requires workers >= 1
    ensures var k := CeilDiv(total, workers); (total > 0 ==> k > 0) && total <= workers * k < total + workers
  {
    var n := total + workers - 1;
    assert n == workers * (n / workers) + n % workers;
    assert n / workers == 0 ==> n < workers;
  }

  lemma MulStrict(a: real, b: real, w: real)
    requires w >= 1.0
    ensures a < b <==> a * w < b * w
  {
    assert (b - a) * w == b * w - a * w;
    assert b - a > 0.0 ==> (b - a) * w > 0.0;
    assert b - a <= 0.0 ==> (b - a) * w <= 0.0;
  }

  lemma Cancel(a: real, aw: real, b: real, bw: real, w: real)
    requires w >= 1.0 && aw == a * w && bw == b * w && aw < bw
    ensures a < b
  {
    MulStrict(a, b, w);
  }

  /** A product that is a natural number is at least one unless its first factor is zero. */
  lemma GapIsWhole(d: real, w: real, n: nat)
    requires w >= 1.0 && d * w == n as real
    ensures d != 0.0 ==> d * w >= 1.0
  {
    if n == 0 {
      MulStrict(d, 0.0, w);
      MulStrict(0.0, d, w);
    }
  }

  /** A quotient of integers misses every integer other than itself by at least 1/workers. */
  lemma QuotientGap(total: nat, workers: nat, k: nat, x: real)
    requires workers >= 1 && x * workers as real == total as real
    requires total <= workers * k < total + workers
    ensures (x - (k - 1) as real) * workers as real >= 1.0
    ensures x != k as real ==> (k as real - x) * workers as real >= 1.0
  {
    var w := workers as real;
    assert (workers * k) as real == w * k as real;
    assert (x - (k - 1) as real) * w == (total - workers * k + workers) as real;
    assert (k as real - x) * w == (workers * k - total) as real;
    GapIsWhole(k as real - x, w, workers * k - total);
  }

  lemma RoundedQuotient(total: nat, workers: nat, k: nat, x: real)
    requires 0 < total <= TWO_TO_53 && workers >= 1 && k > 0 && x > 0.0 && x * workers as real == total as real
    requires total <= workers * k < total + workers
    ensures Ceil(RoundToDouble(x)) == k
  {
    if x == k as real {
      WholeQuotient(total, workers, k);
      IntegersExact(k);
    } else {
      QuotientGap(total, workers, k, x);
      FractionRounded(x, x - (k - 1) as real, k as real - x, workers as real);
    }
    CeilBetween(RoundToDouble(x), k);
  }

  lemma FractionRounded(x: real, below: real, above: real, w: real)
    requires x > 0.0 && w >= 1.0 && x * w <= TWO_TO_53 as real
    requires below * w >= 1.0 && above * w >= 1.0
    ensures x - below < RoundToDouble(x) < x + above
  {
    RelativeError(x);
    var d := RoundToDouble(x) - x;
    var dw := ErrorBelowGap(d, x, w, TWO_TO_53 as real);
    StaysBetween(d, dw, below, above, w);
  }

  lemma WholeQuotient(total: nat, workers: nat, k: nat)
    requires workers >= 1 && k as real * workers as real == total as real
    ensures k <= total
  {
    assert (k * workers) as real == k as real * workers as real;
    assert k * (workers - 1) >= 0;
  }

  lemma CeilBetween(r: real, k: int)
    requires (k - 1) as real < r <= k as real
    ensures Ceil(r) == k
  {
  }

  lemma StaysBetween(d: real, dw: real, below: real, above: real, w: real)
    requires w >= 1.0 && dw == d * w && -1.0 < dw < 1.0 && below * w >= 1.0 && above * w >= 1.0
    ensures -below < d < above
  {
    Cancel(-d, -dw, below, below * w, w);
    Cancel(d, dw, above, above * w, w);
  }

  lemma ErrorBelowGap(d: real, x: real, w: real, m: real) returns (dw: real)
    requires w >= 1.0 && m >= 1.0 && x * w <= m
    requires -x < d * m < x
    ensures dw == d * w && -1.0 < dw < 1.0
  {
    dw := d * w;
    var e, y := d * m, -x;
    MulStrict(e, x, w);
    MulStrict(y, e, w);
    assert y * w == -(x * w);
    var em := e * w;
    assert em == dw * m;
    Cancel(dw, em, 1.0, m, m);
    Cancel(-1.0, -m, dw, em, m);
  }

  lemma SplitIsCeiling(total: nat, workers: nat)
    requires total <= TWO_TO_53 && 1 <= workers <= TWO_TO_53
    ensures StreamBytes(total, workers) == CeilDiv(total, workers)
  {
    if total > 0 {
      CeilDivBracket(total, workers);
      IntegersExact(total);
      IntegersExact(workers);
      var x := Quotient(total, workers);
      RoundedQuotient(total, workers, CeilDiv(total, workers), x);
    } else {
      ZeroQuotient(workers);
    }
  }

  /**
   * The floating split is the integer ceiling, and so all streams together carry at least
   * `total` bytes and fewer than `total + workers`, for every total up to 2^53.
   */
  lemma SplitExact(total: nat, workers: nat)
    requires total <= TWO_TO_53 && 1 <= workers <= TWO_TO_53
    ensures StreamBytes(total, workers) == CeilDiv(total, workers)
    ensures total <= workers * StreamBytes(total, workers) < total + workers
  {
    SplitIsCeiling(total, workers);
    CeilDivBracket(total, workers);
  }

  lemma ZeroQuotient(workers: nat)
    requires workers >= 1
    ensures CeilDiv(0, workers) == 0
  {
    CeilDivBracket(0, workers);
  }

  function Quotient(total: nat, workers: nat): (x: real)
    requires total > 0 && workers >= 1
    ensures x > 0.0 && x * workers as real == total as real
  {
    total as real / workers as real
  }

  lemma ShareNonNegative(total: nat, workers: nat)
    requires total <= TWO_TO_53 && 1 <= workers <= TWO_TO_53
    ensures StreamBytes(total, workers) >= 0
  {
    SplitExact(total, workers);
  }

  /** The double nearest to an integer in (2^53, 2^54]: the neighbouring multiple of four for an odd one. */
  function NearestEven(total: nat): nat {
    if total % 4 == 1 then total - 1 else if total % 4 == 3 then total + 1 else total
  }

  lemma HalfTie(n: nat)
    requires n % 2 == 1
    ensures 2 * RoundHalfEven(n as real / 2.0) == NearestEven(n)
  {
    var f := n / 2;
    var h := n as real / 2.0;
    assert n == 2 * f + 1;
    assert h == f as real + 0.5;
    assert h.Floor == f;
    assert n % 4 == 1 <==> f % 2 == 0;
  }

  lemma LargeRounded(total: nat)
    requires TWO_TO_53 < total <= 2 * TWO_TO_53
    ensures RoundToDouble(total as real) == NearestEven(total) as real
  {
    var h := total as real / 2.0;
    assert RoundToDouble(total as real) == 2.0 * RoundToDouble(h);
    if total % 2 == 0 {
      assert h == (total / 2) as real;
      IntegersExact(total / 2);
      assert NearestEven(total) == total;
    } else {
      HalfTie(total);
      assert TWO_TO_52 as real <= h < TWO_TO_53 as real;
      assert RoundToDouble(h) == RoundHalfEven(h) as real;
    }
  }

  /**
   * Above 2^53 the split can fall short of the total. For one stream and totals up to 2^54
   * it does so exactly for the totals above 2^53 that leave remainder 1 modulo 4.
   */
  lemma SingleStreamReaches(total: nat)
    requires 0 < total <= 2 * TWO_TO_53
    ensures total <= StreamBytes(total, 1) <==> total <= TWO_TO_53 || total % 4 != 1
  {
    if total <= TWO_TO_53 {
      SplitExact(total, 1);
    } else {
      var t := NearestEven(total);
      IntegersExact(1);
      LargeRounded(total);
      assert RoundToDouble(t as real) == t as real by {
        if t == TWO_TO_53 { IntegersExact(t); } else { LargeRounded(t); }
      }
      assert t as real / 1.0 == t as real;
    }
  }
}
