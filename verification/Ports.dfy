/** The reference of the port scan: the N smallest free ports from a start port on. */
module Ports {
  const MAX_PORT: nat := 65535

  function Above(busy: set<nat>, from: nat): set<nat> { set p | p in busy && p >= from }

  /** The first port from `from` on that is not busy. */
  function FirstFree(busy: set<nat>, from: nat): (q: nat)
    ensures q >= from && q !in busy && forall p :: from <= p < q ==> p in busy
    decreases |Above(busy, from)|
  {
    if from !in busy then from
    else
      assert Above(busy, from) == Above(busy, from + 1) + {from};
      FirstFree(busy, from + 1)
  }

  /** The `n` smallest ports from `start` on that are not busy. */
  function Smallest(busy: set<nat>, start: nat, n: nat): (r: set<nat>)
    ensures forall p :: p in r ==> p >= start && p !in busy
    ensures |r| == n
    decreases n
  {
    if n == 0 then {}
    else
      var q := FirstFree(busy, start);
      {q} + Smallest(busy, q + 1, n - 1)
  }

  /** Free ports that skip no free port from `start` on below any of them. */
  ghost predicate NoGaps(busy: set<nat>, start: nat, ports: set<nat>) {
    && (forall p :: p in ports ==> p >= start && p !in busy)
    && (forall p, q :: p in ports && start <= q < p && q !in busy ==> q in ports)
  }

  lemma {:induction false} SmallestHasNoGaps(busy: set<nat>, start: nat, n: nat)
    ensures NoGaps(busy, start, Smallest(busy, start, n))
    decreases n
  {
    if n > 0 {
      SmallestHasNoGaps(busy, FirstFree(busy, start) + 1, n - 1);
    }
  }

  /** Sets without gaps of the same size are the same. */
  lemma NoGapsUnique(busy: set<nat>, start: nat, a: set<nat>, b: set<nat>)
    requires NoGaps(busy, start, a) && NoGaps(busy, start, b) && |a| == |b|
    ensures a == b
  {
    if !(a <= b) {
      var x :| x in a && x !in b;
      forall y | y in b ensures y in a {
        assert y < x ==> y in a;
      }
    }
    SameSizeSubset(a, b);
    SameSizeSubset(b, a);
  }

  lemma SameSizeSubset(a: set<nat>, b: set<nat>)
    requires |a| == |b|
    ensures a <= b ==> a == b
  {
    if a <= b {
      assert b == a + (b - a);
      assert |b| == |a| + |b - a|;
    }
  }

  lemma {:induction false} SubsetSize(a: set<nat>, b: set<nat>)
    requires a <= b
    ensures |a| <= |b|
    decreases a
  {
    if a != {} {
      var x :| x in a;
      SubsetSize(a - {x}, b - {x});
    }
  }
}
