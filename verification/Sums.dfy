/** Sums over finite maps, changed one key at a time. */
module Sums {

  ghost function Sum<K(!new)>(m: map<K, nat>): nat
    decreases |m|
  {
    if m == map[] then 0
    else
      var k :| k in m;
      m[k] + Sum(m - {k})
  }

  ghost function At<K>(m: map<K, nat>, k: K): nat {
    if k in m then m[k] else 0
  }

  lemma {:induction false} SumRemove<K(!new)>(m: map<K, nat>, k: K)
    ensures Sum(m) == At(m, k) + Sum(m - {k})
    decreases |m|
  {
    if k !in m {
      assert m - {k} == m;
    } else {
      var x :| x in m && Sum(m) == m[x] + Sum(m - {x});
      if x != k {
        SumRemove(m - {x}, k);
        SumRemove(m - {k}, x);
        assert m - {x} - {k} == m - {k} - {x};
      }
    }
  }

  /** Two maps that differ at one key only differ in their sums by that key's values. */
  lemma SumChange<K(!new)>(m: map<K, nat>, n: map<K, nat>, k: K)
    requires m - {k} == n - {k}
    ensures Sum(n) == Sum(m) - At(m, k) + At(n, k)
  {
    SumRemove(m, k);
    SumRemove(n, k);
  }

  lemma {:induction false} SumBelow<K(!new)>(m: map<K, nat>, n: map<K, nat>)
    requires forall k :: k in m ==> m[k] <= At(n, k)
    ensures Sum(m) <= Sum(n)
    decreases |m|
  {
    if m != map[] {
      var k :| k in m;
      SumRemove(m, k);
      SumRemove(n, k);
      SumBelow(m - {k}, n - {k});
    }
  }

  lemma {:induction false} SumPlus<K(!new)>(m: map<K, nat>, n: map<K, nat>, both: map<K, nat>)
    requires m.Keys == n.Keys == both.Keys && forall k :: k in both ==> both[k] == m[k] + n[k]
    ensures Sum(both) == Sum(m) + Sum(n)
    decreases |both|
  {
    if both == map[] {
      assert m == map[] && n == map[];
    } else {
      var k :| k in both;
      SumRemove(m, k);
      SumRemove(n, k);
      SumRemove(both, k);
      SumPlus(m - {k}, n - {k}, both - {k});
    }
  }
}
