/** Sums over finite maps, independent of the order of summation. */
module Sums {
  ghost function Pick<K>(m: map<K, nat>): (k: K)
    requires |m| > 0
    ensures k in m
  {
    var k :| k in m;
    k
  }

  ghost function Sum<K>(m: map<K, nat>): nat
    decreases |m|
  {
    if |m| == 0 then 0 else
    var k := Pick(m);
    assert (m - {k}).Keys == m.Keys - {k};
    m[k] + Sum(m - {k})
  }

  /** Any key may be taken out first. */
  lemma {:induction false} SumSplit<K>(m: map<K, nat>, k: K)
    requires k in m
    ensures Sum(m) == m[k] + Sum(m - {k})
    decreases |m|
  {
    var c := Pick(m);
    if c != k {
      assert (m - {c}).Keys == m.Keys - {c} && (m - {k}).Keys == m.Keys - {k};
      SumSplit(m - {c}, k);
      SumSplit(m - {k}, c);
      assert m - {c} - {k} == m - {k} - {c};
    }
  }

  lemma SumInsert<K>(m: map<K, nat>, k: K, n: nat)
    requires k !in m
    ensures Sum(m[k := n]) == Sum(m) + n
  {
    SumSplit(m[k := n], k);
    assert m[k := n] - {k} == m;
  }

  lemma SumReplace<K>(m: map<K, nat>, k: K, n: nat)
    requires k in m
    ensures Sum(m[k := n]) == Sum(m) - m[k] + n
  {
    SumSplit(m, k);
    SumSplit(m[k := n], k);
    assert m[k := n] - {k} == m - {k};
  }

  /** Each addend is at most the sum, and the sum grows with its addends. */
  lemma {:induction false} SumMonotone<K>(m: map<K, nat>, n: map<K, nat>)
    requires m.Keys <= n.Keys && forall k :: k in m ==> m[k] <= n[k]
    ensures Sum(m) <= Sum(n)
    decreases |m|
  {
    if |m| > 0 {
      var k :| k in m;
      assert (m - {k}).Keys == m.Keys - {k} && (n - {k}).Keys == n.Keys - {k};
      SumSplit(m, k);
      SumSplit(n, k);
      SumMonotone(m - {k}, n - {k});
    }
  }
}
