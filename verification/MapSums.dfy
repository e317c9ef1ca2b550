/** Sums of the values of a finite map: token balances per account, vote weights per voter. */
module MapSums {

  ghost function Sum<K(!new)>(m: map<K, int>): int
    decreases |m|
  {
    if m == map[] then 0
    else
      var k :| k in m;
      assert (m - {k}).Keys == m.Keys - {k};
      m[k] + Sum(m - {k})
  }

  function Get<K>(m: map<K, int>, k: K): int {
    if k in m then m[k] else 0
  }

  lemma {:induction false} SumRemove<K(!new)>(m: map<K, int>, k: K)
    requires k in m
    ensures Sum(m) == m[k] + Sum(m - {k})
    decreases |m|
  {
    var j :| j in m && Sum(m) == m[j] + Sum(m - {j});
    if j != k {
      assert (m - {j}).Keys == m.Keys - {j};
      assert (m - {k}).Keys == m.Keys - {k};
      SumRemove(m - {j}, k);
      SumRemove(m - {k}, j);
      assert m - {j} - {k} == m - {k} - {j};
    }
  }

  lemma {:induction false} SumUpdate<K(!new)>(m: map<K, int>, k: K, v: int)
    ensures Sum(m[k := v]) == Sum(m) + v - Get(m, k)
  {
    SumRemove(m[k := v], k);
    assert m[k := v] - {k} == m - {k};
    if k in m {
      SumRemove(m, k);
    } else {
      assert m - {k} == m;
    }
  }

  /** Sums are monotone, a missing key counting as zero. */
  lemma {:induction false} SumMonotone<K(!new)>(a: map<K, int>, b: map<K, int>)
    requires forall k :: k in a || k in b ==> Get(a, k) <= Get(b, k)
    ensures Sum(a) <= Sum(b)
    decreases |a| + |b|
  {
    if a != map[] || b != map[] {
      var k :| k in a || k in b;
      assert (a - {k}).Keys == a.Keys - {k} && (b - {k}).Keys == b.Keys - {k};
      SumMonotone(a - {k}, b - {k});
      SumWithout(a, k);
      SumWithout(b, k);
    }
  }

  lemma SumWithout<K(!new)>(m: map<K, int>, k: K)
    ensures Sum(m) == Get(m, k) + Sum(m - {k})
  {
    if k in m {
      SumRemove(m, k);
    } else {
      assert m - {k} == m;
    }
  }

  /** Sums of maps over the same keys add up pointwise. */
  lemma {:induction false} SumPointwise<K(!new)>(a: map<K, int>, b: map<K, int>, c: map<K, int>)
    requires a.Keys == b.Keys == c.Keys
    requires forall k :: k in a ==> c[k] == a[k] + b[k]
    ensures Sum(c) == Sum(a) + Sum(b)
    decreases |c|
  {
    if c == map[] {
      assert a == map[] && b == map[];
    } else {
      var k :| k in c;
      assert (c - {k}).Keys == c.Keys - {k};
      SumRemove(a, k);
      SumRemove(b, k);
      SumRemove(c, k);
      SumPointwise(a - {k}, b - {k}, c - {k});
    }
  }
}
