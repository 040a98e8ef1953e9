/** Sums over finite maps and enumerations of finite sets. */
module Collections {

  /** The sum of all values of m. */
  ghost function Total<K(!new)>(m: map<K, int>): int
    decreases |m|
  {
    if m == map[] then 0
    else
      var k :| k in m;
      assert (m - {k}).Keys == m.Keys - {k};
      m[k] + Total(m - {k})
  }

  lemma {:induction false} TotalSplit<K(!new)>(m: map<K, int>, k: K)
    requires k in m
    ensures Total(m) == m[k] + Total(m - {k})
    decreases |m|
  {
    var k0 :| k0 in m && Total(m) == m[k0] + Total(m - {k0});
    if k0 != k {
      assert (m - {k0}).Keys == m.Keys - {k0} && (m - {k}).Keys == m.Keys - {k};
      TotalSplit(m - {k0}, k);
      TotalSplit(m - {k}, k0);
      assert m - {k0} - {k} == m - {k} - {k0};
    }
  }

  lemma TotalUpdate<K(!new)>(m: map<K, int>, k: K, v: int)
    ensures Total(m[k := v]) == Total(m) - (if k in m then m[k] else 0) + v
  {
    TotalSplit(m[k := v], k);
    assert m[k := v] - {k} == m - {k};
    if k in m {
      TotalSplit(m, k);
    } else {
      assert m - {k} == m;
    }
  }

  lemma TotalRemove<K(!new)>(m: map<K, int>, k: K)
    ensures Total(m - {k}) == Total(m) - (if k in m then m[k] else 0)
  {
    if k in m {
      TotalSplit(m, k);
    } else {
      assert m - {k} == m;
    }
  }

  lemma {:induction false} TotalAtLeast<K(!new)>(m: map<K, int>, k: K)
    requires k in m && forall i :: i in m ==> m[i] >= 0
    ensures Total(m) >= m[k]
  {
    TotalSplit(m, k);
    TotalNonNegative(m - {k});
  }

  lemma {:induction false} TotalNonNegative<K(!new)>(m: map<K, int>)
    requires forall i :: i in m ==> m[i] >= 0
    ensures Total(m) >= 0
    decreases |m|
  {
    if m != map[] {
      var k :| k in m;
      assert (m - {k}).Keys == m.Keys - {k};
      TotalSplit(m, k);
      TotalNonNegative(m - {k});
    }
  }

  /** Sums compare like their terms; a term that is smaller by one makes the sum smaller by one. */
  lemma {:induction false} TotalCompare<K(!new)>(m: map<K, int>, n: map<K, int>)
    requires m.Keys == n.Keys && forall k :: k in m ==> m[k] <= n[k]
    ensures Total(m) <= Total(n)
    ensures forall k :: k in m && m[k] < n[k] ==> Total(m) < Total(n)
    decreases |m|
  {
    if m != map[] {
      var k :| k in m;
      assert (m - {k}).Keys == m.Keys - {k} == (n - {k}).Keys;
      TotalSplit(m, k);
      TotalSplit(n, k);
      TotalCompare(m - {k}, n - {k});
      forall i | i in m && m[i] < n[i] ensures Total(m) < Total(n) {
        assert i != k ==> i in m - {k};
      }
    } else {
      assert n == map[];
    }
  }

  lemma MergeSplit<K(!new)>(x: map<K, int>, y: map<K, int>, k: K)
    requires x.Keys !! y.Keys && k in y
    ensures (x + y) - {k} == x + (y - {k}) && (x + y)[k] == y[k] && |y - {k}| < |y|
  {
    assert (y - {k}).Keys == y.Keys - {k};
  }

  lemma {:induction false} TotalMerge<K(!new)>(x: map<K, int>, y: map<K, int>)
    requires x.Keys !! y.Keys
    ensures Total(x + y) == Total(x) + Total(y)
    decreases |y|
  {
    if y == map[] {
      assert x + y == x;
    } else {
      hide Total;
      var k :| k in y;
      MergeSplit(x, y, k);
      TotalSplit(x + y, k);
      TotalSplit(y, k);
      TotalMerge(x, y - {k});
    }
  }

  lemma {:induction false} TotalZero<K(!new)>(m: map<K, int>)
    requires forall k :: k in m ==> m[k] == 0
    ensures Total(m) == 0
    decreases |m|
  {
    if m != map[] {
      var k :| k in m;
      TotalSplit(m, k);
      assert (m - {k}).Keys == m.Keys - {k};
      TotalZero(m - {k});
    }
  }

  lemma SubsetSize<T>(a: set<T>, b: set<T>)
    requires a <= b
    ensures |a| <= |b|
  {
    assert b == a + (b - a);
  }

  /** order lists every element of s exactly once. */
  ghost predicate Enumerates<T(!new)>(order: seq<T>, s: set<T>) {
    && (forall x :: x in order <==> x in s)
    && Distinct(order)
  }

  ghost predicate Distinct<T>(order: seq<T>) {
    forall i, j :: 0 <= i < j < |order| ==> order[i] != order[j]
  }
}
