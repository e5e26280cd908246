/** Sums of a weight over the values of a finite map. */
module MapSums {

  ghost function Total<K, V>(m: map<K, V>, w: V -> int): int
    decreases |m|
  {
    if k :| k in m then w(m[k]) + Total(m - {k}, w) else 0
  }

  // Total picks some entry; any other could have come first.
  lemma {:induction false} TotalRemove<K, V>(m: map<K, V>, w: V -> int, k: K)
    requires k in m
    ensures Total(m, w) == w(m[k]) + Total(m - {k}, w)
    decreases |m|
  {
    var k0 := FirstPick(m, w);
    hide Total;
    if k0 != k {
      SmallerMap(m, k0);
      SmallerMap(m, k);
      TotalRemove(m - {k0}, w, k);
      TotalRemove(m - {k}, w, k0);
      assert m - {k0} - {k} == m - {k} - {k0};
    }
  }

  lemma FirstPick<K, V>(m: map<K, V>, w: V -> int) returns (k: K)
    requires exists k :: k in m
    ensures k in m && Total(m, w) == w(m[k]) + Total(m - {k}, w)
  {
    k :| k in m && Total(m, w) == w(m[k]) + Total(m - {k}, w);
  }

  lemma SmallerMap<K, V>(m: map<K, V>, k: K)
    requires k in m
    ensures |m - {k}| < |m|
  {
    assert (m - {k}).Keys == m.Keys - {k};
  }

  lemma {:induction false} TotalPut<K, V>(m: map<K, V>, w: V -> int, k: K, v: V)
    ensures Total(m[k := v], w) == Total(m, w) - (if k in m then w(m[k]) else 0) + w(v)
  {
    TotalRemove(m[k := v], w, k);
    assert m[k := v] - {k} == m - {k};
    if k in m {
      TotalRemove(m, w, k);
    } else {
      assert m - {k} == m;
    }
  }

  lemma {:induction false} TotalNonNegative<K, V>(m: map<K, V>, w: V -> int)
    requires forall k :: k in m ==> w(m[k]) >= 0
    ensures Total(m, w) >= 0
    decreases |m|
  {
    if |m| != 0 {
      var k :| k in m && Total(m, w) == w(m[k]) + Total(m - {k}, w);
      TotalNonNegative(m - {k}, w);
    }
  }

  lemma {:induction false} TotalMember<K, V>(m: map<K, V>, w: V -> int, k: K)
    requires forall j :: j in m ==> w(m[j]) >= 0
    requires k in m
    ensures w(m[k]) <= Total(m, w)
  {
    TotalRemove(m, w, k);
    TotalNonNegative(m - {k}, w);
  }

  lemma {:induction false} TotalZero<K, V>(m: map<K, V>, w: V -> int)
    requires forall k :: k in m ==> w(m[k]) == 0
    ensures Total(m, w) == 0
    decreases |m|
  {
    if |m| != 0 {
      var k :| k in m && Total(m, w) == w(m[k]) + Total(m - {k}, w);
      TotalZero(m - {k}, w);
    }
  }
}
