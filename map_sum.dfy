/** Sums over the values of a dictionary. Python walks a dict in insertion
    order; the sums here are over reals, where the order does not matter, so
    a sum is defined over a Dafny map by taking out one key at a time and
    proved independent of which key is taken. */
module MapSum {

  ghost function Pick<K, V>(m: map<K, V>): (k: K)
    requires |m| > 0
    ensures k in m
  {
    assert m.Keys != {} by { assert |m.Keys| == |m|; }
    var k :| k in m; k
  }

  lemma RemoveOne<K, V>(m: map<K, V>, k: K)
    requires k in m
    ensures |m - {k}| == |m| - 1
  {
    assert (m - {k}).Keys == m.Keys - {k};
    assert |m.Keys - {k}| == |m.Keys| - 1;
  }

  /** The sum of `f` over the values of `m`. */
  ghost function SumMap<K, V>(m: map<K, V>, f: V -> real): real
    decreases |m|
  {
    if |m| == 0 then 0.0
    else
      var k := Pick(m);
      RemoveOne(m, k);
      f(m[k]) + SumMap(m - {k}, f)
  }

  /** Any key may be taken out first: the sum does not depend on the order. */
  lemma {:induction false} SumMapRemove<K, V>(m: map<K, V>, k: K, f: V -> real)
    requires k in m
    ensures SumMap(m, f) == f(m[k]) + SumMap(m - {k}, f)
    decreases |m|
  {
    var j := Pick(m);
    RemoveOne(m, j);
    RemoveOne(m, k);
    if j != k {
      RemoveOne(m - {j}, k);
      SumMapRemove(m - {j}, k, f);
      SumMapRemove(m - {k}, j, f);
      assert m - {j} - {k} == m - {k} - {j};
    }
  }

  lemma {:induction false} SumMapZero<K, V>(m: map<K, V>, f: V -> real)
    requires forall k :: k in m ==> f(m[k]) == 0.0
    ensures SumMap(m, f) == 0.0
    decreases |m|
  {
    if |m| > 0 {
      var k := Pick(m);
      RemoveOne(m, k);
      SumMapZero(m - {k}, f);
    }
  }

  lemma {:induction false} SumMapAdd<K, V>(m: map<K, V>, f: V -> real, g: V -> real, h: V -> real)
    requires forall k :: k in m ==> h(m[k]) == f(m[k]) + g(m[k])
    ensures SumMap(m, h) == SumMap(m, f) + SumMap(m, g)
    decreases |m|
  {
    if |m| > 0 {
      var k := Pick(m);
      RemoveOne(m, k);
      SumMapAdd(m - {k}, f, g, h);
    }
  }

  /** Pointwise `f <= h` carries over to the sums. */
  lemma {:induction false} SumMapMonotone<K, V>(m: map<K, V>, f: V -> real, h: V -> real)
    requires forall k :: k in m ==> f(m[k]) <= h(m[k])
    ensures SumMap(m, f) <= SumMap(m, h)
    decreases |m|
  {
    if |m| > 0 {
      var k := Pick(m);
      RemoveOne(m, k);
      SumMapMonotone(m - {k}, f, h);
    }
  }

  /** A sum of non-negative terms is positive as soon as one term is. */
  lemma {:induction false} SumMapPositive<K, V>(m: map<K, V>, f: V -> real, k: K)
    requires forall j :: j in m ==> f(m[j]) >= 0.0
    requires k in m && f(m[k]) > 0.0
    ensures SumMap(m, f) > 0.0
  {
    SumMapRemove(m, k, f);
    var zero: V -> real := _ => 0.0;
    SumMapZero(m - {k}, zero);
    SumMapMonotone(m - {k}, zero, f);
  }
}
