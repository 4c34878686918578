/** Folds over the values of a finite map.  The program adds up dictionary values in whatever
    order the dictionary yields them; the lemmas below show that the order does not matter. */
module Sums {

  ghost function Sum<K, V>(m: map<K, V>, f: V -> real): real
    decreases |m|
  {
    if m == map[] then 0.0 else var k :| k in m; f(m[k]) + Sum(m - {k}, f)
  }

  /** Any key may be taken out first. */
  lemma {:induction false} SumTake<K, V>(m: map<K, V>, f: V -> real, k: K)
    requires k in m
    ensures Sum(m, f) == f(m[k]) + Sum(m - {k}, f)
    decreases |m|
  {
    var j :| j in m && Sum(m, f) == f(m[j]) + Sum(m - {j}, f);
    if j != k {
      SumTake(m - {j}, f, k);
      SumTake(m - {k}, f, j);
      assert m - {j} - {k} == m - {k} - {j};
    }
  }

  lemma SumPut<K, V>(m: map<K, V>, f: V -> real, k: K, v: V)
    ensures Sum(m[k := v], f) == f(v) + Sum(m - {k}, f)
    ensures k !in m ==> Sum(m[k := v], f) == f(v) + Sum(m, f)
  {
    SumTake(m[k := v], f, k);
    assert m[k := v] - {k} == m - {k};
    assert k !in m ==> m - {k} == m;
  }

  lemma {:induction false} SumNonNegative<K, V>(m: map<K, V>, f: V -> real)
    requires forall k :: k in m ==> f(m[k]) >= 0.0
    ensures Sum(m, f) >= 0.0
    decreases |m|
  {
    if m != map[] {
      var k :| k in m && Sum(m, f) == f(m[k]) + Sum(m - {k}, f);
      SumNonNegative(m - {k}, f);
    }
  }

  /** No single value exceeds the sum of non-negative values. */
  lemma SumBoundsEach<K, V>(m: map<K, V>, f: V -> real, k: K)
    requires forall j :: j in m ==> f(m[j]) >= 0.0
    requires k in m
    ensures f(m[k]) <= Sum(m, f)
  {
    SumTake(m, f, k);
    SumNonNegative(m - {k}, f);
  }

  /** The union of the sets that `f` gives the values of `m`. */
  ghost function Union<K, V, S>(m: map<K, V>, f: V -> set<S>): set<S>
    decreases |m|
  {
    if m == map[] then {} else var k :| k in m; f(m[k]) + Union(m - {k}, f)
  }

  lemma {:induction false} UnionTake<K, V, S>(m: map<K, V>, f: V -> set<S>, k: K)
    requires k in m
    ensures Union(m, f) == f(m[k]) + Union(m - {k}, f)
    decreases |m|
  {
    var j :| j in m && Union(m, f) == f(m[j]) + Union(m - {j}, f);
    if j != k {
      UnionTake(m - {j}, f, k);
      UnionTake(m - {k}, f, j);
      assert m - {j} - {k} == m - {k} - {j};
    }
  }
}
