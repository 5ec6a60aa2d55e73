/** Facts about sets and maps that the proofs call by name. */
module Collections {
  lemma HasElement(s: set<int>)
    ensures s == {} || exists x :: x in s
  {
    if forall x :: x !in s {
      assert s == {};
    }
  }

  lemma IsSubset(a: set<int>, b: set<int>)
    requires forall x :: x in a ==> x in b
    ensures a <= b
  {
    forall x | x in a ensures x in b {
    }
  }

  lemma SameElements(a: set<int>, b: set<int>)
    requires forall x :: x in a <==> x in b
    ensures a == b
  {
    IsSubset(a, b);
    IsSubset(b, a);
  }

  lemma SameMap<V>(a: map<int, V>, b: map<int, V>)
    requires forall k :: k in a <==> k in b
    requires forall k :: k in a ==> a[k] == b[k]
    ensures a == b
  {
    SameElements(a.Keys, b.Keys);
    forall k | k in a ensures a[k] == b[k] {
    }
  }

  lemma SubsetCard<T>(a: set<T>, b: set<T>)
    requires a <= b
    ensures |a| <= |b|
    ensures |a| == |b| ==> a == b
  {
    assert b == a + (b - a);
    assert |b| == |a| + |b - a|;
  }

  lemma RemovingAgain<K, V>(m: map<K, V>, k: K, v: V)
    ensures m[k := v] - {k} == m - {k}
    ensures m - {k} - {k} == m - {k}
  {
  }
}
