/** Maps that agree at a key. */
module Maps {
  predicate SameAt<K, V(==)>(a: map<K, V>, b: map<K, V>, k: K) {
    (k in a <==> k in b) && (k in a ==> a[k] == b[k])
  }

  lemma SameOutside<V>(a: map<string, V>, b: map<string, V>, k: string, x: string)
    requires a - {k} == b - {k} && x != k
    ensures SameAt(a, b, x)
  {
    assert x in a <==> x in a - {k};
    assert x in b <==> x in b - {k};
    if x in a {
      assert a[x] == (a - {k})[x] == (b - {k})[x] == b[x];
    }
  }
}
