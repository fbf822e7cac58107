/** How sets and maps grow, for the models that detect a repeated name by a count. */
module Sizes {

  lemma SetWith<T>(s: set<T>, x: T)
    ensures |s + {x}| == |s| + (if x in s then 0 else 1)
  {
    if x in s {
      assert s + {x} == s;
    }
  }

  lemma MapWith<K, V>(m: map<K, V>, k: K, v: V)
    ensures |m[k := v]| == |m| + (if k in m then 0 else 1)
  {
    var after := m[k := v];
    assert after.Keys == m.Keys + {k} && |after| == |after.Keys| && |m| == |m.Keys|;
    SetWith(m.Keys, k);
  }

  lemma SubsetSize<T>(small: set<T>, large: set<T>)
    requires small <= large
    ensures |small| <= |large|
  {
    assert large == small + (large - small);
  }
}
