/** Counting the entries of a finite map. */
module MapCounts {
  function One(b: bool): nat {
    if b then 1 else 0
  }

  /** The keys whose value satisfies `p`. */
  ghost function Where<K, V>(m: map<K, V>, p: V -> bool): set<K> {
    set x | x in m && p(m[x])
  }

  lemma WhereRemove<K, V>(m: map<K, V>, x: K, p: V -> bool)
    ensures |Where(m - {x}, p)| == |Where(m, p)| - One(x in m && p(m[x]))
  {
    assert Where(m - {x}, p) == Where(m, p) - {x};
  }

  lemma WhereUpdate<K, V>(m: map<K, V>, x: K, v: V, p: V -> bool)
    ensures |Where(m[x := v], p)| == |Where(m, p)| - One(x in m && p(m[x])) + One(p(v))
  {
    WhereRemove(m, x, p);
    WhereRemove(m[x := v], x, p);
    assert m[x := v] - {x} == m - {x};
  }

  lemma MapSizes<K, V>(m: map<K, V>, x: K, v: V)
    ensures |m[x := v]| == |m| + One(x !in m)
    ensures |m - {x}| == |m| - One(x in m)
  {
    assert m[x := v].Keys == m.Keys + {x};
    assert (m - {x}).Keys == m.Keys - {x};
  }
}
