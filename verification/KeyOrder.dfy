/** Cache keys and the ascending iteration order of the ordered sets and maps that hold them.
    A key is its UTF-8 byte string; Rust orders strings bytewise. */
module KeyOrder {
  import opened Words

  type Key = Bytes

  /** Strict bytewise lexicographic order. */
  predicate Less(a: Key, b: Key) {
    b != [] && (a == [] || a[0] < b[0] || (a[0] == b[0] && Less(a[1..], b[1..])))
  }

  /** At index `i` key `a` is found to come first: it ends there or has the smaller byte. */
  predicate DiffersAt(a: Key, b: Key, i: nat) {
    i <= |a| && i < |b| && a[..i] == b[..i] && (i == |a| || a[i] < b[i])
  }

  /** One key comes before another if it is a proper prefix, or has the smaller byte where they first
      differ. */
  lemma {:induction false} LessIsLexicographic(a: Key, b: Key)
    ensures Less(a, b) <==> exists i: nat :: DiffersAt(a, b, i)
    decreases |a|
  {
    if a == [] || b == [] || a[0] != b[0] {
      if Less(a, b) {
        assert DiffersAt(a, b, 0);
      }
      if i: nat :| DiffersAt(a, b, i) && i > 0 {
        assert a[..i][0] == b[..i][0];
      }
    } else {
      LessIsLexicographic(a[1..], b[1..]);
      if i: nat :| DiffersAt(a[1..], b[1..], i) {
        assert a[..i + 1] == [a[0]] + a[1..][..i] && b[..i + 1] == [b[0]] + b[1..][..i];
        assert DiffersAt(a, b, i + 1);
      }
      if i: nat :| DiffersAt(a, b, i) {
        assert i > 0;
        assert a[1..][..i - 1] == a[..i][1..] && b[1..][..i - 1] == b[..i][1..];
        assert DiffersAt(a[1..], b[1..], i - 1);
      }
    }
  }

  lemma {:induction false} Trichotomy(a: Key, b: Key)
    ensures Less(a, b) || Less(b, a) || a == b
    ensures !(Less(a, b) && Less(b, a))
    ensures !Less(a, a)
    decreases |a|
  {
    if a != [] {
      Trichotomy(a[1..], a[1..]);
      if b != [] {
        Trichotomy(a[1..], b[1..]);
        assert a == [a[0]] + a[1..] && b == [b[0]] + b[1..];
      }
    }
  }

  lemma {:induction false} Transitive(a: Key, b: Key, c: Key)
    requires Less(a, b) && Less(b, c)
    ensures Less(a, c)
    decreases |a|
  {
    if a != [] && a[0] == b[0] && b[0] == c[0] {
      Transitive(a[1..], b[1..], c[1..]);
    }
  }

  predicate IsLeast(m: Key, s: set<Key>) {
    m in s && forall k | k in s :: k == m || Less(m, k)
  }

  lemma {:induction false} LeastExists(s: set<Key>) returns (m: Key)
    requires s != {}
    ensures IsLeast(m, s)
  {
    var x :| x in s;
    if s == {x} {
      m := x;
    } else {
      var rest := s - {x};
      assert s == rest + {x};
      var y := LeastExists(rest);
      Trichotomy(x, y);
      if Less(x, y) {
        forall k | k in s ensures k == x || Less(x, k) {
          if k != x && k != y { Transitive(x, y, k); }
        }
        m := x;
      } else {
        m := y;
      }
    }
  }

  lemma LeastUnique(s: set<Key>)
    ensures forall a, b | IsLeast(a, s) && IsLeast(b, s) :: a == b
  {
    forall a, b | IsLeast(a, s) && IsLeast(b, s) ensures a == b {
      Trichotomy(a, b);
    }
  }

  function MinKey(s: set<Key>): (m: Key)
    requires s != {}
    ensures IsLeast(m, s)
  {
    assert exists m :: IsLeast(m, s) by { var m := LeastExists(s); }
    LeastUnique(s);
    var m :| m in s && IsLeast(m, s);
    m
  }

  ghost predicate Ascending(q: seq<Key>) {
    forall i, j | 0 <= i < j < |q| :: Less(q[i], q[j])
  }

  /** The elements of a set in iteration order. */
  function SortedKeys(s: set<Key>): (q: seq<Key>) {
    if s == {} then [] else
      var m := MinKey(s);
      [m] + SortedKeys(s - {m})
  }

  /** Iteration visits every element once, in ascending order. */
  lemma {:induction false} SortedKeysSpec(s: set<Key>)
    ensures var q := SortedKeys(s);
            |q| == |s| && Ascending(q) && forall k :: k in q <==> k in s
  {
    if s != {} {
      var m := MinKey(s);
      SortedKeysSpec(s - {m});
      assert s == {m} + (s - {m});
    }
  }
}
