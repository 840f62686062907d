/** Finite-set counting. */
module Sets {
  lemma {:induction false} SubsetSize<T>(a: set<T>, b: set<T>)
    requires a <= b
    ensures |a| <= |b|
    decreases |a|
  {
    if a != {} {
      var x :| x in a;
      SubsetSize(a - {x}, b - {x});
    }
  }

  lemma SameSize<T>(a: set<T>, b: set<T>)
    requires forall x :: x in a <==> x in b
    ensures |a| == |b|
  {
    assert a == b;
  }

  lemma SameSet<T>(a: set<T>, b: set<T>)
    requires forall x :: x in a <==> x in b
    ensures a == b
  {
  }

  lemma DisjointSize<T>(a: set<T>, b: set<T>)
    requires a !! b
    ensures |a + b| == |a| + |b|
  {
  }

  lemma UnionSize<T>(both: set<T>, a: set<T>, b: set<T>)
    requires forall x :: x in both <==> x in a || x in b
    requires forall x :: !(x in a && x in b)
    ensures |both| == |a| + |b|
  {
    assert both == a + b;
  }

  lemma SameMap<K, V>(a: map<K, V>, b: map<K, V>)
    requires forall k :: k in a <==> k in b
    requires forall k | k in a :: a[k] == b[k]
    ensures a == b
  {
    assert a.Keys == b.Keys;
  }

  /** At most one element moved in, and one moved out for it. */
  lemma SwapSize<T, U>(a: set<T>, a': set<T>, b: set<U>, b': set<U>, x: T, u: U)
    requires x in a && a' <= a - {x} && b' <= b + {u}
    ensures |a'| + |b'| <= |a| + |b|
  {
    SubsetSize(a', a - {x});
    SubsetSize(b', b + {u});
  }
}
