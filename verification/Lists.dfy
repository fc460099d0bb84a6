/** Facts about duplicate-free sequences and the sets they list. */
module Lists {

  predicate NoDup<T(==)>(s: seq<T>) {
    forall i, j :: 0 <= i < j < |s| ==> s[i] != s[j]
  }

  function ToSet<T>(s: seq<T>): set<T> {
    set x | x in s
  }

  lemma {:induction false} NoDupCardinality<T>(s: seq<T>)
    requires NoDup(s)
    ensures |ToSet(s)| == |s|
  {
    if s != [] {
      var front := s[..|s| - 1];
      NoDupCardinality(front);
      assert ToSet(s) == ToSet(front) + {s[|s| - 1]};
    }
  }

  lemma {:induction false} CardinalityAtMostLength<T>(s: seq<T>)
    ensures |ToSet(s)| <= |s|
  {
    if s != [] {
      var front := s[..|s| - 1];
      CardinalityAtMostLength(front);
      assert ToSet(s) == ToSet(front) + {s[|s| - 1]};
    }
  }

  lemma SubsetCardinality<T>(a: set<T>, b: set<T>)
    requires a <= b
    ensures |a| <= |b|
  {
    assert b == a + (b - a);
  }

  /** Two disjoint duplicate-free lists of members of `all` are together no longer than `all`. */
  lemma DisjointListsFit<T>(a: seq<T>, b: seq<T>, all: seq<T>)
    requires NoDup(a) && NoDup(b)
    requires ToSet(a) <= ToSet(all) && ToSet(b) <= ToSet(all)
    requires ToSet(a) !! ToSet(b)
    ensures |a| + |b| <= |all|
    ensures |a| + |b| == |all| ==> ToSet(a) + ToSet(b) == ToSet(all)
  {
    NoDupCardinality(a);
    NoDupCardinality(b);
    CardinalityAtMostLength(all);
    var u := ToSet(a) + ToSet(b);
    assert |u| == |a| + |b|;
    SubsetCardinality(u, ToSet(all));
    if |u| == |ToSet(all)| {
      var rest := ToSet(all) - u;
      assert ToSet(all) == u + rest;
      assert |ToSet(all)| == |u| + |rest|;
    }
  }
}
