/** Sizes of finite sets. */
module Sets {

  lemma {:induction false} SubsetSize<T>(a: set<T>, b: set<T>)
    requires a <= b
    ensures |a| <= |b|
  {
    if a != {} {
      var x :| x in a;
      SubsetSize(a - {x}, b - {x});
    }
  }

  /** A set that differs from another in at most one element. */
  lemma SizeWith<T>(a: set<T>, b: set<T>, c: T, after: bool)
    requires forall x :: x != c ==> (x in a <==> x in b)
    requires c in b <==> after
    ensures |b| == |a| - (if c in a then 1 else 0) + (if after then 1 else 0)
  {
    var rest := a - {c};
    assert a == if c in a then rest + {c} else rest;
    assert b == if after then rest + {c} else rest;
  }

  /** A map with no other keys is no larger. */
  lemma FewerKeys<K, V, W>(a: map<K, V>, b: map<K, W>)
    requires a.Keys <= b.Keys
    ensures |a| <= |b|
  {
    SubsetSize(a.Keys, b.Keys);
    assert |a| == |a.Keys| && |b| == |b.Keys|;
  }
}
