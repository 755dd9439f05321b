/** Small facts about options, sets and maps that several models share. */
module Collections {

  datatype Option<+T> = None | Some(value: T)

  /** Removing one member lowers the size by exactly one. */
  lemma RemoveSize<T>(s: set<T>, x: T)
    ensures |s - {x}| == if x in s then |s| - 1 else |s|
  {
    if x in s {
      assert s == (s - {x}) + {x};
    } else {
      assert s - {x} == s;
    }
  }

  lemma SubsetSize<T>(a: set<T>, b: set<T>)
    requires a <= b
    ensures |a| <= |b|
    ensures |a| == |b| ==> a == b
  {
    assert b == a + (b - a);
  }
}
