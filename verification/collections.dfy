/** Enumeration of the live entries of an unordered collection. */
module Collections {

  /** Lists every element of `s` exactly once, in some order: the
      `Array.from(...)` of a JavaScript `Set`. */
  method Enumerate<T>(s: set<T>) returns (xs: seq<T>)
    ensures |xs| == |s|
    ensures forall x :: x in xs <==> x in s
    ensures forall i, j :: 0 <= i < j < |xs| ==> xs[i] != xs[j]
  {
    xs := [];
    var remaining := s;
    while remaining != {}
      invariant remaining <= s
      invariant |xs| + |remaining| == |s|
      invariant forall x :: x in xs <==> x in s && x !in remaining
      invariant forall i, j :: 0 <= i < j < |xs| ==> xs[i] != xs[j]
      decreases |remaining|
    {
      var x :| x in remaining;
      xs := xs + [x];
      remaining := remaining - {x};
    }
  }
}
