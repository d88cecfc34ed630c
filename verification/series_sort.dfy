/** Sorting the displayed series items in place with a comparator, as
    `Array.prototype.sort` does with the comparator the Series section
    passes it. A comparator is modelled by the relation "compares as less
    than or equal", which is assumed to be a total preorder. */
module SeriesSort {

  /** `le(x, y)` says the comparator puts `x` no later than `y`. */
  ghost predicate TotalPreorder<T(!new)>(le: (T, T) -> bool)
  {
    && (forall x, y :: le(x, y) || le(y, x))
    && (forall x, y, z :: le(x, y) && le(y, z) ==> le(x, z))
  }

  predicate SortedBy<T>(s: seq<T>, le: (T, T) -> bool)
  {
    forall i, j :: 0 <= i < j < |s| ==> le(s[i], s[j])
  }

  /** Insertion sort: the array ends sorted by `le` and holds the same
      elements as before. */
  method SortInPlace<T(!new)>(a: array<T>, le: (T, T) -> bool)
    requires TotalPreorder(le)
    modifies a
    ensures SortedBy(a[..], le)
    ensures multiset(a[..]) == multiset(old(a[..]))
  {
    var i := 0;
    while i < a.Length
      invariant 0 <= i <= a.Length
      invariant forall p, q :: 0 <= p < q < i ==> le(a[p], a[q])
      invariant multiset(a[..]) == multiset(old(a[..]))
    {
      var j := i;
      while 0 < j && !le(a[j - 1], a[j])
        invariant 0 <= j <= i
        invariant forall p, q :: 0 <= p < q <= i && p != j && q != j ==> le(a[p], a[q])
        invariant forall q :: j < q <= i ==> le(a[j], a[q])
        invariant multiset(a[..]) == multiset(old(a[..]))
      {
        a[j - 1], a[j] := a[j], a[j - 1];
        j := j - 1;
      }
      assert forall p :: 0 <= p < j ==> le(a[p], a[j]) by {
        forall p | 0 <= p < j ensures le(a[p], a[j]) {
          if p < j - 1 {
            assert le(a[p], a[j - 1]);
          }
        }
      }
      i := i + 1;
    }
  }
}
