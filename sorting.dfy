/**
 * `DataFrame.sort_index(inplace=True)` on a frame whose index is a numeric id
 * column: rows are reordered so that the ids ascend, and rows whose id is
 * missing (NaN) come last, which is the default `na_position="last"`.
 */
module Sorting {
  import opened Values

  /** A frame row together with its index value; `None` is a missing id. */
  datatype Keyed<T> = Keyed(key: Option<real>, row: T)

  /** `a` may stand before `b` in ascending order with missing ids last. */
  predicate Before(a: Option<real>, b: Option<real>)
  {
    b.None? || (a.Some? && a.value <= b.value)
  }

  predicate Sorted<T>(s: seq<Keyed<T>>)
  {
    forall i, j :: 0 <= i < j < |s| ==> Before(s[i].key, s[j].key)
  }

  /** Exchanges two neighbouring rows. */
  method Swap<T>(a: array<Keyed<T>>, j: int)
    requires 0 < j < a.Length
    modifies a
    ensures a[..] == old(a[..])[j - 1 := old(a[j])][j := old(a[j - 1])]
    ensures multiset(a[..]) == multiset(old(a[..]))
  {
    a[j - 1], a[j] := a[j], a[j - 1];
  }

  /** Moves `a[i]` down into the sorted prefix `a[..i]`. */
  method Insert<T>(a: array<Keyed<T>>, i: int)
    requires 0 < i < a.Length && Sorted(a[..i])
    modifies a
    ensures Sorted(a[..i + 1])
    ensures multiset(a[..]) == multiset(old(a[..]))
  {
    var j := i;
    while j > 0 && !Before(a[j - 1].key, a[j].key)
      invariant 0 <= j <= i
      invariant forall k, l :: 0 <= k < l <= i && k != j && l != j ==> Before(a[k].key, a[l].key)
      invariant forall l :: j < l <= i ==> Before(a[j].key, a[l].key)
      invariant multiset(a[..]) == multiset(old(a[..]))
    {
      Swap(a, j);
      j := j - 1;
    }
  }

  /** Sorts the frame in place by insertion; ties keep no particular order in pandas. */
  method SortIndex<T>(a: array<Keyed<T>>)
    modifies a
    ensures Sorted(a[..])
    ensures multiset(a[..]) == multiset(old(a[..]))
  {
    if a.Length == 0 {
      return;
    }
    var i := 1;
    while i < a.Length
      invariant 1 <= i <= a.Length
      invariant Sorted(a[..i])
      invariant multiset(a[..]) == multiset(old(a[..]))
    {
      Insert(a, i);
      i := i + 1;
    }
    assert a[..i] == a[..];
  }
}
