/** std::sort on sequences whose elements are pairwise comparable: there is one
  sorted arrangement, and Sort returns it. */
module Sorting {
  import opened Ids

  ghost predicate StrictlySorted<T(!new)>(less: (T, T) -> bool, s: seq<T>) {
    forall i, j :: 0 <= i < j < |s| ==> less(s[i], s[j])
  }

  ghost predicate StrictOrder<T(!new)>(less: (T, T) -> bool) {
    && (forall x, y :: less(x, y) ==> !less(y, x))
    && (forall x, y, z :: less(x, y) && less(y, z) ==> less(x, z))
  }

  ghost predicate Comparable<T(!new)>(less: (T, T) -> bool, s: seq<T>) {
    forall x, y :: x in s && y in s && x != y ==> less(x, y) || less(y, x)
  }

  function Insert<T(!new)>(less: (T, T) -> bool, x: T, s: seq<T>): (r: seq<T>)
    requires StrictOrder(less) && StrictlySorted(less, s)
    requires forall y :: y in s ==> less(x, y) || less(y, x)
    ensures StrictlySorted(less, r)
    ensures forall y :: y in r <==> y == x || y in s
    ensures |r| == |s| + 1
  {
    if s == [] || less(x, s[0]) then [x] + s
    else
      var rest := Insert(less, x, s[1..]);
      assert forall y :: y in s[1..] ==> less(s[0], y);
      assert forall y :: y in rest ==> less(s[0], y);
      assert s == [s[0]] + s[1..];
      [s[0]] + rest
  }

  function Sort<T(!new)>(less: (T, T) -> bool, s: seq<T>): (r: seq<T>)
    requires StrictOrder(less) && Distinct(s) && Comparable(less, s)
    ensures StrictlySorted(less, r)
    ensures forall x :: x in r <==> x in s
    ensures |r| == |s|
  {
    if s == [] then []
    else
      assert s == [s[0]] + s[1..];
      Insert(less, s[0], Sort(less, s[1..]))
  }

  lemma SortedIsDistinct<T(!new)>(less: (T, T) -> bool, s: seq<T>)
    requires StrictOrder(less) && StrictlySorted(less, s)
    ensures Distinct(s)
  {
  }

  /** A sorted sequence is determined by its elements. */
  lemma {:induction false} SortedUnique<T(!new)>(less: (T, T) -> bool, a: seq<T>, b: seq<T>)
    requires StrictOrder(less) && StrictlySorted(less, a) && StrictlySorted(less, b)
    requires forall x :: x in a <==> x in b
    ensures a == b
  {
    DistinctSize(a);
    DistinctSize(b);
    assert Elements(a) == Elements(b);
    if a != [] {
      assert a[0] in b;
      assert b != [] && b[0] in a;
      assert a[0] == b[0];
      var x := a[0];
      forall y ensures y in a[1..] <==> y in b[1..] {
        assert a == [x] + a[1..] && b == [x] + b[1..];
        assert y in a <==> y == x || y in a[1..];
        assert y in b <==> y == x || y in b[1..];
      }
      SortedUnique(less, a[1..], b[1..]);
      assert a == [x] + a[1..] && b == [x] + b[1..];
    }
  }

  /** The elements of a std::set in iteration order. */
  ghost function Ascending(s: set<NodeId>): (r: seq<NodeId>)
    ensures StrictlySorted(Less, r) && forall x :: x in r <==> x in s
    decreases |s|
  {
    if s == {} then []
    else
      LeastExists(s);
      var m :| m in s && forall x :: x in s ==> x == m || Less(m, x);
      var rest := Ascending(s - {m});
      assert forall x :: x in rest ==> Less(m, x);
      [m] + rest
  }

  /** The elements of a std::set, or the keys of a std::map, in iteration order. */
  method SortedKeys(s: set<NodeId>) returns (r: seq<NodeId>)
    ensures StrictlySorted(Less, r) && forall x :: x in r <==> x in s
  {
    r := [];
    var rest := s;
    while rest != {}
      invariant rest <= s && StrictlySorted(Less, r)
      invariant forall x :: x in r <==> x in s && x !in rest
      invariant forall x, y :: x in r && y in rest ==> Less(x, y)
      decreases |rest|
    {
      LeastExists(rest);
      var m :| m in rest && forall x :: x in rest ==> x == m || Less(m, x);
      r := r + [m];
      rest := rest - {m};
    }
  }
}
