/** Insertion sort by a comparison given as a value, and the fact that a sorted
    arrangement is unique when the comparison orders the elements strictly. */
module Sorting {

  /** `le` is a total preorder on the elements of `dom`. */
  ghost predicate TotalOrderOn<T(!new)>(le: (T, T) -> bool, dom: set<T>)
  {
    && (forall x, y :: x in dom && y in dom ==> le(x, y) || le(y, x))
    && (forall x, y, z :: x in dom && y in dom && z in dom && le(x, y) && le(y, z) ==> le(x, z))
  }

  ghost predicate AntisymmetricOn<T(!new)>(le: (T, T) -> bool, dom: set<T>)
  {
    forall x, y :: x in dom && y in dom && le(x, y) && le(y, x) ==> x == y
  }

  ghost predicate SortedBy<T>(le: (T, T) -> bool, s: seq<T>)
  {
    forall i, j :: 0 <= i < j < |s| ==> le(s[i], s[j])
  }

  ghost predicate Within<T(!new)>(s: seq<T>, dom: set<T>)
  {
    forall x :: x in s ==> x in dom
  }

  function Insert<T(!new)>(x: T, s: seq<T>, le: (T, T) -> bool): (r: seq<T>)
    ensures multiset(r) == multiset(s) + multiset{x}
  {
    if s == [] then [x]
    else if le(x, s[0]) then [x] + s
    else
      assert s == [s[0]] + s[1..];
      [s[0]] + Insert(x, s[1..], le)
  }

  function Sort<T(!new)>(s: seq<T>, le: (T, T) -> bool): (r: seq<T>)
    ensures multiset(r) == multiset(s)
  {
    if s == [] then []
    else
      assert s == [s[0]] + s[1..];
      Insert(s[0], Sort(s[1..], le), le)
  }

  lemma SameElements<T(!new)>(a: seq<T>, b: seq<T>)
    requires multiset(a) == multiset(b)
    ensures |a| == |b|
    ensures forall x :: x in a <==> x in b
  {
    assert |multiset(a)| == |a| && |multiset(b)| == |b|;
    forall x ensures x in a <==> x in b {
      assert x in a <==> x in multiset(a);
      assert x in b <==> x in multiset(b);
    }
  }

  lemma SortElements<T(!new)>(s: seq<T>, le: (T, T) -> bool)
    ensures |Sort(s, le)| == |s|
    ensures forall x :: x in Sort(s, le) <==> x in s
  {
    SameElements(Sort(s, le), s);
  }

  lemma InsertElements<T(!new)>(x: T, s: seq<T>, le: (T, T) -> bool)
    ensures forall y :: y in Insert(x, s, le) <==> y == x || y in s
  {
    assert multiset(s + [x]) == multiset(s) + multiset{x};
    SameElements(Insert(x, s, le), s + [x]);
  }

  lemma {:induction false} InsertSorted<T(!new)>(x: T, s: seq<T>, le: (T, T) -> bool, dom: set<T>)
    requires TotalOrderOn(le, dom) && x in dom && Within(s, dom)
    requires SortedBy(le, s)
    ensures SortedBy(le, Insert(x, s, le))
  {
    if s != [] {
      if le(x, s[0]) {
        forall j | 0 <= j < |s| ensures le(x, s[j]) {
          assert s[0] in s && s[j] in s;
        }
      } else {
        assert s[0] in s;
        InsertSorted(x, s[1..], le, dom);
        InsertElements(x, s[1..], le);
        ConsSorted(s[0], Insert(x, s[1..], le), le);
      }
    }
  }

  lemma ConsSorted<T(!new)>(h: T, r: seq<T>, le: (T, T) -> bool)
    requires SortedBy(le, r)
    requires forall y :: y in r ==> le(h, y)
    ensures SortedBy(le, [h] + r)
  {
  }

  lemma {:induction false} SortSorted<T(!new)>(s: seq<T>, le: (T, T) -> bool, dom: set<T>)
    requires TotalOrderOn(le, dom) && Within(s, dom)
    ensures SortedBy(le, Sort(s, le))
  {
    if s != [] {
      SortSorted(s[1..], le, dom);
      SortElements(s[1..], le);
      InsertSorted(s[0], Sort(s[1..], le), le, dom);
    }
  }

  lemma TailMultiset<T(!new)>(a: seq<T>)
    requires a != []
    ensures multiset(a[1..]) == multiset(a) - multiset{a[0]}
  {
    assert a == [a[0]] + a[1..];
  }

  lemma LeastFirst<T(!new)>(a: seq<T>, b: seq<T>, le: (T, T) -> bool, dom: set<T>)
    requires a != [] && b != [] && a[0] in b && b[0] in a
    requires SortedBy(le, a) && SortedBy(le, b)
    requires AntisymmetricOn(le, dom) && a[0] in dom && b[0] in dom
    ensures a[0] == b[0]
  {
    var i :| 0 <= i < |b| && b[i] == a[0];
    var j :| 0 <= j < |a| && a[j] == b[0];
    assert i == 0 || le(b[0], b[i]);
    assert j == 0 || le(a[0], a[j]);
  }

  /** Two sorted arrangements of the same elements are equal. */
  lemma {:induction false} SortedUnique<T(!new)>(a: seq<T>, b: seq<T>, le: (T, T) -> bool, dom: set<T>)
    requires multiset(a) == multiset(b)
    requires SortedBy(le, a) && SortedBy(le, b)
    requires AntisymmetricOn(le, dom) && Within(a, dom)
    ensures a == b
  {
    SameElements(a, b);
    if a != [] {
      assert a[0] in a && b[0] in b;
      LeastFirst(a, b, le, dom);
      TailMultiset(a);
      TailMultiset(b);
      SortedUnique(a[1..], b[1..], le, dom);
      assert a == [a[0]] + a[1..] && b == [b[0]] + b[1..];
    }
  }
}
