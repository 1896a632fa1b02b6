/** Python's `sorted(xs, key=...)` and `list.sort(key=...)`: a stable sort
    under an ordering on keys, written here as a comparison `le` that is a
    total preorder ("the key of a is at most the key of b"). */
module Sorting {
  import opened Seqs

  /** `le` compares by some key: it is total and transitive. */
  ghost predicate TotalPreorder<T(!new)>(le: (T, T) -> bool)
  {
    && (forall a, b :: le(a, b) || le(b, a))
    && (forall a, b, c :: le(a, b) && le(b, c) ==> le(a, c))
  }

  /** `s` is in non-decreasing key order. */
  predicate SortedBy<T>(s: seq<T>, le: (T, T) -> bool)
  {
    forall i, j :: 0 <= i < j < |s| ==> le(s[i], s[j])
  }

  /** Puts `x` in front of the first element whose key is not below its
      own, so that `x` precedes every element it ties with. */
  function Insert<T>(x: T, s: seq<T>, le: (T, T) -> bool): (r: seq<T>)
    ensures |r| == |s| + 1
    ensures multiset(r) == multiset(s) + multiset{x}
  {
    if s == [] || le(x, s[0]) then [x] + s
    else
      assert s == [s[0]] + s[1..];
      [s[0]] + Insert(x, s[1..], le)
  }

  /** A stable sort: insertion sort from the back of the list. */
  function SortBy<T>(s: seq<T>, le: (T, T) -> bool): (r: seq<T>)
    ensures |r| == |s|
    ensures multiset(r) == multiset(s)
  {
    if s == [] then []
    else
      assert s == [s[0]] + s[1..];
      Insert(s[0], SortBy(s[1..], le), le)
  }

  lemma {:induction false} InsertSorted<T(!new)>(x: T, s: seq<T>, le: (T, T) -> bool)
    requires TotalPreorder(le)
    requires SortedBy(s, le)
    ensures SortedBy(Insert(x, s, le), le)
    ensures forall y :: y in Insert(x, s, le) ==> y == x || y in s
  {
    if s == [] || le(x, s[0]) {
    } else {
      InsertSorted(x, s[1..], le);
      var r := Insert(x, s, le);
      assert r == [s[0]] + Insert(x, s[1..], le);
      assert le(s[0], x);
      forall j | 0 < j < |r|
        ensures le(r[0], r[j])
      {
        assert r[j] in Insert(x, s[1..], le);
      }
    }
  }

  /** The result of `SortBy` is in key order. */
  lemma {:induction false} SortBySorted<T(!new)>(s: seq<T>, le: (T, T) -> bool)
    requires TotalPreorder(le)
    ensures SortedBy(SortBy(s, le), le)
  {
    if s != [] {
      SortBySorted(s[1..], le);
      InsertSorted(s[0], SortBy(s[1..], le), le);
    }
  }

  lemma {:induction false} InsertKeepsClassOrder<T(!new)>(x: T, s: seq<T>, le: (T, T) -> bool, inClass: T -> bool)
    requires TotalPreorder(le)
    requires forall a, b :: inClass(a) && inClass(b) ==> le(a, b)
    ensures Filter(Insert(x, s, le), inClass) == (if inClass(x) then [x] else []) + Filter(s, inClass)
  {
    if s == [] || le(x, s[0]) {
      assert ([x] + s)[1..] == s;
    } else {
      InsertKeepsClassOrder(x, s[1..], le, inClass);
      assert ([s[0]] + Insert(x, s[1..], le))[1..] == Insert(x, s[1..], le);
    }
  }

  /** Stability: the elements of one tie class (elements whose keys are all
      equal) leave the sort in the order they entered it. */
  lemma {:induction false} SortByStable<T(!new)>(s: seq<T>, le: (T, T) -> bool, inClass: T -> bool)
    requires TotalPreorder(le)
    requires forall a, b :: inClass(a) && inClass(b) ==> le(a, b)
    ensures Filter(SortBy(s, le), inClass) == Filter(s, inClass)
  {
    if s != [] {
      SortByStable(s[1..], le, inClass);
      InsertKeepsClassOrder(s[0], SortBy(s[1..], le), le, inClass);
    }
  }
}
