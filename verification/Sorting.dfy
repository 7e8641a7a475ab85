/** The library sort the source calls: stable, by a comparator. `less(a, b)` stands for
    a comparator returning a negative number. */
module Sorting {
  ghost predicate StrictWeakOrder<T(!new)>(less: (T, T) -> bool) {
    && (forall a, b :: less(a, b) ==> !less(b, a))
    && (forall a, b, c :: less(a, b) ==> less(a, c) || less(c, b))
  }

  ghost predicate Sorted<T>(less: (T, T) -> bool, s: seq<T>) {
    forall i, j :: 0 <= i < j < |s| ==> !less(s[j], s[i])
  }

  /** x goes before the first element it precedes. */
  function Insert<T>(less: (T, T) -> bool, x: T, s: seq<T>): seq<T> {
    if s == [] then [x]
    else if less(x, s[0]) then [x] + s
    else [s[0]] + Insert(less, x, s[1..])
  }

  function Sort<T>(less: (T, T) -> bool, s: seq<T>): seq<T> {
    if s == [] then [] else Insert(less, s[|s| - 1], Sort(less, s[..|s| - 1]))
  }

  lemma {:induction false} InsertKeepsAll<T>(less: (T, T) -> bool, x: T, s: seq<T>)
    ensures multiset(Insert(less, x, s)) == multiset{x} + multiset(s)
    ensures |Insert(less, x, s)| == |s| + 1
  {
    if s == [] {
    } else {
      assert s == [s[0]] + s[1..];
      if !less(x, s[0]) {
        InsertKeepsAll(less, x, s[1..]);
      }
    }
  }

  lemma {:induction false} InsertSorted<T(!new)>(less: (T, T) -> bool, x: T, s: seq<T>)
    requires StrictWeakOrder(less) && Sorted(less, s)
    ensures Sorted(less, Insert(less, x, s))
  {
    if s == [] {
    } else {
      var t := Insert(less, x, s[1..]);
      InsertSorted(less, x, s[1..]);
      InsertKeepsAll(less, x, s[1..]);
      if !less(x, s[0]) {
        forall j | 0 <= j < |t| ensures !less(t[j], s[0]) {
          InsertMember(less, x, s[1..], t[j]);
        }
      }
    }
  }

  lemma InsertMember<T>(less: (T, T) -> bool, x: T, s: seq<T>, y: T)
    requires y in Insert(less, x, s)
    ensures y == x || y in s
  {
    InsertKeepsAll(less, x, s);
    assert y in multiset(Insert(less, x, s));
  }

  lemma {:induction false} SortPermutes<T>(less: (T, T) -> bool, s: seq<T>)
    ensures multiset(Sort(less, s)) == multiset(s) && |Sort(less, s)| == |s|
  {
    if s == [] {
    } else {
      var init, last := s[..|s| - 1], s[|s| - 1];
      SortPermutes(less, init);
      InsertKeepsAll(less, last, Sort(less, init));
      assert s == init + [last];
    }
  }

  /** Sorting permutes and orders. */
  lemma {:induction false} SortSorts<T(!new)>(less: (T, T) -> bool, s: seq<T>)
    requires StrictWeakOrder(less)
    ensures multiset(Sort(less, s)) == multiset(s) && |Sort(less, s)| == |s|
    ensures Sorted(less, Sort(less, s))
  {
    SortPermutes(less, s);
    if s == [] {
    } else {
      SortSorts(less, s[..|s| - 1]);
      InsertSorted(less, s[|s| - 1], Sort(less, s[..|s| - 1]));
    }
  }

  /** What is less than a least element is less than all. */
  lemma LessThanLeast<T(!new)>(less: (T, T) -> bool, s: seq<T>, x: T, least: T)
    requires StrictWeakOrder(less) && less(x, least)
    requires forall j :: 0 <= j < |s| ==> !less(s[j], least)
    ensures forall j :: 0 <= j < |s| ==> less(x, s[j])
    ensures !less(x, x)
  {
  }

  /** A stable sort puts first the earliest of the least elements. */
  lemma {:induction false} SortHead<T(!new)>(less: (T, T) -> bool, s: seq<T>) returns (i: nat)
    requires StrictWeakOrder(less) && s != []
    ensures Sort(less, s) != [] && i < |s| && Sort(less, s)[0] == s[i]
    ensures forall j :: 0 <= j < |s| ==> !less(s[j], s[i])
    ensures forall j :: 0 <= j < i ==> less(s[i], s[j])
  {
    var n := |s| - 1;
    if n == 0 {
      i := 0;
    } else {
      i := SortHead(less, s[..n]);
      assert forall j :: 0 <= j < n ==> s[..n][j] == s[j];
      if less(s[n], s[i]) {
        LessThanLeast(less, s[..n], s[n], s[i]);
        i := n;
      }
    }
  }

  /** A list already in order is left as it is. */
  lemma {:induction false} SortFixed<T>(less: (T, T) -> bool, s: seq<T>)
    requires Sorted(less, s)
    ensures Sort(less, s) == s
  {
    if s == [] {
    } else {
      var n := |s| - 1;
      SortFixed(less, s[..n]);
      InsertLast(less, s[n], s[..n]);
    }
  }

  lemma {:induction false} InsertLast<T>(less: (T, T) -> bool, x: T, s: seq<T>)
    requires forall i :: 0 <= i < |s| ==> !less(x, s[i])
    ensures Insert(less, x, s) == s + [x]
  {
    if s == [] {
    } else {
      InsertLast(less, x, s[1..]);
    }
  }

  ghost predicate Distinct<T>(s: seq<T>) {
    forall i, j :: 0 <= i < j < |s| ==> s[i] != s[j]
  }

  /** A permutation of a list without repeats has none. */
  lemma DistinctPermutes<T>(a: seq<T>, b: seq<T>)
    requires Distinct(a) && multiset(a) == multiset(b)
    ensures Distinct(b)
  {
    forall i, j | 0 <= i < j < |b| ensures b[i] != b[j] {
      if b[i] == b[j] {
        RepeatedTwice(b, i, j);
        DistinctOnce(a, b[i]);
      }
    }
  }

  lemma RepeatedTwice<T>(s: seq<T>, i: nat, j: nat)
    requires i < j < |s| && s[i] == s[j]
    ensures multiset(s)[s[i]] >= 2
  {
    assert s == s[..i] + [s[i]] + s[i + 1..j] + [s[j]] + s[j + 1..];
  }

  lemma {:induction false} DistinctOnce<T>(s: seq<T>, x: T)
    requires Distinct(s)
    ensures multiset(s)[x] <= 1
  {
    if s == [] {
    } else {
      var init, last := s[..|s| - 1], s[|s| - 1];
      assert s == init + [last];
      DistinctOnce(init, x);
      if x == last {
        assert x !in init;
      }
    }
  }
}
