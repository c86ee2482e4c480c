/** Python's `sorted` on values compared through an integer key: a sorted permutation of
    its input, and the only one when equal keys mean equal values. */
module Sorting {
  ghost predicate SortedBy<T>(key: T -> int, s: seq<T>) {
    |s| > 1 ==> key(s[0]) <= key(s[1]) && SortedBy(key, s[1..])
  }

  function InsertBy<T>(key: T -> int, x: T, s: seq<T>): seq<T> {
    if s == [] || key(x) <= key(s[0]) then [x] + s else [s[0]] + InsertBy(key, x, s[1..])
  }

  function SortBy<T>(key: T -> int, s: seq<T>): seq<T> {
    if s == [] then [] else InsertBy(key, s[0], SortBy(key, s[1..]))
  }

  lemma HeadAndTail<T>(s: seq<T>)
    requires s != []
    ensures multiset(s) == multiset{s[0]} + multiset(s[1..])
  {
    assert s == [s[0]] + s[1..];
  }

  lemma {:induction false} InsertByPermutes<T>(key: T -> int, x: T, s: seq<T>)
    ensures multiset(InsertBy(key, x, s)) == multiset{x} + multiset(s)
  {
    if s != [] && key(x) > key(s[0]) {
      InsertByPermutes(key, x, s[1..]);
      HeadAndTail(s);
    }
  }

  lemma {:induction false} InsertBySorted<T>(key: T -> int, x: T, s: seq<T>)
    requires SortedBy(key, s)
    ensures SortedBy(key, InsertBy(key, x, s))
  {
    var r := InsertBy(key, x, s);
    if s == [] || key(x) <= key(s[0]) {
      assert r[1..] == s;
    } else {
      InsertBySorted(key, x, s[1..]);
      assert r[1..] == InsertBy(key, x, s[1..]);
    }
  }

  lemma {:induction false} SortByIsSort<T>(key: T -> int, s: seq<T>)
    ensures multiset(SortBy(key, s)) == multiset(s)
    ensures SortedBy(key, SortBy(key, s))
  {
    if s != [] {
      SortByIsSort(key, s[1..]);
      InsertByPermutes(key, s[0], SortBy(key, s[1..]));
      InsertBySorted(key, s[0], SortBy(key, s[1..]));
      HeadAndTail(s);
    }
  }

  ghost predicate Injective<T(!new)>(key: T -> int) {
    forall x, y :: key(x) == key(y) ==> x == y
  }

  lemma {:induction false} HeadIsLeast<T>(key: T -> int, s: seq<T>, x: T)
    requires SortedBy(key, s) && x in s
    ensures key(s[0]) <= key(x)
  {
    if s[0] != x {
      assert x in s[1..];
      HeadIsLeast(key, s[1..], x);
    }
  }

  lemma HeadsAgree<T(!new)>(key: T -> int, a: seq<T>, b: seq<T>)
    requires Injective(key) && SortedBy(key, a) && SortedBy(key, b)
    requires multiset(a) == multiset(b) && a != []
    ensures b != [] && a[0] == b[0]
  {
    assert a[0] in multiset(b);
    HeadIsLeast(key, b, a[0]);
    assert b[0] in multiset(a);
    HeadIsLeast(key, a, b[0]);
  }

  lemma {:induction false} SortedIsUnique<T(!new)>(key: T -> int, a: seq<T>, b: seq<T>)
    requires Injective(key) && SortedBy(key, a) && SortedBy(key, b)
    requires multiset(a) == multiset(b)
    ensures a == b
  {
    if a != [] {
      HeadsAgree(key, a, b);
      HeadAndTail(a);
      HeadAndTail(b);
      assert multiset(a[1..]) == multiset(a) - multiset{a[0]};
      SortedIsUnique(key, a[1..], b[1..]);
      assert a == [a[0]] + a[1..] && b == [b[0]] + b[1..];
    } else if b != [] {
      HeadsAgree(key, b, a);
    }
  }

  /** Sorting forgets the order of its input. */
  lemma SortIgnoresOrder<T(!new)>(key: T -> int, s: seq<T>, t: seq<T>)
    requires Injective(key) && multiset(s) == multiset(t)
    ensures SortBy(key, s) == SortBy(key, t)
  {
    SortByIsSort(key, s);
    SortByIsSort(key, t);
    SortedIsUnique(key, SortBy(key, s), SortBy(key, t));
  }

  lemma EmptyOrSomeElement(s: set<int>)
    ensures s == {} || exists x :: x in s
  {
    assert (forall x :: x !in s) ==> s == {};
  }

  lemma {:induction false} Least(s: set<int>)
    requires s != {}
    ensures exists x :: x in s && forall y :: y in s ==> x <= y
  {
    EmptyOrSomeElement(s);
    var z :| z in s;
    var rest := s - {z};
    assert forall y :: y in s ==> y == z || y in rest;
    if rest == {} {
      assert forall y :: y in s ==> z <= y;
    } else {
      Least(rest);
      var x :| x in rest && forall y :: y in rest ==> x <= y;
      if x <= z {
        assert forall y :: y in s ==> x <= y;
      } else {
        assert forall y :: y in s ==> z <= y;
      }
    }
  }

  function LeastOf(s: set<int>): (x: int)
    requires s != {}
    ensures x in s && forall y :: y in s ==> x <= y
  {
    Least(s);
    var x :| x in s && forall y :: y in s ==> x <= y;
    x
  }

  /** `sorted` of a set. */
  function Ascending(s: set<int>): (r: seq<int>)
    ensures forall x :: x in r <==> x in s
    ensures forall i, j :: 0 <= i < j < |r| ==> r[i] < r[j]
    decreases |s|
  {
    if s == {} then []
    else
      var x := LeastOf(s);
      [x] + Ascending(s - {x})
  }
}
