/** Byte order of strings, and stable sorting by a given order. */
module Ordering {
  import opened Prelude

  predicate StringLess(a: string, b: string) {
    if b == [] then false
    else if a == [] then true
    else a[0] < b[0] || (a[0] == b[0] && StringLess(a[1..], b[1..]))
  }

  lemma {:induction false} StringLessTrans(a: string, b: string, c: string)
    requires StringLess(a, b) && StringLess(b, c)
    ensures StringLess(a, c)
  {
    if a != [] && a[0] == b[0] == c[0] {
      StringLessTrans(a[1..], b[1..], c[1..]);
    }
  }

  lemma {:induction false} StringLessTotal(a: string, b: string)
    ensures StringLess(a, b) || a == b || StringLess(b, a)
    ensures !(StringLess(a, b) && StringLess(b, a)) && !StringLess(a, a)
  {
    if a != [] && b != [] {
      StringLessTotal(a[1..], b[1..]);
      StringLessTotal(a[1..], a[1..]);
      if a[1..] == b[1..] && a[0] == b[0] {
        assert a == [a[0]] + a[1..] == [b[0]] + b[1..] == b;
      }
    } else if a != [] {
      StringLessTotal(a[1..], a[1..]);
    }
  }

  /** Inserts `x`, which came before all of `s`, before the first element not
      less than it: equal elements keep their order. */
  function InsertBy<T>(less: (T, T) -> bool, x: T, s: seq<T>): (r: seq<T>)
    ensures multiset(r) == multiset(s) + multiset{x}
  {
    if s == [] then [x]
    else if less(s[0], x) then
      var rest := InsertBy(less, x, s[1..]);
      assert s == [s[0]] + s[1..];
      [s[0]] + rest
    else [x] + s
  }

  function SortBy<T>(less: (T, T) -> bool, s: seq<T>): (r: seq<T>)
    ensures multiset(r) == multiset(s)
  {
    if s == [] then []
    else
      assert s == [s[0]] + s[1..];
      InsertBy(less, s[0], SortBy(less, s[1..]))
  }

  lemma SortMembers<T>(less: (T, T) -> bool, s: seq<T>)
    ensures |SortBy(less, s)| == |s|
    ensures forall x :: x in SortBy(less, s) <==> x in s
  {
    var r := SortBy(less, s);
    assert |multiset(r)| == |r| && |multiset(s)| == |s|;
    forall x ensures x in r <==> x in s {
      assert x in r <==> x in multiset(r);
      assert x in s <==> x in multiset(s);
    }
  }

  lemma SameBagDistinct<T>(a: seq<T>, b: seq<T>)
    requires multiset(a) == multiset(b) && Distinct(a)
    ensures Distinct(b)
  {
    forall i, j | 0 <= i < j < |b| ensures b[i] != b[j] {
      if b[i] == b[j] {
        assert b == b[..j] + [b[j]] + b[j + 1..];
        assert b[i] in b[..j];
        assert multiset(b)[b[j]] >= 2;
        DistinctCount(a, b[j]);
        assert false;
      }
    }
  }

  lemma {:induction false} DistinctCount<T>(a: seq<T>, x: T)
    requires Distinct(a)
    ensures multiset(a)[x] <= 1
  {
    if a != [] {
      var init := a[..|a| - 1];
      assert a == init + [a[|a| - 1]];
      DistinctCount(init, x);
      if x == a[|a| - 1] {
        assert x !in init;
      }
    }
  }

  /** A strict order of the elements of `bag`, any two of which compare. */
  ghost predicate TotalOn<T>(less: (T, T) -> bool, bag: set<T>) {
    && (forall x :: x in bag ==> !less(x, x))
    && (forall x, y, z :: x in bag && y in bag && z in bag && less(x, y) && less(y, z) ==> less(x, z))
    && (forall x, y :: x in bag && y in bag ==> x == y || less(x, y) || less(y, x))
  }

  ghost predicate From<T>(s: seq<T>, bag: set<T>) {
    forall x :: x in s ==> x in bag
  }

  ghost predicate Ascending<T>(less: (T, T) -> bool, s: seq<T>) {
    forall i, j :: 0 <= i < j < |s| ==> !less(s[j], s[i])
  }

  lemma {:induction false} InsertAscending<T>(less: (T, T) -> bool, bag: set<T>, x: T, s: seq<T>)
    requires TotalOn(less, bag) && From(s, bag) && x in bag && Ascending(less, s)
    ensures Ascending(less, InsertBy(less, x, s))
  {
    if s != [] && less(s[0], x) {
      InsertAscending(less, bag, x, s[1..]);
      var rest := InsertBy(less, x, s[1..]);
      forall y | y in rest ensures !less(y, s[0]) {
        assert y in multiset(rest);
        assert y == x || y in s[1..];
        if y in s[1..] {
          var k :| 0 <= k < |s[1..]| && s[1..][k] == y;
          assert s[k + 1] == y;
        }
      }
    } else if s != [] {
      forall k | 0 <= k < |s| ensures !less(s[k], x) {
        assert k == 0 || !less(s[k], s[0]);
      }
    }
  }

  lemma SortedFrom<T>(less: (T, T) -> bool, bag: set<T>, s: seq<T>)
    requires From(s, bag)
    ensures From(SortBy(less, s), bag)
  {
    forall x | x in SortBy(less, s) ensures x in bag {
      assert x in multiset(SortBy(less, s));
      assert x in multiset(s);
    }
  }

  lemma {:induction false} SortAscending<T>(less: (T, T) -> bool, bag: set<T>, s: seq<T>)
    requires TotalOn(less, bag) && From(s, bag)
    ensures Ascending(less, SortBy(less, s))
  {
    if s != [] {
      SortAscending(less, bag, s[1..]);
      SortedFrom(less, bag, s[1..]);
      InsertAscending(less, bag, s[0], SortBy(less, s[1..]));
    }
  }

  lemma SameFirst<T>(less: (T, T) -> bool, bag: set<T>, a: seq<T>, b: seq<T>)
    requires TotalOn(less, bag) && From(a, bag) && a != [] && b != []
    requires Ascending(less, a) && Ascending(less, b) && multiset(a) == multiset(b)
    ensures a[0] == b[0]
  {
    assert a[0] in multiset(b) && b[0] in multiset(a);
    var i :| 0 <= i < |b| && b[i] == a[0];
    var j :| 0 <= j < |a| && a[j] == b[0];
    assert i == 0 || !less(b[i], b[0]);
    assert j == 0 || !less(a[j], a[0]);
    assert a[0] in bag && a[j] in bag;
  }

  lemma TailBag<T>(a: seq<T>)
    requires a != []
    ensures multiset(a[1..]) == multiset(a) - multiset{a[0]}
  {
    assert a == [a[0]] + a[1..];
  }

  /** Two ascending arrangements of the same elements are equal. */
  lemma {:induction false} AscendingUnique<T>(less: (T, T) -> bool, bag: set<T>, a: seq<T>, b: seq<T>)
    requires TotalOn(less, bag) && From(a, bag)
    requires Ascending(less, a) && Ascending(less, b) && multiset(a) == multiset(b)
    ensures a == b
  {
    assert |multiset(a)| == |a| && |multiset(b)| == |b|;
    if a != [] {
      SameFirst(less, bag, a, b);
      TailBag(a);
      TailBag(b);
      hide TotalOn;
      AscendingUnique(less, bag, a[1..], b[1..]);
      assert a == [a[0]] + a[1..] && b == [b[0]] + b[1..];
    }
  }

  /** Sorting forgets the order it was given. */
  lemma SortForgetsOrder<T>(less: (T, T) -> bool, bag: set<T>, a: seq<T>, b: seq<T>)
    requires TotalOn(less, bag) && From(a, bag) && multiset(a) == multiset(b)
    ensures SortBy(less, a) == SortBy(less, b)
  {
    forall x | x in b ensures x in bag {
      assert x in multiset(a);
    }
    hide TotalOn, SortBy;
    SortAscending(less, bag, a);
    SortAscending(less, bag, b);
    SortedFrom(less, bag, a);
    AscendingUnique(less, bag, SortBy(less, a), SortBy(less, b));
  }
}
