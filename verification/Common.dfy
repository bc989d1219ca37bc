/** Shared result types and the orders behind Python's `sorted`. */
module Common {

  datatype Option<+T> = None | Some(value: T)

  datatype Result<+T, +E> = Ok(value: T) | Err(error: E)

  /** The last element of a nonempty sequence. */
  function Last<T>(s: seq<T>): T
    requires s != []
  {
    s[|s| - 1]
  }

  /** Everything but the last element of a nonempty sequence. */
  function Init<T>(s: seq<T>): seq<T>
    requires s != []
  {
    s[..|s| - 1]
  }

  ghost predicate Distinct<T>(s: seq<T>) {
    forall i, j :: 0 <= i < j < |s| ==> s[i] != s[j]
  }

  /** A sequence of distinct elements is no longer than a set holding all of them. */
  lemma {:induction false} DistinctFits<T>(s: seq<T>, domain: set<T>)
    requires Distinct(s)
    requires forall x :: x in s ==> x in domain
    ensures |s| <= |domain|
    ensures |s| == |domain| ==> forall x :: x in domain ==> x in s
  {
    if s == [] {
    } else {
      var rest := domain - {Last(s)};
      forall x | x in Init(s) ensures x in rest {}
      DistinctFits(Init(s), rest);
      assert |domain| == |rest| + 1;
      if |s| == |domain| {
        forall x | x in domain ensures x in s {
          assert x == Last(s) || x in rest;
        }
      }
    }
  }

  lemma DistinctConcat<T>(a: seq<T>, b: seq<T>)
    ensures Distinct(a + b) <==> Distinct(a) && Distinct(b) && (forall y :: y in a ==> y !in b)
  {
    var s := a + b;
    if Distinct(s) {
      forall i, j | 0 <= i < j < |a| ensures a[i] != a[j] {
        assert s[i] != s[j];
      }
      forall i, j | 0 <= i < j < |b| ensures b[i] != b[j] {
        assert s[|a| + i] != s[|a| + j];
      }
      forall i, j | 0 <= i < |a| && 0 <= j < |b| ensures a[i] != b[j] {
        assert s[i] != s[|a| + j];
      }
    }
    if Distinct(a) && Distinct(b) && (forall y :: y in a ==> y !in b) {
      forall i, j | 0 <= i < j < |s| ensures s[i] != s[j] {
        assert i < |a| ==> s[i] in a;
        assert j >= |a| ==> s[j] in b;
      }
    }
  }

  lemma {:induction false} DistinctMultiset<T>(s: seq<T>)
    ensures Distinct(s) <==> forall x :: multiset(s)[x] <= 1
  {
    if s != [] {
      var t := Init(s);
      assert s == t + [Last(s)];
      DistinctMultiset(t);
      DistinctConcat(t, [Last(s)]);
      assert multiset(s) == multiset(t) + multiset{Last(s)};
      assert Last(s) in t <==> multiset(t)[Last(s)] > 0;
      if forall x :: multiset(s)[x] <= 1 {
        forall x ensures multiset(t)[x] <= 1 {
          assert multiset(s)[x] <= 1;
        }
        assert multiset(s)[Last(s)] <= 1;
      }
    }
  }

  lemma SamePopulation<T>(a: seq<T>, b: seq<T>)
    requires multiset(a) == multiset(b) && Distinct(a)
    ensures Distinct(b)
  {
    DistinctMultiset(a);
    DistinctMultiset(b);
  }
}

/** Stable sorting by a "less or equal" test, as the built-in `sorted` does it. */
module Sorting {
  import opened Common

  function Insert<T>(x: T, s: seq<T>, le: (T, T) -> bool): seq<T> {
    if s == [] || le(x, s[0]) then [x] + s else [s[0]] + Insert(x, s[1..], le)
  }

  function Sort<T>(s: seq<T>, le: (T, T) -> bool): seq<T> {
    if s == [] then [] else Insert(s[0], Sort(s[1..], le), le)
  }

  ghost predicate Sorted<T>(s: seq<T>, le: (T, T) -> bool) {
    forall i, j :: 0 <= i < j < |s| ==> le(s[i], s[j])
  }

  ghost predicate Transitive<T(!new)>(le: (T, T) -> bool) {
    forall x, y, z :: le(x, y) && le(y, z) ==> le(x, z)
  }

  ghost predicate Total<T(!new)>(le: (T, T) -> bool) {
    forall x, y :: le(x, y) || le(y, x)
  }

  ghost predicate Antisymmetric<T(!new)>(le: (T, T) -> bool) {
    forall x, y :: le(x, y) && le(y, x) ==> x == y
  }

  lemma {:induction false} InsertPermutes<T>(x: T, s: seq<T>, le: (T, T) -> bool)
    ensures multiset(Insert(x, s, le)) == multiset{x} + multiset(s)
    ensures |Insert(x, s, le)| == |s| + 1
  {
    if s == [] || le(x, s[0]) {
    } else {
      InsertPermutes(x, s[1..], le);
      assert s == [s[0]] + s[1..];
    }
  }

  lemma {:induction false} SortPermutes<T>(s: seq<T>, le: (T, T) -> bool)
    ensures multiset(Sort(s, le)) == multiset(s)
    ensures |Sort(s, le)| == |s|
  {
    if s == [] {
    } else {
      SortPermutes(s[1..], le);
      InsertPermutes(s[0], Sort(s[1..], le), le);
      assert s == [s[0]] + s[1..];
    }
  }

  lemma SortKeepsElements<T>(s: seq<T>, le: (T, T) -> bool)
    ensures forall x :: x in Sort(s, le) <==> x in s
  {
    SortPermutes(s, le);
    forall x ensures x in Sort(s, le) <==> x in s {
      assert x in Sort(s, le) <==> x in multiset(Sort(s, le));
      assert x in s <==> x in multiset(s);
    }
  }

  lemma {:induction false} InsertSorts<T(!new)>(x: T, s: seq<T>, le: (T, T) -> bool)
    requires Transitive(le) && Total(le)
    requires Sorted(s, le)
    ensures Sorted(Insert(x, s, le), le)
  {
    if s == [] || le(x, s[0]) {
      var r := [x] + s;
      forall i, j | 0 <= i < j < |r| ensures le(r[i], r[j]) {
        if i == 0 && j > 1 {
          assert le(s[0], s[j - 1]);
        }
      }
    } else {
      InsertSorts(x, s[1..], le);
      InsertPermutes(x, s[1..], le);
      var tail := Insert(x, s[1..], le);
      forall y | y in tail ensures le(s[0], y) {
        assert y in multiset(tail);
        assert y == x || y in s[1..];
      }
    }
  }

  lemma {:induction false} SortSorts<T(!new)>(s: seq<T>, le: (T, T) -> bool)
    requires Transitive(le) && Total(le)
    ensures Sorted(Sort(s, le), le)
  {
    if s == [] {
    } else {
      SortSorts(s[1..], le);
      InsertSorts(s[0], Sort(s[1..], le), le);
    }
  }

  /** Sorting leaves a sorted list alone. */
  lemma {:induction false} SortOfSorted<T>(s: seq<T>, le: (T, T) -> bool)
    requires Sorted(s, le)
    ensures Sort(s, le) == s
  {
    if s == [] {
    } else {
      SortOfSorted(s[1..], le);
      if |s| > 1 {
        assert le(s[0], s[1]);
      }
      assert s == [s[0]] + s[1..];
    }
  }

  lemma HeadIsLeast<T(!new)>(s: seq<T>, x: T, le: (T, T) -> bool)
    requires Sorted(s, le) && Total(le) && x in s
    ensures le(s[0], x)
  {
    var k :| 0 <= k < |s| && s[k] == x;
    assert le(s[0], s[0]);
  }

  lemma SameHead<T(!new)>(a: seq<T>, b: seq<T>, le: (T, T) -> bool)
    requires Antisymmetric(le) && Total(le)
    requires Sorted(a, le) && Sorted(b, le) && a != []
    requires multiset(a) == multiset(b)
    ensures b != [] && a[0] == b[0]
  {
    hide Sorted, Total;
    assert a[0] in multiset(b);
    assert b[0] in multiset(a);
    HeadIsLeast(a, b[0], le);
    HeadIsLeast(b, a[0], le);
  }

  lemma SameTail<T>(a: seq<T>, b: seq<T>)
    requires a != [] && b != [] && a[0] == b[0] && multiset(a) == multiset(b)
    ensures multiset(a[1..]) == multiset(b[1..])
  {
    assert a == [a[0]] + a[1..] && b == [b[0]] + b[1..];
    assert multiset(a[1..]) == multiset(a) - multiset{a[0]};
    assert multiset(b[1..]) == multiset(b) - multiset{b[0]};
  }

  lemma TailSorted<T>(s: seq<T>, le: (T, T) -> bool)
    requires s != [] && Sorted(s, le)
    ensures Sorted(s[1..], le)
  {
  }

  /** Two sorted arrangements of the same elements are the same list. */
  lemma {:induction false} SortedUnique<T(!new)>(a: seq<T>, b: seq<T>, le: (T, T) -> bool)
    requires Antisymmetric(le) && Total(le)
    requires Sorted(a, le) && Sorted(b, le)
    requires multiset(a) == multiset(b)
    ensures a == b
  {
    hide Antisymmetric, Total, Sorted;
    if a == [] {
      assert |b| == |multiset(b)| == |multiset(a)|;
    } else {
      SameHead(a, b, le);
      TailSorted(a, le);
      TailSorted(b, le);
      SameTail(a, b);
      SortedUnique(a[1..], b[1..], le);
      assert a == [a[0]] + a[1..] && b == [b[0]] + b[1..];
    }
  }

  // -- the order of Python strings: lexicographic by code point --

  predicate StrLe(a: string, b: string) {
    a == [] || (b != [] && (a[0] < b[0] || (a[0] == b[0] && StrLe(a[1..], b[1..]))))
  }

  /** In order means: a beginning of the other, or the smaller character at the first place where they differ. */
  lemma {:induction false} StrLeMeans(a: string, b: string)
    ensures StrLe(a, b) <==>
            a <= b || exists k :: 0 <= k < |a| && k < |b| && a[..k] == b[..k] && a[k] < b[k]
  {
    if a != [] && b != [] {
      StrLeMeans(a[1..], b[1..]);
      if a[0] == b[0] {
        forall k | 0 <= k < |a| - 1 && k < |b| - 1
          ensures a[1..][..k] == b[1..][..k] <==> a[..k + 1] == b[..k + 1]
        {
          assert a[..k + 1] == [a[0]] + a[1..][..k] && b[..k + 1] == [b[0]] + b[1..][..k];
        }
        assert forall k :: 0 < k < |a| ==> a[k] == a[1..][k - 1];
        assert forall k :: 0 < k < |b| ==> b[k] == b[1..][k - 1];
        assert a == [a[0]] + a[1..] && b == [b[0]] + b[1..];
      }
    }
  }

  lemma {:induction false} StrLeTotal(a: string, b: string)
    ensures StrLe(a, b) || StrLe(b, a)
  {
    if a != [] && b != [] && a[0] == b[0] {
      StrLeTotal(a[1..], b[1..]);
    }
  }

  lemma {:induction false} StrLeAntisymmetric(a: string, b: string)
    requires StrLe(a, b) && StrLe(b, a)
    ensures a == b
  {
    if a == [] || b == [] {
    } else {
      StrLeAntisymmetric(a[1..], b[1..]);
      assert a == [a[0]] + a[1..] && b == [b[0]] + b[1..];
    }
  }

  lemma {:induction false} StrLeTransitive(a: string, b: string, c: string)
    requires StrLe(a, b) && StrLe(b, c)
    ensures StrLe(a, c)
  {
    if a != [] && a[0] == b[0] && b[0] == c[0] {
      StrLeTransitive(a[1..], b[1..], c[1..]);
    }
  }
}
