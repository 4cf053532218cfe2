/** Stable sorting by an integer key, as `sorted(items, key=...)` and `ORDER BY` do it. */
module Sorting {
  import opened Common

  /** Insert `x` after every element whose key is not larger. */
  function Insert<T>(x: T, s: seq<T>, key: T -> int): seq<T> {
    if s == [] || key(x) < key(s[0]) then [x] + s else [s[0]] + Insert(x, s[1..], key)
  }

  function SortBy<T>(s: seq<T>, key: T -> int): seq<T> {
    if s == [] then [] else Insert(s[|s|-1], SortBy(s[..|s|-1], key), key)
  }

  ghost predicate IsSorted<T>(s: seq<T>, key: T -> int) {
    forall i, j :: 0 <= i < j < |s| ==> key(s[i]) <= key(s[j])
  }

  lemma {:induction false} InsertPermutes<T>(x: T, s: seq<T>, key: T -> int)
    ensures multiset(Insert(x, s, key)) == multiset(s + [x])
    ensures |Insert(x, s, key)| == |s| + 1
    ensures forall y :: y in Insert(x, s, key) <==> y == x || y in s
    ensures forall k :: 0 <= k < |Insert(x, s, key)| ==> Insert(x, s, key)[k] == x || Insert(x, s, key)[k] in s
  {
    if s == [] || key(x) < key(s[0]) {
      assert multiset([x] + s) == multiset(s + [x]);
    } else {
      InsertPermutes(x, s[1..], key);
      assert s == [s[0]] + s[1..];
      assert [s[0]] + (s[1..] + [x]) == s + [x];
    }
  }

  lemma {:induction false} InsertSorts<T>(x: T, s: seq<T>, key: T -> int)
    requires IsSorted(s, key)
    ensures IsSorted(Insert(x, s, key), key)
  {
    if s != [] && key(x) >= key(s[0]) {
      InsertSorts(x, s[1..], key);
      InsertPermutes(x, s[1..], key);
      var t := Insert(x, s[1..], key);
      forall y | y in s[1..] ensures key(s[0]) <= key(y) {
        var j :| 0 <= j < |s[1..]| && s[1..][j] == y;
        assert y == s[j+1];
      }
      forall k | 0 <= k < |t| ensures key(s[0]) <= key(t[k]) {
        assert t[k] == x || t[k] in s[1..];
      }
    }
  }

  lemma {:induction false} InsertAtEnd<T>(x: T, s: seq<T>, key: T -> int)
    requires forall k :: 0 <= k < |s| ==> key(s[k]) <= key(x)
    ensures Insert(x, s, key) == s + [x]
  {
    if s != [] {
      InsertAtEnd(x, s[1..], key);
      assert s == [s[0]] + s[1..];
    }
  }

  lemma {:induction false} SortPermutes<T>(s: seq<T>, key: T -> int)
    ensures multiset(SortBy(s, key)) == multiset(s)
    ensures |SortBy(s, key)| == |s|
  {
    if s != [] {
      var init, x := s[..|s|-1], s[|s|-1];
      SortPermutes(init, key);
      InsertPermutes(x, SortBy(init, key), key);
      assert s == init + [x];
      assert multiset(init + [x]) == multiset(init) + multiset{x};
    }
  }

  lemma {:induction false} SortSorts<T>(s: seq<T>, key: T -> int)
    ensures IsSorted(SortBy(s, key), key)
  {
    if s != [] {
      SortSorts(s[..|s|-1], key);
      InsertSorts(s[|s|-1], SortBy(s[..|s|-1], key), key);
    }
  }

  /** Sorting permutes and orders. */
  lemma SortSpec<T>(s: seq<T>, key: T -> int)
    ensures IsSorted(SortBy(s, key), key)
    ensures multiset(SortBy(s, key)) == multiset(s)
    ensures |SortBy(s, key)| == |s|
  {
    SortSorts(s, key);
    SortPermutes(s, key);
  }

  /** Sorting leaves what is already in order alone. */
  lemma {:induction false} SortIdentity<T>(s: seq<T>, key: T -> int)
    requires IsSorted(s, key)
    ensures SortBy(s, key) == s
  {
    if s != [] {
      var init, x := s[..|s|-1], s[|s|-1];
      SortIdentity(init, key);
      InsertAtEnd(x, init, key);
      assert s == init + [x];
    }
  }

  lemma SortMembers<T>(s: seq<T>, key: T -> int)
    ensures forall x :: x in SortBy(s, key) <==> x in s
    ensures forall k :: 0 <= k < |SortBy(s, key)| ==> SortBy(s, key)[k] in s
  {
    SortSpec(s, key);
    forall k | 0 <= k < |SortBy(s, key)| ensures SortBy(s, key)[k] in s {
      assert SortBy(s, key)[k] in multiset(SortBy(s, key));
    }
    forall x ensures x in SortBy(s, key) <==> x in s {
      assert x in multiset(SortBy(s, key)) <==> x in multiset(s);
    }
  }

  /** The ends of a sorted sequence are elements of it and bound the keys of all. */
  lemma SortEnds<T>(s: seq<T>, key: T -> int)
    requires s != []
    ensures var t := SortBy(s, key);
      && t != [] && t[0] in s && t[|t|-1] in s
      && forall x :: x in s ==> key(t[0]) <= key(x) <= key(t[|t|-1])
  {
    SortSpec(s, key);
    SortMembers(s, key);
    var t := SortBy(s, key);
    forall x | x in s ensures key(t[0]) <= key(x) <= key(t[|t|-1]) {
      var k :| 0 <= k < |t| && t[k] == x;
    }
  }

  lemma {:induction false} FilterAppend<T>(a: seq<T>, b: seq<T>, keep: T -> bool)
    ensures Filter(a + b, keep) == Filter(a, keep) + Filter(b, keep)
  {
    if a == [] {
      assert a + b == b;
    } else {
      FilterAppend(a[1..], b, keep);
      assert (a + b)[1..] == a[1..] + b;
    }
  }

  lemma {:induction false} FilterNone<T>(s: seq<T>, keep: T -> bool)
    requires forall k :: 0 <= k < |s| ==> !keep(s[k])
    ensures Filter(s, keep) == []
  {
    if s != [] { FilterNone(s[1..], keep); }
  }

  /** Filtering does not go past the last element kept. */
  lemma FilterPrefix<T>(s: seq<T>, n: nat, keep: T -> bool)
    requires n <= |s| && forall k :: n <= k < |s| ==> !keep(s[k])
    ensures Filter(s[..n], keep) == Filter(s, keep)
  {
    FilterNone(s[n..], keep);
    FilterAppend(s[..n], s[n..], keep);
    assert s[..n] + s[n..] == s;
  }

  lemma {:induction false} FilterMembers<T>(s: seq<T>, keep: T -> bool)
    ensures forall y :: y in Filter(s, keep) <==> y in s && keep(y)
    ensures |Filter(s, keep)| <= |s|
  {
    if s != [] {
      FilterMembers(s[1..], keep);
      assert s == [s[0]] + s[1..];
    }
  }

  lemma {:induction false} FilterAlike<T>(s: seq<T>, f: T -> bool, g: T -> bool)
    requires forall x :: x in s ==> f(x) == g(x)
    ensures Filter(s, f) == Filter(s, g)
  {
    if s != [] {
      assert s == [s[0]] + s[1..];
      FilterAlike(s[1..], f, g);
    }
  }

  lemma {:induction false} InsertStable<T>(x: T, s: seq<T>, key: T -> int, at: T -> bool, v: int)
    requires IsSorted(s, key)
    requires at(x) ==> key(x) == v
    requires forall y :: y in s && at(y) ==> key(y) == v
    ensures Filter(Insert(x, s, key), at) == Filter(s + [x], at)
  {
    FilterAppend(s, [x], at);
    if s == [] {
    } else if key(x) < key(s[0]) {
      assert ([x] + s)[1..] == s;
      if at(x) {
        forall k | 0 <= k < |s| ensures !at(s[k]) {
          assert key(s[0]) <= key(s[k]) && s[k] in s;
        }
        FilterNone(s, at);
      }
    } else {
      InsertStable(x, s[1..], key, at, v);
      FilterAppend(s[1..], [x], at);
      var t := Insert(x, s[1..], key);
      assert ([s[0]] + t)[1..] == t;
    }
  }

  /** Stability: elements that share a key keep their order. */
  lemma {:induction false} SortStable<T>(s: seq<T>, key: T -> int, at: T -> bool, v: int)
    requires forall x :: x in s && at(x) ==> key(x) == v
    ensures Filter(SortBy(s, key), at) == Filter(s, at)
  {
    if s != [] {
      var init, x := s[..|s|-1], s[|s|-1];
      assert s == init + [x];
      SortStable(init, key, at, v);
      var sorted := SortBy(init, key);
      SortSpec(init, key);
      SortMembers(init, key);
      forall y | y in sorted && at(y) ensures key(y) == v {
        var k :| 0 <= k < |sorted| && sorted[k] == y;
        assert sorted[k] in init;
      }
      InsertStable(x, sorted, key, at, v);
      FilterAppend(sorted, [x], at);
      FilterAppend(init, [x], at);
    }
  }
}
