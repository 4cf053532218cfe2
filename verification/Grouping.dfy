/** Grouping with a dict of lists: `groups.setdefault(key, []).append(item)`, groups in first-seen order. */
module Grouping {
  import opened Common
  import opened Sorting

  datatype Group<T> = Group(key: string, items: seq<T>)

  function AddTo<T>(groups: seq<Group<T>>, k: string, x: T): seq<Group<T>> {
    if groups == [] then [Group(k, [x])]
    else if groups[0].key == k then [Group(k, groups[0].items + [x])] + groups[1..]
    else [groups[0]] + AddTo(groups[1..], k, x)
  }

  function GroupBy<T>(items: seq<T>, key: T -> string): seq<Group<T>> {
    if items == [] then []
    else AddTo(GroupBy(items[..|items|-1], key), key(items[|items|-1]), items[|items|-1])
  }

  function Having<T>(key: T -> string, k: string): T -> bool { (x: T) => key(x) == k }

  ghost predicate DistinctKeys<T>(groups: seq<Group<T>>) {
    forall i, j :: 0 <= i < j < |groups| ==> groups[i].key != groups[j].key
  }

  ghost predicate HasKey<T>(groups: seq<Group<T>>, k: string) {
    exists i :: 0 <= i < |groups| && groups[i].key == k
  }

  /** The items filed under `k`; none if there is no such group. */
  function Lookup<T>(groups: seq<Group<T>>, k: string): seq<T> {
    if groups == [] then []
    else if groups[0].key == k then groups[0].items
    else Lookup(groups[1..], k)
  }

  lemma {:induction false} AddToLookup<T>(groups: seq<Group<T>>, k: string, x: T, k': string)
    ensures Lookup(AddTo(groups, k, x), k') == Lookup(groups, k') + if k' == k then [x] else []
    ensures HasKey(AddTo(groups, k, x), k') <==> HasKey(groups, k') || k' == k
  {
    var more := AddTo(groups, k, x);
    if groups == [] {
      assert more[0].key == k;
    } else if groups[0].key == k {
      assert more[1..] == groups[1..];
      assert more[0].key == k;
      assert forall i :: 0 <= i < |groups| ==> more[i].key == groups[i].key;
    } else {
      AddToLookup(groups[1..], k, x, k');
      assert more[1..] == AddTo(groups[1..], k, x);
      HasKeyTail(groups, k');
      HasKeyTail(more, k');
    }
  }

  lemma HasKeyTail<T>(groups: seq<Group<T>>, k: string)
    requires groups != []
    ensures HasKey(groups, k) <==> groups[0].key == k || HasKey(groups[1..], k)
  {
    if i :| 0 <= i < |groups| && groups[i].key == k {
      if i > 0 { assert groups[1..][i-1].key == k; }
    }
    if i :| 0 <= i < |groups[1..]| && groups[1..][i].key == k {
      assert groups[i+1].key == k;
    }
  }

  lemma {:induction false} AddToDistinct<T>(groups: seq<Group<T>>, k: string, x: T)
    requires DistinctKeys(groups)
    ensures DistinctKeys(AddTo(groups, k, x))
  {
    var more := AddTo(groups, k, x);
    if groups == [] {
    } else if groups[0].key == k {
      assert forall i :: 0 <= i < |groups| ==> more[i].key == groups[i].key;
    } else {
      AddToDistinct(groups[1..], k, x);
      AddToLookup(groups[1..], k, x, groups[0].key);
      assert forall i :: 0 <= i < |groups[1..]| ==> groups[1..][i].key == groups[i+1].key;
      forall j | 0 < j < |more| ensures more[j].key != groups[0].key {
        assert more[1..][j-1] == more[j];
      }
    }
  }

  lemma {:induction false} LookupAt<T>(groups: seq<Group<T>>, i: nat)
    requires DistinctKeys(groups) && i < |groups|
    ensures Lookup(groups, groups[i].key) == groups[i].items
  {
    if i > 0 { LookupAt(groups[1..], i - 1); }
  }

  lemma {:induction false} LookupIsFilter<T>(items: seq<T>, key: T -> string, k: string)
    ensures Lookup(GroupBy(items, key), k) == Filter(items, Having(key, k))
    ensures HasKey(GroupBy(items, key), k) <==> exists i :: 0 <= i < |items| && key(items[i]) == k
    ensures DistinctKeys(GroupBy(items, key))
  {
    if items != [] {
      var init, x := items[..|items|-1], items[|items|-1];
      LookupIsFilter(init, key, k);
      AddToLookup(GroupBy(init, key), key(x), x, k);
      AddToDistinct(GroupBy(init, key), key(x), x);
      assert items == init + [x];
      FilterAppend(init, [x], Having(key, k));
      HasOneMore(init, x, key, k);
    }
  }

  lemma HasOneMore<T>(init: seq<T>, x: T, key: T -> string, k: string)
    ensures var items := init + [x];
      (exists i :: 0 <= i < |items| && key(items[i]) == k) <==> (exists i :: 0 <= i < |init| && key(init[i]) == k) || key(x) == k
  {
    var items := init + [x];
    if i :| 0 <= i < |init| && key(init[i]) == k { assert items[i] == init[i]; }
    if i :| 0 <= i < |items| && key(items[i]) == k {
      if i < |init| { assert init[i] == items[i]; }
    }
    assert items[|init|] == x;
  }

  /** Groups have distinct keys, each is exactly the items with its key in their order (never none), and
      every item's key has a group: each item is in exactly one. */
  lemma GroupsPartition<T>(items: seq<T>, key: T -> string)
    ensures var groups := GroupBy(items, key);
      && DistinctKeys(groups)
      && (forall i :: 0 <= i < |groups| ==> groups[i].items == Filter(items, Having(key, groups[i].key)) && groups[i].items != [])
      && (forall i :: 0 <= i < |items| ==> HasKey(groups, key(items[i])))
  {
    var groups := GroupBy(items, key);
    LookupIsFilter(items, key, "");
    forall i | 0 <= i < |groups| ensures groups[i].items == Filter(items, Having(key, groups[i].key)) && groups[i].items != [] {
      LookupAt(groups, i);
      LookupIsFilter(items, key, groups[i].key);
      GroupsNotEmpty(items, key, i);
    }
    forall i | 0 <= i < |items| ensures HasKey(groups, key(items[i])) {
      LookupIsFilter(items, key, key(items[i]));
    }
  }

  lemma {:induction false} AddToNotEmpty<T>(groups: seq<Group<T>>, k: string, x: T)
    requires forall i :: 0 <= i < |groups| ==> groups[i].items != []
    ensures forall i :: 0 <= i < |AddTo(groups, k, x)| ==> AddTo(groups, k, x)[i].items != []
  {
    if groups != [] && groups[0].key != k { AddToNotEmpty(groups[1..], k, x); }
  }

  lemma {:induction false} AllNotEmpty<T>(items: seq<T>, key: T -> string)
    ensures forall i :: 0 <= i < |GroupBy(items, key)| ==> GroupBy(items, key)[i].items != []
  {
    if items != [] {
      var init, x := items[..|items|-1], items[|items|-1];
      AllNotEmpty(init, key);
      AddToNotEmpty(GroupBy(init, key), key(x), x);
    }
  }

  lemma GroupsNotEmpty<T>(items: seq<T>, key: T -> string, i: nat)
    requires i < |GroupBy(items, key)|
    ensures GroupBy(items, key)[i].items != []
  {
    AllNotEmpty(items, key);
  }

  // ---------- totals ----------

  function Sum<T>(items: seq<T>, weight: T -> int): int {
    if items == [] then 0 else Sum(items[..|items|-1], weight) + weight(items[|items|-1])
  }

  function SumGroups<T>(groups: seq<Group<T>>, weight: T -> int): int {
    if groups == [] then 0 else Sum(groups[0].items, weight) + SumGroups(groups[1..], weight)
  }

  lemma {:induction false} AddToSum<T>(groups: seq<Group<T>>, k: string, x: T, weight: T -> int)
    ensures SumGroups(AddTo(groups, k, x), weight) == SumGroups(groups, weight) + weight(x)
  {
    if groups == [] {
      assert [x][..0] == [];
      assert Sum([x], weight) == weight(x);
    } else if groups[0].key == k {
      var items := groups[0].items;
      assert (items + [x])[..|items|] == items;
      assert AddTo(groups, k, x)[1..] == groups[1..];
    } else {
      AddToSum(groups[1..], k, x, weight);
      assert AddTo(groups, k, x)[1..] == AddTo(groups[1..], k, x);
    }
  }

  /** Whatever is added up over the groups is what is added up over the items. */
  lemma {:induction false} GroupingConserves<T>(items: seq<T>, key: T -> string, weight: T -> int)
    ensures SumGroups(GroupBy(items, key), weight) == Sum(items, weight)
  {
    if items != [] {
      var init, x := items[..|items|-1], items[|items|-1];
      GroupingConserves(init, key, weight);
      AddToSum(GroupBy(init, key), key(x), x, weight);
    }
  }

  lemma {:induction false} SumConcat<T>(a: seq<T>, b: seq<T>, weight: T -> int)
    ensures Sum(a + b, weight) == Sum(a, weight) + Sum(b, weight)
  {
    if b == [] {
      assert a + b == a;
    } else {
      SumConcat(a, b[..|b|-1], weight);
      assert (a + b)[..|a+b|-1] == a + b[..|b|-1];
    }
  }

  lemma SumWithout<T>(l: seq<T>, x: T, r: seq<T>, weight: T -> int)
    ensures Sum(l + [x] + r, weight) == Sum(l + r, weight) + weight(x)
  {
    SumConcat(l + [x], r, weight);
    SumConcat(l, r, weight);
    assert (l + [x])[..|l|] == l;
  }

  lemma TakeOut<T>(b: seq<T>, x: T) returns (l: seq<T>, r: seq<T>)
    requires x in multiset(b)
    ensures b == l + [x] + r && multiset(l + r) == multiset(b) - multiset{x}
  {
    var k :| 0 <= k < |b| && b[k] == x;
    l, r := b[..k], b[k+1..];
    assert b == l + [x] + r;
  }

  /** A sum does not depend on order. */
  lemma {:induction false} SumPermutes<T>(a: seq<T>, b: seq<T>, weight: T -> int)
    requires multiset(a) == multiset(b)
    ensures Sum(a, weight) == Sum(b, weight)
    decreases |a|
  {
    assert |multiset(a)| == |a| && |multiset(b)| == |b|;
    if a != [] {
      var init, x := a[..|a|-1], a[|a|-1];
      assert a == init + [x];
      assert x in multiset(b);
      var l, r := TakeOut(b, x);
      assert multiset(a) == multiset(init) + multiset{x};
      SumPermutes(init, l + r, weight);
      SumWithout(l, x, r, weight);
    }
  }

  // ---------- the order of groups ----------

  ghost predicate Ascends(ps: seq<nat>) { forall i, j :: 0 <= i < j < |ps| ==> ps[i] < ps[j] }

  /** The first item filed under `k` is at `p`. */
  ghost predicate FirstAt<T(!new)>(items: seq<T>, key: T -> string, k: string, p: nat) {
    p < |items| && key(items[p]) == k && forall q :: 0 <= q < p ==> key(items[q]) != k
  }

  ghost predicate StartAt<T(!new)>(items: seq<T>, key: T -> string, groups: seq<Group<T>>, ps: seq<nat>) {
    |ps| == |groups| && Ascends(ps) && forall i :: 0 <= i < |ps| ==> FirstAt(items, key, groups[i].key, ps[i])
  }

  lemma {:induction false} AddToKeys<T>(groups: seq<Group<T>>, k: string, x: T)
    ensures var more := AddTo(groups, k, x);
      && |more| == |groups| + (if HasKey(groups, k) then 0 else 1)
      && (forall i :: 0 <= i < |groups| ==> more[i].key == groups[i].key)
      && (!HasKey(groups, k) ==> more[|groups|].key == k)
  {
    if groups != [] && groups[0].key != k {
      AddToKeys(groups[1..], k, x);
      HasKeyTail(groups, k);
    }
  }

  /** Groups come in the order in which their keys are first seen. */
  lemma {:induction false} GroupsInFirstSeenOrder<T(!new)>(items: seq<T>, key: T -> string) returns (ps: seq<nat>)
    ensures StartAt(items, key, GroupBy(items, key), ps)
  {
    ps := [];
    if items != [] {
      var init, x := items[..|items|-1], items[|items|-1];
      ps := GroupsInFirstSeenOrder(init, key);
      var groups := GroupBy(init, key);
      AddToKeys(groups, key(x), x);
      forall i | 0 <= i < |ps| ensures FirstAt(items, key, groups[i].key, ps[i]) { FirstStays(items, key, groups[i].key, ps[i]); }
      if !HasKey(groups, key(x)) {
        NewKeyIsFirst(items, key);
        ps := ps + [|init|];
      }
    }
  }

  lemma FirstStays<T(!new)>(items: seq<T>, key: T -> string, k: string, p: nat)
    requires items != [] && FirstAt(items[..|items|-1], key, k, p)
    ensures p < |items| - 1 && FirstAt(items, key, k, p)
  {
    assert forall q :: 0 <= q <= p ==> items[q] == items[..|items|-1][q];
  }

  lemma NewKeyIsFirst<T(!new)>(items: seq<T>, key: T -> string)
    requires items != [] && !HasKey(GroupBy(items[..|items|-1], key), key(items[|items|-1]))
    ensures FirstAt(items, key, key(items[|items|-1]), |items| - 1)
  {
    var init := items[..|items|-1];
    GroupsPartition(init, key);
    forall q | 0 <= q < |init| ensures key(items[q]) != key(items[|init|]) { assert HasKey(GroupBy(init, key), key(init[q])); }
  }
}
