/** Cardinality facts about finite sets, and sequences without repetitions. */
module Sets {
  /** A subset is no larger than its superset. */
  lemma {:induction false} SubsetCard<T>(a: set<T>, b: set<T>)
    requires a <= b
    ensures |a| <= |b|
  {
    if a != {} {
      var x :| x in a;
      SubsetCard(a - {x}, b - {x});
    }
  }

  /** A proper subset is strictly smaller. */
  lemma ProperSubsetCard<T>(a: set<T>, b: set<T>)
    requires a < b
    ensures |a| < |b|
  {
    assert b - a != {};
    var x :| x in b - a;
    SubsetCard(a, b - {x});
  }

  /** A subset as large as its superset is the superset. */
  lemma SameSizeSubset<T>(a: set<T>, b: set<T>)
    requires a <= b && |a| == |b|
    ensures a == b
  {
    if a != b {
      ProperSubsetCard(a, b);
    }
  }

  /** No element occurs twice. */
  predicate NoDuplicates<T(==)>(s: seq<T>)
  {
    forall i, j :: 0 <= i < j < |s| ==> s[i] != s[j]
  }

  /** The position of the first occurrence of `x` in `s`. */
  function FirstIndex<T(==)>(s: seq<T>, x: T): (i: nat)
    requires x in s
    ensures i < |s| && s[i] == x
    ensures forall j :: 0 <= j < i ==> s[j] != x
  {
    if s[0] == x then 0 else 1 + FirstIndex(s[1..], x)
  }

  /** An element of a prefix occurs first where it occurs first in the prefix. */
  lemma FirstIndexPrefix<T>(s: seq<T>, n: nat, x: T)
    requires n <= |s| && x in s[..n]
    ensures x in s && FirstIndex(s, x) == FirstIndex(s[..n], x)
  {
    var i := FirstIndex(s[..n], x);
    assert s[i] == x;
    var k := FirstIndex(s, x);
    assert k <= i;
    assert s[..n][k] == x;
  }

  /** `Distinct()`: the first occurrence of each element, in the order of those first occurrences. */
  function Distinct<T(==,!new)>(s: seq<T>): (r: seq<T>)
    ensures forall x :: x in r <==> x in s
    ensures NoDuplicates(r)
    ensures forall i, j :: 0 <= i < j < |r| ==> r[i] in s && r[j] in s && FirstIndex(s, r[i]) < FirstIndex(s, r[j])
  {
    if s == [] then []
    else
      var n := |s| - 1;
      var front := Distinct(s[..n]);
      DistinctStep(s, front);
      if s[n] in front then front else front + [s[n]]
  }

  /** The order of first occurrences survives one more element at the end. */
  lemma DistinctStep<T>(s: seq<T>, front: seq<T>)
    requires s != []
    requires forall x :: x in front <==> x in s[..|s| - 1]
    requires forall i, j :: 0 <= i < j < |front| ==>
      front[i] in s[..|s| - 1] && front[j] in s[..|s| - 1] && FirstIndex(s[..|s| - 1], front[i]) < FirstIndex(s[..|s| - 1], front[j])
    requires NoDuplicates(front)
    ensures var r := if s[|s| - 1] in front then front else front + [s[|s| - 1]];
      (forall x :: x in r <==> x in s) && NoDuplicates(r)
      && forall i, j :: 0 <= i < j < |r| ==> r[i] in s && r[j] in s && FirstIndex(s, r[i]) < FirstIndex(s, r[j])
  {
    var n := |s| - 1;
    assert forall x :: x in s <==> x in s[..n] || x == s[n];
    var r := if s[n] in front then front else front + [s[n]];
    forall i | 0 <= i < |front|
      ensures front[i] in s && FirstIndex(s, front[i]) == FirstIndex(s[..n], front[i]) < n
    {
      assert front[i] in front;
      FirstIndexPrefix(s, n, front[i]);
    }
    if s[n] !in front {
      assert s[n] !in s[..n];
      assert FirstIndex(s, s[n]) == n;
      forall i, j | 0 <= i < j < |r|
        ensures r[i] in s && r[j] in s && FirstIndex(s, r[i]) < FirstIndex(s, r[j])
      {
        assert r[i] == front[i];
        if j < |front| {
          assert r[j] == front[j];
        }
      }
    }
  }

  /** Keys looked up once each, each when not yet cached, stay so when at most one more lookup follows. */
  lemma LookedAppend<K, V>(known: map<K, V>, k: map<K, V>, k2: map<K, V>, looked: seq<K>, more: seq<K>)
    requires known.Keys <= k.Keys <= k2.Keys && |more| <= 1
    requires forall i :: 0 <= i < |looked| ==> looked[i] !in known && looked[i] in k
    requires forall i, j :: 0 <= i < j < |looked| ==> looked[i] != looked[j]
    requires forall i :: 0 <= i < |more| ==> more[i] !in k && more[i] in k2
    ensures forall i :: 0 <= i < |looked + more| ==> (looked + more)[i] !in known && (looked + more)[i] in k2
    ensures forall i, j :: 0 <= i < j < |looked + more| ==> (looked + more)[i] != (looked + more)[j]
  {
    var all := looked + more;
    forall i | 0 <= i < |all|
      ensures all[i] !in known && all[i] in k2
    {
      if i < |looked| {
        assert all[i] == looked[i];
      } else {
        assert all[i] == more[i - |looked|];
      }
    }
    forall i, j | 0 <= i < j < |all|
      ensures all[i] != all[j]
    {
      if j >= |looked| {
        assert all[j] == more[0] && all[j] !in k;
        assert all[i] == looked[i] && all[i] in k;
      } else {
        assert all[i] == looked[i] && all[j] == looked[j];
      }
    }
  }
}
