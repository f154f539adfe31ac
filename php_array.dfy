/**
 * PHP associative arrays: ordered (key, value) entries with unique keys.
 * `$a[$k] = $v` replaces the value in place when the key exists and
 * appends otherwise; `unset`, `array_values`, `ksort` and `asort` are
 * modelled on top.
 */
module PhpArray {
  import opened Wrappers
  import opened Php

  function Keys<K, V>(a: seq<(K, V)>): (ks: seq<K>)
    ensures |ks| == |a| && forall i :: 0 <= i < |a| ==> ks[i] == a[i].0
  {
    if a == [] then [] else [a[0].0] + Keys(a[1..])
  }

  /** `array_values`: the values in array order, re-indexed from 0. */
  function Values<K, V>(a: seq<(K, V)>): (vs: seq<V>)
    ensures |vs| == |a| && forall i :: 0 <= i < |a| ==> vs[i] == a[i].1
  {
    if a == [] then [] else [a[0].1] + Values(a[1..])
  }

  predicate DistinctKeys<K(==), V>(a: seq<(K, V)>)
  {
    forall i, j :: 0 <= i < j < |a| ==> a[i].0 != a[j].0
  }

  predicate HasKey<K(==), V>(a: seq<(K, V)>, k: K)
  {
    exists i :: 0 <= i < |a| && a[i].0 == k
  }

  /** Position of the entry holding key `k`. */
  function IndexOfKey<K(==), V>(a: seq<(K, V)>, k: K): (i: nat)
    requires HasKey(a, k)
    ensures i < |a| && a[i].0 == k && forall j :: 0 <= j < i ==> a[j].0 != k
  {
    if a[0].0 == k then 0
    else
      assert HasKey(a[1..], k) by {
        var m :| 0 <= m < |a| && a[m].0 == k;
        assert a[1..][m - 1].0 == k;
      }
      1 + IndexOfKey(a[1..], k)
  }

  /** `$a[$k]`, `null` when the key is absent. */
  function Get<K(==), V>(a: seq<(K, V)>, k: K): Option<V>
  {
    if HasKey(a, k) then Some(a[IndexOfKey(a, k)].1) else None
  }

  /** `$a[$k] = $v`: replaced in place when the key exists, appended otherwise. */
  function Put<K(==), V>(a: seq<(K, V)>, k: K, v: V): (r: seq<(K, V)>)
    ensures HasKey(a, k) ==> |r| == |a| && Keys(r) == Keys(a)
    ensures !HasKey(a, k) ==> r == a + [(k, v)]
  {
    if HasKey(a, k) then
      var r := a[IndexOfKey(a, k) := (k, v)];
      assert Keys(r) == Keys(a);
      r
    else a + [(k, v)]
  }

  lemma PutGet<K, V>(a: seq<(K, V)>, k: K, v: V, k': K)
    ensures Get(Put(a, k, v), k') == if k' == k then Some(v) else Get(a, k')
  {
    var r := Put(a, k, v);
    if HasKey(a, k) {
      var i := IndexOfKey(a, k);
      if k' == k {
        assert HasKey(r, k) && IndexOfKey(r, k) == i;
      } else if HasKey(a, k') {
        assert HasKey(r, k') && IndexOfKey(r, k') == IndexOfKey(a, k');
      }
    } else {
      if k' == k {
        assert r[|a|].0 == k;
        FirstIndex(r, k, |a|);
      } else if HasKey(a, k') {
        var m := IndexOfKey(a, k');
        assert r[m].0 == k';
        FirstIndex(r, k', m);
      }
    }
  }

  lemma FirstIndex<K, V>(a: seq<(K, V)>, k: K, i: nat)
    requires i < |a| && a[i].0 == k && forall j :: 0 <= j < i ==> a[j].0 != k
    ensures HasKey(a, k) && IndexOfKey(a, k) == i
  {
  }

  /** Two arrays with the same key list find every key at the same position. */
  lemma SameKeysIndex<K, V, W>(a: seq<(K, V)>, b: seq<(K, W)>, k: K)
    requires Keys(a) == Keys(b)
    ensures HasKey(a, k) <==> HasKey(b, k)
    ensures HasKey(a, k) ==> IndexOfKey(a, k) == IndexOfKey(b, k)
  {
    if HasKey(a, k) {
      var i := IndexOfKey(a, k);
      assert Keys(a)[i] == b[i].0;
      forall j | 0 <= j < i ensures b[j].0 != k {
        assert Keys(a)[j] == b[j].0;
      }
      FirstIndex(b, k, i);
    }
    if HasKey(b, k) {
      var j :| 0 <= j < |b| && b[j].0 == k;
      assert Keys(b)[j] == a[j].0;
    }
  }

  /** Without its last entry an array keeps distinct keys, none of them the last entry's key. */
  lemma DistinctKeysInit<K, V>(a: seq<(K, V)>)
    requires DistinctKeys(a) && a != []
    ensures DistinctKeys(a[..|a| - 1]) && !HasKey(a[..|a| - 1], a[|a| - 1].0)
  {
    var init := a[..|a| - 1];
    assert forall i :: 0 <= i < |init| ==> init[i] == a[i];
  }

  lemma PutDistinct<K, V>(a: seq<(K, V)>, k: K, v: V)
    requires DistinctKeys(a)
    ensures DistinctKeys(Put(a, k, v))
  {
  }

  /** After `$a[$k] = $v` exactly the keys of `$a` and `$k` are present. */
  lemma PutHasKey<K, V>(a: seq<(K, V)>, k: K, v: V, k': K)
    ensures HasKey(Put(a, k, v), k') <==> HasKey(a, k') || k' == k
  {
    PutGet(a, k, v, k');
  }

  /** A key is in a non-empty array when it is in all but the last entry or is the last entry's. */
  lemma HasKeyLast<K, V>(a: seq<(K, V)>, k: K)
    requires a != []
    ensures HasKey(a, k) <==> HasKey(a[..|a| - 1], k) || a[|a| - 1].0 == k
  {
    var n := |a| - 1;
    if HasKey(a[..n], k) {
      var j :| 0 <= j < n && a[..n][j].0 == k;
      assert a[j].0 == k;
    }
    if HasKey(a, k) && a[n].0 != k {
      var j :| 0 <= j < |a| && a[j].0 == k;
      assert a[..n][j].0 == k;
    }
  }

  /** `$a[$k] = $v` brings in no entry but the one written. */
  lemma PutIn<K, V>(a: seq<(K, V)>, k: K, v: V, e: (K, V))
    requires e in Put(a, k, v)
    ensures e in a || e == (k, v)
  {
    if HasKey(a, k) {
      var r := Put(a, k, v);
      var m :| 0 <= m < |r| && r[m] == e;
      if m != IndexOfKey(a, k) {
        assert r[m] == a[m];
      }
    }
  }

  /** `unset($a[$k])`. */
  function Unset<K(==), V>(a: seq<(K, V)>, k: K): (r: seq<(K, V)>)
    ensures !HasKey(r, k)
    ensures forall i :: 0 <= i < |r| ==> r[i] in a && r[i].0 != k
    ensures forall i :: 0 <= i < |a| && a[i].0 != k ==> a[i] in r
  {
    if a == [] then []
    else if a[0].0 == k then Unset(a[1..], k)
    else [a[0]] + Unset(a[1..], k)
  }

  lemma {:induction false} UnsetDistinct<K, V>(a: seq<(K, V)>, k: K)
    requires DistinctKeys(a)
    ensures DistinctKeys(Unset(a, k))
  {
    if a != [] {
      UnsetDistinct(a[1..], k);
      var rest := Unset(a[1..], k);
      forall i | 0 <= i < |rest| ensures rest[i].0 != a[0].0 {
        assert rest[i] in a[1..];
      }
    }
  }

  /** `unset` leaves the other keys' values alone. */
  lemma UnsetGet<K, V>(a: seq<(K, V)>, k: K, k': K)
    requires DistinctKeys(a) && k' != k
    ensures Get(Unset(a, k), k') == Get(a, k')
  {
    UnsetDistinct(a, k);
    var r := Unset(a, k);
    if Get(a, k').Some? {
      GetDistinct(a, k', Get(a, k').value);
      GetDistinct(r, k', Get(a, k').value);
    } else if Get(r, k').Some? {
      GetDistinct(r, k', Get(r, k').value);
      GetDistinct(a, k', Get(r, k').value);
    }
  }

  /** `unset` leaves the other keys in place. */
  lemma UnsetHasKey<K, V>(a: seq<(K, V)>, k: K, k': K)
    requires k' != k
    ensures HasKey(Unset(a, k), k') <==> HasKey(a, k')
  {
    var r := Unset(a, k);
    if HasKey(a, k') {
      var i :| 0 <= i < |a| && a[i].0 == k';
      assert a[i] in r;
      var m :| 0 <= m < |r| && r[m] == a[i];
    }
    if HasKey(r, k') {
      var m :| 0 <= m < |r| && r[m].0 == k';
      assert r[m] in a;
      var i :| 0 <= i < |a| && a[i] == r[m];
    }
  }

  /** An entry occurs at most once in an array with unique keys. */
  lemma {:induction false} DistinctKeysCount<K, V>(a: seq<(K, V)>, x: (K, V))
    requires DistinctKeys(a)
    ensures multiset(a)[x] <= 1
  {
    if a != [] {
      assert a == [a[0]] + a[1..];
      assert DistinctKeys(a[1..]) by {
        forall i, j | 0 <= i < j < |a[1..]| ensures a[1..][i].0 != a[1..][j].0 {
          assert a[1..][i] == a[i + 1] && a[1..][j] == a[j + 1];
        }
      }
      DistinctKeysCount(a[1..], x);
      if x == a[0] {
        forall m | 0 <= m < |a[1..]| ensures a[1..][m] != x {
          assert a[1..][m] == a[m + 1];
        }
        assert x !in a[1..];
      }
    }
  }

  /** A reordering of an array with unique keys still has unique keys. */
  lemma PermutationDistinctKeys<K, V>(a: seq<(K, V)>, b: seq<(K, V)>)
    requires DistinctKeys(a) && multiset(a) == multiset(b)
    ensures DistinctKeys(b)
  {
    forall i, j | 0 <= i < j < |b| ensures b[i].0 != b[j].0 {
      assert b[i] in multiset(a) && b[j] in multiset(a);
      if b[i] == b[j] {
        TwoOccurrences(b, i, j);
        DistinctKeysCount(a, b[i]);
        assert false;
      } else {
        DistinctEntries(a, b[i], b[j]);
      }
    }
  }

  lemma TwoOccurrences<T>(s: seq<T>, i: nat, j: nat)
    requires i < j < |s| && s[i] == s[j]
    ensures multiset(s)[s[i]] >= 2
  {
    assert s == s[..j] + s[j..];
    assert s[..j][i] == s[i] && s[j..][0] == s[j];
    assert multiset(s)[s[i]] == multiset(s[..j])[s[i]] + multiset(s[j..])[s[i]];
  }

  /** Two different entries of an array with unique keys have different keys. */
  lemma DistinctEntries<K, V>(a: seq<(K, V)>, x: (K, V), y: (K, V))
    requires DistinctKeys(a) && x in a && y in a && x != y
    ensures x.0 != y.0
  {
    var p :| 0 <= p < |a| && a[p] == x;
    var q :| 0 <= q < |a| && a[q] == y;
  }

  /** In an array with unique keys, `Get` finds exactly the stored entries. */
  lemma GetDistinct<K, V>(a: seq<(K, V)>, k: K, v: V)
    requires DistinctKeys(a)
    ensures Get(a, k) == Some(v) <==> (k, v) in a
  {
    if (k, v) in a {
      var m :| 0 <= m < |a| && a[m] == (k, v);
      assert HasKey(a, k);
    }
  }

  predicate SortedByKey<V>(a: seq<(Key, V)>)
  {
    forall i, j :: 0 <= i < j < |a| ==> KeyLess(a[i].0, a[j].0)
  }

  function InsertByKey<V(==)>(a: seq<(Key, V)>, e: (Key, V)): (r: seq<(Key, V)>)
    requires SortedByKey(a) && forall i :: 0 <= i < |a| ==> a[i].0 != e.0
    ensures SortedByKey(r) && multiset(r) == multiset(a) + multiset{e}
  {
    if a == [] then [e]
    else if KeyLess(e.0, a[0].0) then
      InsertFirst(a, e);
      [e] + a
    else
      KeyLessTotal(e.0, a[0].0);
      var rest := InsertByKey(a[1..], e);
      InsertAfterHead(a, e, rest);
      [a[0]] + rest
  }

  lemma InsertFirst<V>(a: seq<(Key, V)>, e: (Key, V))
    requires SortedByKey(a) && a != [] && KeyLess(e.0, a[0].0)
    ensures SortedByKey([e] + a)
  {
    var r := [e] + a;
    forall i, j | 0 <= i < j < |r| ensures KeyLess(r[i].0, r[j].0) {
      if i == 0 && j > 1 { KeyLessTransitive(e.0, a[0].0, a[j - 1].0); }
    }
  }

  lemma InsertAfterHead<V>(a: seq<(Key, V)>, e: (Key, V), rest: seq<(Key, V)>)
    requires SortedByKey(a) && a != [] && KeyLess(a[0].0, e.0)
    requires SortedByKey(rest) && multiset(rest) == multiset(a[1..]) + multiset{e}
    ensures SortedByKey([a[0]] + rest) && multiset([a[0]] + rest) == multiset(a) + multiset{e}
  {
    var r := [a[0]] + rest;
    forall j | 0 < j < |r| ensures KeyLess(a[0].0, r[j].0) {
      var x := rest[j - 1];
      assert x in multiset(rest);
      if x != e {
        assert x in multiset(a[1..]);
        var m :| 0 <= m < |a[1..]| && a[1..][m] == x;
        assert a[m + 1] == x;
      }
    }
    assert a == [a[0]] + a[1..];
  }

  /** `ksort`: the same entries, in ascending key order. */
  method KSort<V(==)>(a: seq<(Key, V)>) returns (r: seq<(Key, V)>)
    requires DistinctKeys(a)
    ensures SortedByKey(r) && multiset(r) == multiset(a)
  {
    r := [];
    var i := 0;
    while i < |a|
      invariant 0 <= i <= |a|
      invariant SortedByKey(r) && multiset(r) == multiset(a[..i])
    {
      forall j | 0 <= j < |r| ensures r[j].0 != a[i].0 {
        assert r[j] in multiset(a[..i]);
      }
      r := InsertByKey(r, a[i]);
      assert a[..i + 1] == a[..i] + [a[i]];
      i := i + 1;
    }
    assert a[..i] == a;
  }

  predicate SortedByValue<K>(a: seq<(K, int)>)
  {
    forall i, j :: 0 <= i < j < |a| ==> a[i].1 <= a[j].1
  }

  lemma ConsSortedByValue<K>(x: (K, int), a: seq<(K, int)>)
    requires SortedByValue(a) && forall j :: 0 <= j < |a| ==> x.1 <= a[j].1
    ensures SortedByValue([x] + a)
  {
    var r := [x] + a;
    forall i, j | 0 <= i < j < |r| ensures r[i].1 <= r[j].1 {
      assert r[j] == a[j - 1];
      if i > 0 { assert r[i] == a[i - 1]; }
    }
  }

  /** The head of a sorted list is below every entry of its tail with one larger value added. */
  lemma HeadBelowRest<K>(a: seq<(K, int)>, e: (K, int), rest: seq<(K, int)>)
    requires SortedByValue(a) && a != [] && a[0].1 <= e.1
    requires multiset(rest) == multiset(a[1..]) + multiset{e}
    ensures forall j :: 0 <= j < |rest| ==> a[0].1 <= rest[j].1
  {
    forall j | 0 <= j < |rest| ensures a[0].1 <= rest[j].1 {
      var x := rest[j];
      assert x in multiset(rest);
      if x != e {
        assert x in multiset(a[1..]);
        var m :| 0 <= m < |a[1..]| && a[1..][m] == x;
        assert a[m + 1] == x;
      }
    }
  }

  function InsertByValue<K(==)>(a: seq<(K, int)>, e: (K, int)): (r: seq<(K, int)>)
    requires SortedByValue(a)
    ensures SortedByValue(r) && multiset(r) == multiset(a) + multiset{e}
  {
    if a == [] then [e]
    else if e.1 < a[0].1 then
      ConsSortedByValue(e, a);
      [e] + a
    else
      var rest := InsertByValue(a[1..], e);
      HeadBelowRest(a, e, rest);
      ConsSortedByValue(a[0], rest);
      assert a == [a[0]] + a[1..];
      [a[0]] + rest
  }

  /** `asort` on integer values: the same entries, values ascending. */
  method ASort<K(==)>(a: seq<(K, int)>) returns (r: seq<(K, int)>)
    ensures SortedByValue(r) && multiset(r) == multiset(a)
  {
    r := [];
    var i := 0;
    while i < |a|
      invariant 0 <= i <= |a|
      invariant SortedByValue(r) && multiset(r) == multiset(a[..i])
    {
      r := InsertByValue(r, a[i]);
      assert a[..i + 1] == a[..i] + [a[i]];
      i := i + 1;
    }
    assert a[..i] == a;
  }
}
