/** Ordered queries: the rows of a table that satisfy a filter, in ascending order of a key. */
module Ordering {

  predicate Distinguishes(key: map<nat, nat>, s: set<nat>) {
    s <= key.Keys && forall a, b :: a in s && b in s && key[a] == key[b] ==> a == b
  }

  ghost predicate Lists(r: seq<nat>, s: set<nat>) {
    (forall i :: 0 <= i < |r| ==> r[i] in s) && (forall x :: x in s ==> x in r)
  }

  ghost predicate Ascends(r: seq<nat>, key: map<nat, nat>) {
    forall i, j :: 0 <= i < j < |r| ==> r[i] in key && r[j] in key && key[r[i]] < key[r[j]]
  }

  lemma Pick(s: set<nat>) returns (a: nat)
    requires s != {}
    ensures a in s
  {
    a :| a in s;
  }

  lemma {:induction false} FindLeast(s: set<nat>, key: map<nat, nat>) returns (m: nat)
    requires s != {} && s <= key.Keys
    ensures m in s && forall x :: x in s ==> key[m] <= key[x]
  {
    m := Pick(s);
    if s - {m} != {} {
      var n := FindLeast(s - {m}, key);
      forall x | x in s ensures key[if key[m] <= key[n] then m else n] <= key[x] {
        assert x == m || x in s - {m};
      }
      m := if key[m] <= key[n] then m else n;
    } else {
      assert forall x :: x in s ==> x == m || x in s - {m};
    }
  }

  lemma LeastExists(s: set<nat>, key: map<nat, nat>)
    requires s != {} && s <= key.Keys
    ensures exists m :: m in s && forall x :: x in s ==> key[m] <= key[x]
  {
    var m := FindLeast(s, key);
  }

  /** The element of `s` with the least key. */
  function Least(s: set<nat>, key: map<nat, nat>): (m: nat)
    requires s != {} && Distinguishes(key, s)
    ensures m in s && forall x :: x in s ==> key[m] <= key[x]
  {
    LeastExists(s, key);
    var m :| m in s && forall x :: x in s ==> key[m] <= key[x];
    m
  }

  /** `s` in ascending order of key. */
  function OrderBy(s: set<nat>, key: map<nat, nat>): (r: seq<nat>)
    requires Distinguishes(key, s)
    ensures |r| == |s|
  {
    if s == {} then []
    else
      var m := Least(s, key);
      [m] + OrderBy(s - {m}, key)
  }

  lemma {:induction false} OrderIsOrdered(s: set<nat>, key: map<nat, nat>)
    requires Distinguishes(key, s)
    ensures Lists(OrderBy(s, key), s) && Ascends(OrderBy(s, key), key)
  {
    if s != {} {
      var m := Least(s, key);
      OrderIsOrdered(s - {m}, key);
      var rest := OrderBy(s - {m}, key);
      assert forall x :: x in s && x != m ==> x in rest;
    }
  }

  /** An ascending listing starts with the least element. */
  lemma LeastComesFirst(r: seq<nat>, s: set<nat>, key: map<nat, nat>)
    requires s != {} && Distinguishes(key, s) && Lists(r, s) && Ascends(r, key)
    ensures |r| > 0 && r[0] == Least(s, key)
  {
    var m := Least(s, key);
    var i :| 0 <= i < |r| && r[i] == m;
    assert r[0] in s;
    assert key[m] <= key[r[0]];
    assert i > 0 ==> key[r[0]] < key[r[i]];
  }

  lemma TailLists(r: seq<nat>, s: set<nat>, key: map<nat, nat>)
    requires |r| > 0 && Lists(r, s) && Ascends(r, key) && Distinguishes(key, s)
    ensures Lists(r[1..], s - {r[0]}) && Ascends(r[1..], key) && Distinguishes(key, s - {r[0]})
  {
    forall x | x in s - {r[0]} ensures x in r[1..] {
      var j :| 0 <= j < |r| && r[j] == x;
      assert r[1..][j - 1] == x;
    }
    forall i | 0 <= i < |r[1..]| ensures r[1..][i] in s - {r[0]} {
      assert r[1..][i] == r[i + 1] && key[r[0]] < key[r[i + 1]];
    }
  }

  lemma OrderFromLeast(r: seq<nat>, s: set<nat>, key: map<nat, nat>)
    requires s != {} && Distinguishes(key, s) && |r| > 0 && r[0] == Least(s, key) && r[1..] == OrderBy(s - {r[0]}, key)
    ensures r == OrderBy(s, key)
  {
    assert r == [r[0]] + r[1..];
  }

  /** The order is the only ascending listing of the set. */
  lemma {:induction false} OrderIsUnique(r: seq<nat>, s: set<nat>, key: map<nat, nat>)
    requires Distinguishes(key, s) && Lists(r, s) && Ascends(r, key)
    ensures r == OrderBy(s, key)
  {
    if s == {} {
      assert r == [];
    } else {
      LeastComesFirst(r, s, key);
      TailLists(r, s, key);
      OrderIsUnique(r[1..], s - {r[0]}, key);
      OrderFromLeast(r, s, key);
    }
  }

  ghost predicate Beyond(rest: set<nat>, s: set<nat>, key: map<nat, nat>, last: nat)
    requires s <= key.Keys && last in key
  {
    forall x :: x in rest <==> x in s && key[x] > key[last]
  }

  lemma RestIsBeyond(r: seq<nat>, s: set<nat>, key: map<nat, nat>, rest: set<nat>, k: nat)
    requires Distinguishes(key, s) && Lists(r, s) && Ascends(r, key) && 0 < k <= |r|
    requires Beyond(rest, s, key, r[k - 1])
    ensures Lists(r[k..], rest)
  {
    forall x | x in rest ensures x in r[k..] {
      var j :| 0 <= j < |r| && r[j] == x;
      assert j >= k;
      assert r[k..][j - k] == x;
    }
  }

  /** Asking for what lies beyond the first `k` rows of a listing gives the rest of it. */
  lemma NextPage(s: set<nat>, key: map<nat, nat>, rest: set<nat>, k: nat)
    requires Distinguishes(key, s) && 0 < k <= |s|
    requires OrderBy(s, key)[k - 1] in key && Beyond(rest, s, key, OrderBy(s, key)[k - 1])
    ensures rest <= s
    ensures OrderBy(rest, key) == OrderBy(s, key)[k..]
  {
    var r := OrderBy(s, key);
    OrderIsOrdered(s, key);
    RestIsBeyond(r, s, key, rest, k);
    OrderIsUnique(r[k..], rest, key);
  }
}
