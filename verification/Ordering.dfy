/**
 Rows picked by `ORDER BY … LIMIT k`. A row that is not eligible has no key; the keys of eligible
 rows are compared column by column. `TakeLeast` is the repeated minimum, `FirstOf` says what the
 query promises, and the two are shown to be the same list.
 */
module Ordering {
  import opened Prelude

  datatype Key = Key(first: int, second: int, third: int, fourth: int)

  predicate Below(x: Key, y: Key) {
    if x.first != y.first then x.first < y.first
    else if x.second != y.second then x.second < y.second
    else if x.third != y.third then x.third < y.third
    else x.fourth < y.fourth
  }

  function Least(keys: seq<Option<Key>>): (r: Option<nat>)
    ensures r.Some? ==>
              && r.value < |keys| && keys[r.value].Some?
              && forall j :: 0 <= j < |keys| && keys[j].Some? ==> !Below(keys[j].value, keys[r.value].value)
    ensures r.None? <==> forall j :: 0 <= j < |keys| ==> keys[j].None?
  {
    if keys == [] then None
    else
      var n := |keys| - 1;
      var before := Least(keys[..n]);
      if keys[n].None? then before
      else if before.Some? && Below(keys[before.value].value, keys[n].value) then before
      else Some(n)
  }

  function Eligible(keys: seq<Option<Key>>): set<nat> {
    set i: nat | i < |keys| && keys[i].Some?
  }

  function TakeLeast(keys: seq<Option<Key>>, k: nat): (picked: seq<nat>)
    ensures |picked| <= k
    decreases k
  {
    var i := Least(keys);
    if k == 0 || i.None? then [] else [i.value] + TakeLeast(keys[i.value := None], k - 1)
  }

  ghost predicate DistinctKeys(keys: seq<Option<Key>>) {
    forall i, j :: 0 <= i < |keys| && 0 <= j < |keys| && keys[i].Some? && keys[i] == keys[j] ==> i == j
  }

  /** Row `i` comes before every eligible row that is not in `picked` and not itself. */
  ghost predicate Precedes(keys: seq<Option<Key>>, i: nat, picked: seq<nat>)
    requires i < |keys| && keys[i].Some?
  {
    forall j :: 0 <= j < |keys| && keys[j].Some? && j != i && j !in picked ==> Below(keys[i].value, keys[j].value)
  }

  /** `picked` is an initial part of the eligible rows in key order. */
  ghost predicate FirstOf(keys: seq<Option<Key>>, picked: seq<nat>) {
    && (forall a :: 0 <= a < |picked| ==> picked[a] < |keys| && keys[picked[a]].Some?)
    && (forall a, b :: 0 <= a < b < |picked| ==> Below(keys[picked[a]].value, keys[picked[b]].value))
    && (forall a :: 0 <= a < |picked| ==> Precedes(keys, picked[a], picked))
  }

  lemma BelowIsTotal(x: Key, y: Key)
    ensures x == y || Below(x, y) || Below(y, x)
    ensures !(Below(x, y) && Below(y, x))
  {
  }

  lemma LeastIsBelowAll(keys: seq<Option<Key>>, i: nat)
    requires DistinctKeys(keys) && Least(keys) == Some(i)
    ensures forall j :: 0 <= j < |keys| && keys[j].Some? && j != i ==> Below(keys[i].value, keys[j].value)
  {
    hide Below, Least;
    forall j | 0 <= j < |keys| && keys[j].Some? && j != i ensures Below(keys[i].value, keys[j].value) {
      BelowIsTotal(keys[i].value, keys[j].value);
      assert keys[i] != keys[j];
    }
  }

  lemma ConsIsFirst(keys: seq<Option<Key>>, i: nat, tail: seq<nat>)
    requires DistinctKeys(keys) && Least(keys) == Some(i)
    requires FirstOf(keys[i := None], tail)
    ensures FirstOf(keys, [i] + tail)
  {
    hide Least, Below;
    var rest, picked := keys[i := None], [i] + tail;
    LeastIsBelowAll(keys, i);
    forall a | 0 <= a < |picked| ensures Precedes(keys, picked[a], picked) {
      if a > 0 {
        assert picked[a] == tail[a - 1] && Precedes(rest, tail[a - 1], tail);
        assert i in picked;
      }
    }
  }

  lemma NothingIsFirst(keys: seq<Option<Key>>)
    ensures FirstOf(keys, []) && (Least(keys).None? ==> |Eligible(keys)| == 0)
  {
    assert Least(keys).None? ==> Eligible(keys) == {};
  }

  lemma OneLess(keys: seq<Option<Key>>, i: nat)
    requires DistinctKeys(keys) && i < |keys| && keys[i].Some?
    ensures DistinctKeys(keys[i := None]) && |Eligible(keys)| == |Eligible(keys[i := None])| + 1
  {
    assert Eligible(keys) == Eligible(keys[i := None]) + {i};
  }

  lemma {:induction false} TakeLeastIsFirst(keys: seq<Option<Key>>, k: nat)
    requires DistinctKeys(keys)
    ensures FirstOf(keys, TakeLeast(keys, k))
    ensures |TakeLeast(keys, k)| == if k <= |Eligible(keys)| then k else |Eligible(keys)|
    decreases k
  {
    hide FirstOf, Least, Eligible, DistinctKeys;
    var i := Least(keys);
    NothingIsFirst(keys);
    if i.Some? && k > 0 {
      var rest := keys[i.value := None];
      OneLess(keys, i.value);
      TakeLeastIsFirst(rest, k - 1);
      ConsIsFirst(keys, i.value, TakeLeast(rest, k - 1));
    }
  }

  /** The promise determines the list. */
  lemma {:induction false} FirstOfIsUnique(keys: seq<Option<Key>>, p: seq<nat>, q: seq<nat>)
    requires FirstOf(keys, p) && FirstOf(keys, q) && |p| == |q|
    ensures p == q
  {
    hide FirstOf;
    if p != [] {
      var n := |p| - 1;
      FirstOfPrefix(keys, p);
      FirstOfPrefix(keys, q);
      FirstOfIsUnique(keys, p[..n], q[..n]);
      NextIsSame(keys, p, q, n);
      assert p == p[..n] + [p[n]] && q == q[..n] + [q[n]];
    }
  }

  lemma NextIsSame(keys: seq<Option<Key>>, p: seq<nat>, q: seq<nat>, n: nat)
    requires FirstOf(keys, p) && FirstOf(keys, q) && |p| == |q| == n + 1 && p[..n] == q[..n]
    ensures p[n] == q[n]
  {
    hide Precedes;
    LastIsNew(keys, p, n);
    LastIsNew(keys, q, n);
    assert p == p[..n] + [p[n]] && q == q[..n] + [q[n]];
    if p[n] != q[n] {
      assert q[n] !in p && p[n] !in q;
      BelowIsTotal(keys[p[n]].value, keys[q[n]].value);
      LastPrecedes(keys, p, n, q[n]);
      LastPrecedes(keys, q, n, p[n]);
    }
  }

  lemma LastIsNew(keys: seq<Option<Key>>, p: seq<nat>, n: nat)
    requires FirstOf(keys, p) && |p| == n + 1
    ensures p[n] !in p[..n]
  {
    hide Precedes;
    assert forall a :: 0 <= a < n ==> Below(keys[p[a]].value, keys[p[n]].value);
  }

  lemma LastPrecedes(keys: seq<Option<Key>>, p: seq<nat>, n: nat, j: nat)
    requires FirstOf(keys, p) && |p| == n + 1 && j < |keys| && keys[j].Some? && j !in p
    ensures Below(keys[p[n]].value, keys[j].value)
  {
    assert Precedes(keys, p[n], p);
  }

  lemma FirstOfPrefix(keys: seq<Option<Key>>, p: seq<nat>)
    requires FirstOf(keys, p) && p != []
    ensures FirstOf(keys, p[..|p| - 1])
  {
    var n := |p| - 1;
    var q := p[..n];
    forall a | 0 <= a < n ensures Precedes(keys, q[a], q) {
      assert Precedes(keys, p[a], p);
      assert p == q + [p[n]];
    }
  }
}
