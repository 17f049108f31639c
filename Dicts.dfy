/**
 * A Python dictionary as the programs use it: keys map to values and iterate in the order
 * they were first inserted; storing under a known key replaces the value in place.
 */
module Dicts {
  import opened Wrappers

  /** The entries in iteration order. */
  type Dict<K, V> = seq<(K, V)>

  predicate DistinctKeys<K(==, !new), V>(d: Dict<K, V>) {
    forall i, j :: 0 <= i < j < |d| ==> d[i].0 != d[j].0
  }

  /** The position of the key, if present. */
  function IndexOf<K(==, !new), V>(d: Dict<K, V>, k: K): (r: Option<nat>)
    ensures r.Some? ==> r.value < |d| && d[r.value].0 == k && forall j :: 0 <= j < r.value ==> d[j].0 != k
    ensures r.None? ==> forall j :: 0 <= j < |d| ==> d[j].0 != k
  {
    if d == [] then None
    else if d[0].0 == k then Some(0)
    else match IndexOf(d[1..], k)
      case None => None
      case Some(j) => Some(j + 1)
  }

  /** `d.get(k)`. */
  function Get<K(==, !new), V>(d: Dict<K, V>, k: K): (r: Option<V>)
    ensures r.Some? <==> exists j :: 0 <= j < |d| && d[j].0 == k
    ensures r.Some? ==> exists j :: 0 <= j < |d| && d[j] == (k, r.value)
  {
    match IndexOf(d, k)
    case None => None
    case Some(j) => Some(d[j].1)
  }

  /** With distinct keys the position of a key is the only one holding it. */
  lemma IndexOfDistinct<K(!new), V>(d: Dict<K, V>, j: nat)
    requires DistinctKeys(d) && j < |d|
    ensures IndexOf(d, d[j].0) == Some(j)
  {
  }

  /** `d[k] = v`: a new key goes last, a known key keeps its place. */
  function Put<K(==, !new), V>(d: Dict<K, V>, k: K, v: V): (r: Dict<K, V>)
    requires DistinctKeys(d)
    ensures DistinctKeys(r)
    ensures IndexOf(d, k).None? ==> r == d + [(k, v)]
    ensures IndexOf(d, k).Some? ==> |r| == |d| && r[IndexOf(d, k).value] == (k, v)
    ensures forall j :: 0 <= j < |d| && d[j].0 != k ==> r[j] == d[j]
    ensures Get(r, k) == Some(v)
    ensures forall k' :: k' != k ==> Get(r, k') == Get(d, k')
  {
    var r := match IndexOf(d, k) case None => d + [(k, v)] case Some(j) => d[j := (k, v)];
    PutGet(d, k, v, r);
    r
  }

  lemma PutGet<K(!new), V>(d: Dict<K, V>, k: K, v: V, r: Dict<K, V>)
    requires DistinctKeys(d)
    requires r == match IndexOf(d, k) case None => d + [(k, v)] case Some(j) => d[j := (k, v)]
    ensures DistinctKeys(r)
    ensures Get(r, k) == Some(v)
    ensures forall k' :: k' != k ==> Get(r, k') == Get(d, k')
  {
    var at := if IndexOf(d, k).None? then |d| else IndexOf(d, k).value;
    assert r[at] == (k, v);
    assert DistinctKeys(r);
    IndexOfDistinct(r, at);
    forall k' | k' != k ensures Get(r, k') == Get(d, k') {
      match IndexOf(d, k')
      case None =>
        assert forall j :: 0 <= j < |r| ==> r[j].0 != k' by {
          forall j | 0 <= j < |r| ensures r[j].0 != k' {
            if j != at { assert r[j] == d[j]; }
          }
        }
      case Some(j) =>
        assert r[j] == d[j];
        IndexOfDistinct(r, j);
    }
  }

  /** `list(d.values())`. */
  function Values<K, V>(d: Dict<K, V>): (r: seq<V>)
    ensures |r| == |d| && forall j :: 0 <= j < |d| ==> r[j] == d[j].1
  {
    seq(|d|, j requires 0 <= j < |d| => d[j].1)
  }

  /** Storing twice under one key is storing the later value once, at the key's first place. */
  lemma {:induction false} PutTwice<K(!new), V>(d: Dict<K, V>, k: K, v1: V, v2: V)
    requires DistinctKeys(d)
    ensures Put(Put(d, k, v1), k, v2) == Put(d, k, v2)
  {
    var once := Put(d, k, v1);
    match IndexOf(d, k)
    case None =>
      IndexOfDistinct(once, |d|);
    case Some(j) =>
      IndexOfDistinct(once, j);
  }

  /** Distinct keys: as many keys as entries. */
  lemma {:induction false} DistinctKeysCount<K(!new), V>(d: Dict<K, V>)
    requires DistinctKeys(d)
    ensures |set j | 0 <= j < |d| :: d[j].0| == |d|
  {
    if d != [] {
      var rest := d[1..];
      DistinctKeysCount(rest);
      var restKeys := set j | 0 <= j < |rest| :: rest[j].0;
      var keys := set j | 0 <= j < |d| :: d[j].0;
      assert keys == {d[0].0} + restKeys;
      assert d[0].0 !in restKeys;
    }
  }
}
