// A Python dict: a finite map together with the order its keys were first inserted,
// which is the order `values()` and `keys()` report them in.
module Dicts {
  import opened Wrappers

  datatype Dict<K(!new), V> = Dict(keys: seq<K>, entries: map<K, V>)
  {
    /** Every key appears once, and the order lists exactly the stored keys. */
    ghost predicate Valid()
    {
      (forall i, j :: 0 <= i < j < |keys| ==> keys[i] != keys[j]) &&
      (forall k :: k in entries <==> k in keys)
    }

    /** `d.get(k)`. */
    function Get(k: K): Option<V>
    {
      if k in entries then Some(entries[k]) else None
    }

    /** Position of a present key in insertion order. */
    function IndexOfKey(k: K): (i: nat)
      requires k in keys
      ensures i < |keys| && keys[i] == k
      ensures forall j :: 0 <= j < i ==> keys[j] != k
      decreases |keys|
    {
      if keys[0] == k then 0 else 1 + Dict(keys[1..], entries).IndexOfKey(k)
    }

    /** `d[k] = v`: a new key goes to the end, an existing key keeps its place. */
    function Put(k: K, v: V): (d: Dict<K, V>)
      requires Valid()
      ensures d.Valid()
      ensures d.Get(k) == Some(v)
      ensures forall k' :: k' != k ==> d.Get(k') == Get(k')
      ensures d.keys == if k in entries then keys else keys + [k]
    {
      Dict(if k in entries then keys else keys + [k], entries[k := v])
    }

    /** `del d[k]` for a present key; `RemoveKeepsOrder` says the other keys keep their order. */
    function Remove(k: K): (d: Dict<K, V>)
      requires Valid() && k in entries
      ensures d.Valid()
      ensures d.Get(k) == None
      ensures forall k' :: k' != k ==> d.Get(k') == Get(k')
      ensures |d.keys| == |keys| - 1
    {
      var i := IndexOfKey(k);
      RemoveAt(this, k);
      Dict(keys[..i] + keys[i + 1..], entries - {k})
    }

    /** `list(d.values())`. */
    function Values(): (vs: seq<V>)
      requires Valid()
      ensures |vs| == |keys|
      ensures forall i :: 0 <= i < |keys| ==> vs[i] == entries[keys[i]]
    {
      ValuesOf(keys, entries)
    }
  }

  /** The values stored under `keys`, in that order. */
  function ValuesOf<K, V>(keys: seq<K>, entries: map<K, V>): (vs: seq<V>)
    requires forall i :: 0 <= i < |keys| ==> keys[i] in entries
    ensures |vs| == |keys|
    ensures forall i :: 0 <= i < |keys| ==> vs[i] == entries[keys[i]]
  {
    if keys == [] then [] else [entries[keys[0]]] + ValuesOf(keys[1..], entries)
  }

  /** After `del d[k]` the keys before `k` stay where they were and the later ones shift down by one. */
  lemma {:induction false} RemoveKeepsOrder<K(!new), V>(d: Dict<K, V>, k: K)
    requires d.Valid() && k in d.entries
    ensures d.Remove(k).entries == d.entries - {k}
    ensures forall j :: 0 <= j < |d.Remove(k).keys| ==>
      d.Remove(k).keys[j] == d.keys[if j < d.IndexOfKey(k) then j else j + 1]
  {
    RemoveAt(d, k);
  }

  /** Deleting a present key's position leaves a valid dict whose later keys shift down by one. */
  lemma {:induction false} RemoveAt<K(!new), V>(d: Dict<K, V>, k: K)
    requires d.Valid() && k in d.entries
    ensures var i := d.IndexOfKey(k);
      var r := Dict(d.keys[..i] + d.keys[i + 1..], d.entries - {k});
      r.Valid() && |r.keys| == |d.keys| - 1 &&
      forall j :: 0 <= j < |r.keys| ==> r.keys[j] == d.keys[if j < i then j else j + 1]
  {
    var i := d.IndexOfKey(k);
    var ks := d.keys[..i] + d.keys[i + 1..];
    DeleteShift(d.keys, i, ks);
    DeleteDistinct(d.keys, i, ks);
    DeleteMembers(d.keys, i, ks);
    var m := d.entries - {k};
    forall x ensures x in m <==> x in ks {
      assert x in m <==> x in d.entries && x != k;
    }
    assert Dict(ks, m).Valid();
  }

  /** Deleting position `i` shifts the later elements down by one. */
  lemma {:induction false} DeleteShift<K>(keys: seq<K>, i: nat, ks: seq<K>)
    requires i < |keys| && ks == keys[..i] + keys[i + 1..]
    ensures |ks| == |keys| - 1
    ensures forall j :: 0 <= j < |ks| ==> ks[j] == keys[if j < i then j else j + 1]
  {
  }

  lemma {:induction false} DeleteDistinct<K>(keys: seq<K>, i: nat, ks: seq<K>)
    requires i < |keys| && ks == keys[..i] + keys[i + 1..]
    requires forall a, b :: 0 <= a < b < |keys| ==> keys[a] != keys[b]
    ensures forall a, b :: 0 <= a < b < |ks| ==> ks[a] != ks[b]
  {
    DeleteShift(keys, i, ks);
    forall a, b | 0 <= a < b < |ks| ensures ks[a] != ks[b] {
      var oa, ob := if a < i then a else a + 1, if b < i then b else b + 1;
      assert ks[a] == keys[oa] && ks[b] == keys[ob];
    }
  }

  /** Without repeats, deleting position `i` removes exactly the element there. */
  lemma {:induction false} DeleteMembers<K>(keys: seq<K>, i: nat, ks: seq<K>)
    requires i < |keys| && ks == keys[..i] + keys[i + 1..]
    requires forall a, b :: 0 <= a < b < |keys| ==> keys[a] != keys[b]
    ensures forall x :: x in ks <==> x in keys && x != keys[i]
  {
    DeleteShift(keys, i, ks);
    forall x | x in keys && x != keys[i] ensures x in ks {
      var j :| 0 <= j < |keys| && keys[j] == x;
      if j < i { assert ks[j] == x; } else { assert ks[j - 1] == x; }
    }
    forall x | x in ks ensures x in keys && x != keys[i] {
      var j :| 0 <= j < |ks| && ks[j] == x;
      var o := if j < i then j else j + 1;
      assert keys[o] == x && o != i;
    }
  }

  function Empty<K(!new), V>(): (d: Dict<K, V>)
    ensures d.Valid() && d.keys == [] && forall k :: d.Get(k) == None
  {
    Dict([], map[])
  }

  /** Adding a new key appends its value to `values()`. */
  lemma {:induction false} ValuesPutNew<K(!new), V>(d: Dict<K, V>, k: K, v: V)
    requires d.Valid() && k !in d.entries
    ensures d.Put(k, v).Values() == d.Values() + [v]
  {
    ValuesOfSnoc(d.keys, d.entries, d.entries[k := v], k);
  }

  /** Reading one more key, at the end, from a map that agrees on the earlier keys. */
  lemma {:induction false} ValuesOfSnoc<K, V>(keys: seq<K>, m: map<K, V>, m': map<K, V>, k: K)
    requires forall j :: 0 <= j < |keys| ==> keys[j] in m && keys[j] in m' && m'[keys[j]] == m[keys[j]]
    requires k in m'
    ensures forall j :: 0 <= j < |keys + [k]| ==> (keys + [k])[j] in m'
    ensures ValuesOf(keys + [k], m') == ValuesOf(keys, m) + [m'[k]]
  {
    var ks := keys + [k];
    assert forall j :: 0 <= j < |ks| ==> ks[j] in m' by {
      forall j | 0 <= j < |ks| ensures ks[j] in m' {
        if j < |keys| { assert ks[j] == keys[j]; }
      }
    }
    var r := ValuesOf(ks, m');
    var w := ValuesOf(keys, m) + [m'[k]];
    forall j | 0 <= j < |ks| ensures r[j] == w[j] {
      if j < |keys| { assert ks[j] == keys[j]; }
    }
  }

  /** Overwriting a key replaces its value in place in `values()`. */
  lemma ValuesPutExisting<K(!new), V>(d: Dict<K, V>, k: K, v: V)
    requires d.Valid() && k in d.entries
    ensures d.Put(k, v).Values() == d.Values()[d.IndexOfKey(k) := v]
  {
    var i := d.IndexOfKey(k);
    forall j | 0 <= j < |d.keys| ensures d.Put(k, v).Values()[j] == d.Values()[i := v][j] {
      if j != i { assert d.keys[j] != k; }
    }
  }

  /** Deleting a key drops exactly its value from `values()`. */
  lemma {:induction false} ValuesRemove<K(!new), V>(d: Dict<K, V>, k: K)
    requires d.Valid() && k in d.entries
    ensures d.Remove(k).Values() == d.Values()[..d.IndexOfKey(k)] + d.Values()[d.IndexOfKey(k) + 1..]
  {
    var i := d.IndexOfKey(k);
    var m' := d.entries - {k};
    ValuesOfDeleteAt(d.keys, d.entries, m', i);
    assert d.Remove(k) == Dict(d.keys[..i] + d.keys[i + 1..], m');
  }

  /** Reading the keys with position `i` deleted from a map without that key. */
  lemma {:induction false} ValuesOfDeleteAt<K, V>(keys: seq<K>, m: map<K, V>, m': map<K, V>, i: nat)
    requires i < |keys| && forall j :: 0 <= j < |keys| ==> keys[j] in m
    requires forall a, b :: 0 <= a < b < |keys| ==> keys[a] != keys[b]
    requires forall x :: x in m' <==> x in m && x != keys[i]
    requires forall x :: x in m' ==> m'[x] == m[x]
    ensures var ks := keys[..i] + keys[i + 1..];
      (forall j :: 0 <= j < |ks| ==> ks[j] in m') &&
      ValuesOf(ks, m') == ValuesOf(keys, m)[..i] + ValuesOf(keys, m)[i + 1..]
  {
    var ks := keys[..i] + keys[i + 1..];
    var vs := ValuesOf(keys, m);
    forall j | 0 <= j < |ks| ensures ks[j] in m' && ks[j] == keys[if j < i then j else j + 1] {
      var o := if j < i then j else j + 1;
      assert ks[j] == keys[o];
    }
    var r := ValuesOf(ks, m');
    forall j | 0 <= j < |r| ensures r[j] == vs[if j < i then j else j + 1] {
      var o := if j < i then j else j + 1;
      assert ks[j] == keys[o];
    }
    ShiftDown(vs, r, i);
  }

  /** A list that is `vs` with position `i` skipped is `vs` with that element deleted. */
  lemma ShiftDown<V>(vs: seq<V>, r: seq<V>, i: nat)
    requires i < |vs| && |r| == |vs| - 1
    requires forall j :: 0 <= j < |r| ==> r[j] == vs[if j < i then j else j + 1]
    ensures r == vs[..i] + vs[i + 1..]
  {
  }

  /** A dict used as an auto-increment table: each item is stored under its own id, below `nextId`,
      and ids increase in insertion order. */
  ghost predicate StoredUnder<T>(d: Dict<int, T>, idOf: T -> Option<int>, nextId: int)
  {
    d.Valid() && nextId >= 1 &&
    (forall i :: 0 <= i < |d.keys| ==> 1 <= d.keys[i] < nextId && idOf(d.entries[d.keys[i]]) == Some(d.keys[i])) &&
    (forall i, j :: 0 <= i < j < |d.keys| ==> d.keys[i] < d.keys[j])
  }

  lemma {:induction false} AddKeepsStored<T>(d: Dict<int, T>, idOf: T -> Option<int>, nextId: int, t: T)
    requires StoredUnder(d, idOf, nextId) && idOf(t) == Some(nextId)
    ensures nextId !in d.entries
    ensures StoredUnder(d.Put(nextId, t), idOf, nextId + 1)
  {
    var d' := d.Put(nextId, t);
    assert nextId !in d.entries;
    assert d'.keys == d.keys + [nextId];
    forall i | 0 <= i < |d'.keys| ensures 1 <= d'.keys[i] < nextId + 1 && idOf(d'.entries[d'.keys[i]]) == Some(d'.keys[i]) {
      if i < |d.keys| {
        assert d'.keys[i] == d.keys[i];
        assert d'.entries[d.keys[i]] == d.entries[d.keys[i]];
      } else {
        assert d'.keys[i] == nextId && d'.entries[nextId] == t;
      }
    }
    assert forall i, j :: 0 <= i < j < |d'.keys| ==> d'.keys[i] < d'.keys[j];
  }

  lemma {:induction false} ReplaceKeepsStored<T>(d: Dict<int, T>, idOf: T -> Option<int>, nextId: int, k: int, t: T)
    requires StoredUnder(d, idOf, nextId) && k in d.entries && idOf(t) == Some(k)
    ensures StoredUnder(d.Put(k, t), idOf, nextId)
  {
    var d' := d.Put(k, t);
    assert d'.keys == d.keys;
    forall i | 0 <= i < |d'.keys| ensures idOf(d'.entries[d'.keys[i]]) == Some(d'.keys[i]) {
      if d'.keys[i] != k { assert d'.entries[d'.keys[i]] == d.entries[d.keys[i]]; }
    }
  }

  lemma {:induction false} RemoveKeepsStored<T>(d: Dict<int, T>, idOf: T -> Option<int>, nextId: int, k: int)
    requires StoredUnder(d, idOf, nextId) && k in d.entries
    ensures StoredUnder(d.Remove(k), idOf, nextId)
  {
    var d' := d.Remove(k);
    var x := d.IndexOfKey(k);
    RemoveKeepsOrder(d, k);
    SortedAfterShift(d.keys, d'.keys, x);
    IdsAfterShift(d.keys, d.entries, d'.keys, d'.entries, x, idOf, nextId);
  }

  /** Skipping one position of an increasing list leaves it increasing. */
  lemma {:induction false} SortedAfterShift(keys: seq<int>, ks: seq<int>, x: nat)
    requires x < |keys| && |ks| == |keys| - 1
    requires forall j :: 0 <= j < |ks| ==> ks[j] == keys[if j < x then j else j + 1]
    requires forall i, j :: 0 <= i < j < |keys| ==> keys[i] < keys[j]
    ensures forall i, j :: 0 <= i < j < |ks| ==> ks[i] < ks[j]
  {
    forall i, j | 0 <= i < j < |ks| ensures ks[i] < ks[j] {
      var oi, oj := if i < x then i else i + 1, if j < x then j else j + 1;
      assert ks[i] == keys[oi] && ks[j] == keys[oj];
    }
  }

  /** Skipping the position of the deleted key keeps every other key stored under its own id. */
  lemma {:induction false} IdsAfterShift<T>(keys: seq<int>, m: map<int, T>, ks: seq<int>, m': map<int, T>, x: nat,
                                            idOf: T -> Option<int>, nextId: int)
    requires x < |keys| && |ks| == |keys| - 1 && m' == m - {keys[x]}
    requires forall j :: 0 <= j < |ks| ==> ks[j] == keys[if j < x then j else j + 1]
    requires forall i, j :: 0 <= i < j < |keys| ==> keys[i] < keys[j]
    requires forall i :: 0 <= i < |keys| ==> keys[i] in m && 1 <= keys[i] < nextId && idOf(m[keys[i]]) == Some(keys[i])
    ensures forall i :: 0 <= i < |ks| ==> ks[i] in m' && 1 <= ks[i] < nextId && idOf(m'[ks[i]]) == Some(ks[i])
  {
    forall i | 0 <= i < |ks| ensures ks[i] in m' && 1 <= ks[i] < nextId && idOf(m'[ks[i]]) == Some(ks[i]) {
      var o := if i < x then i else i + 1;
      assert ks[i] == keys[o];
      if o < x { assert keys[o] < keys[x]; } else { assert keys[x] < keys[o]; }
    }
  }
}
