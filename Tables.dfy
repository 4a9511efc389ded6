/** A PHP array used as an ordered dictionary, the way the peer's roles keep
    their binding and subscription tables: entries in insertion order, each
    key at most once. Assigning to an existing key keeps its position,
    assigning to a new key appends, and `unset` removes the entry. */
module Tables {
  import opened Values

  datatype Entry<K, V> = Entry(key: K, val: V)

  /** Each key occurs at most once. */
  predicate Unique<K(==), V>(t: seq<Entry<K, V>>) {
    forall i, j :: 0 <= i < j < |t| ==> t[i].key != t[j].key
  }

  /** `array_keys($t)`: the keys in iteration order. */
  function Keys<K, V>(t: seq<Entry<K, V>>): (ks: seq<K>)
    ensures |ks| == |t|
    ensures forall i :: 0 <= i < |t| ==> ks[i] == t[i].key
  {
    if t == [] then [] else [t[0].key] + Keys(t[1..])
  }

  /** `$t[$k]` when `isset`-style presence matters: the value under the key,
      if the key is present. */
  function Get<K(==), V(==)>(t: seq<Entry<K, V>>, k: K): (r: Option<V>)
    ensures r.None? <==> forall i :: 0 <= i < |t| ==> t[i].key != k
  {
    if t == [] then None
    else if t[0].key == k then Some(t[0].val)
    else
      var r := Get(t[1..], k);
      assert forall i :: 1 <= i < |t| ==> t[i] == t[1..][i - 1];
      r
  }

  /** In a table with unique keys, every entry is found under its key. */
  lemma {:induction false} GetFinds<K, V>(t: seq<Entry<K, V>>, i: nat)
    requires Unique(t) && i < |t|
    ensures Get(t, t[i].key) == Some(t[i].val)
  {
    if i > 0 {
      FirstKeyNotInRest(t);
      assert t[1..][i - 1] == t[i];
      GetFinds(t[1..], i - 1);
    }
  }

  lemma FirstKeyNotInRest<K, V>(t: seq<Entry<K, V>>)
    requires Unique(t) && t != []
    ensures Unique(t[1..]) && Get(t[1..], t[0].key).None?
  {
    assert forall i :: 0 <= i < |t[1..]| ==> t[1..][i] == t[i + 1];
  }

  /** What `Get` finds is an entry of the table. */
  lemma {:induction false} GetIn<K, V>(t: seq<Entry<K, V>>, k: K)
    requires Get(t, k).Some?
    ensures Entry(k, Get(t, k).value) in t
  {
    if t[0].key != k {
      GetIn(t[1..], k);
    }
  }

  /** `$t[$k] = $v`. */
  function Put<K(==,!new), V(==)>(t: seq<Entry<K, V>>, k: K, v: V): (r: seq<Entry<K, V>>)
    requires Unique(t)
    ensures Unique(r)
    ensures Get(r, k) == Some(v)
    ensures forall k' :: k' != k ==> Get(r, k') == Get(t, k')
  {
    if t == [] then [Entry(k, v)]
    else if t[0].key == k then
      var r := [Entry(k, v)] + t[1..];
      assert r[1..] == t[1..];
      r
    else
      var rest := Put(t[1..], k, v);
      FirstKeyNotInRest(t);
      var r := [t[0]] + rest;
      assert r[1..] == rest;
      assert forall j :: 1 <= j < |r| ==> r[j] == rest[j - 1];
      r
  }

  /** Assigning adds no entry other than the one assigned. */
  lemma {:induction false} PutEntries<K(!new), V>(t: seq<Entry<K, V>>, k: K, v: V)
    requires Unique(t)
    ensures forall e :: e in Put(t, k, v) ==> e == Entry(k, v) || e in t
  {
    if t != [] && t[0].key != k {
      FirstKeyNotInRest(t);
      PutEntries(t[1..], k, v);
    }
  }

  /** A new key goes to the end. */
  lemma {:induction false} PutAppends<K(!new), V>(t: seq<Entry<K, V>>, k: K, v: V)
    requires Unique(t) && Get(t, k).None?
    ensures Put(t, k, v) == t + [Entry(k, v)]
  {
    if t != [] {
      FirstKeyNotInRest(t);
      assert t[0].key != k;
      PutAppends(t[1..], k, v);
      calc {
        Put(t, k, v);
        [t[0]] + Put(t[1..], k, v);
        [t[0]] + (t[1..] + [Entry(k, v)]);
        { assert [t[0]] + t[1..] == t; }
        t + [Entry(k, v)];
      }
    }
  }

  /** `unset($t[$k])`; unsetting a missing key changes nothing. */
  function Remove<K(==,!new), V(==)>(t: seq<Entry<K, V>>, k: K): (r: seq<Entry<K, V>>)
    requires Unique(t)
    ensures Unique(r)
    ensures Get(r, k) == None
    ensures forall k' :: k' != k ==> Get(r, k') == Get(t, k')
    ensures Get(t, k) == None ==> r == t
  {
    if t == [] then []
    else if t[0].key == k then
      var r := t[1..];
      assert forall i :: 1 <= i < |t| ==> t[i] == r[i - 1];
      r
    else
      var rest := Remove(t[1..], k);
      FirstKeyNotInRest(t);
      var r := [t[0]] + rest;
      assert r[1..] == rest;
      assert forall j :: 1 <= j < |r| ==> r[j] == rest[j - 1];
      r
  }

  /** Unsetting adds no entry. */
  lemma {:induction false} RemoveEntries<K(!new), V>(t: seq<Entry<K, V>>, k: K)
    requires Unique(t)
    ensures forall e :: e in Remove(t, k) ==> e in t
  {
    if t != [] && t[0].key != k {
      FirstKeyNotInRest(t);
      RemoveEntries(t[1..], k);
    }
  }

  /** Adding a new key and unsetting it again gives back the same table,
      entries and order alike. */
  lemma {:induction false} RemoveAfterPut<K(!new), V>(t: seq<Entry<K, V>>, k: K, v: V)
    requires Unique(t) && Get(t, k).None?
    ensures Remove(Put(t, k, v), k) == t
  {
    if t != [] {
      assert t[0].key != k;
      assert Get(t[1..], k).None?;
      RemoveAfterPut(t[1..], k, v);
      assert Put(t, k, v) == [t[0]] + Put(t[1..], k, v);
      assert Put(t, k, v)[1..] == Put(t[1..], k, v);
      assert [t[0]] + t[1..] == t;
    }
  }
}
