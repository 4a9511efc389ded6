/** The binding tables the peer's callee and subscriber are built from
    (Client/Callee.php and Client/Subscriber.php constructors): an array from
    procedure or topic names to application callables. */
module Bindings {
  import opened Values
  import opened Messages
  import opened Tables

  /** One entry of the constructor's array: its key and the callable it
      holds, or None when the value is not callable. */
  datatype Binding = Binding(key: Value, callable: Option<Handler>)

  /** The constructor's test: a string key and a callable value. */
  predicate Accepted(b: Binding) {
    b.key.Str? && b.callable.Some?
  }

  /** The keys of a PHP array are distinct. */
  predicate DistinctKeys(entries: seq<Binding>) {
    forall i, j :: 0 <= i < j < |entries| ==> entries[i].key != entries[j].key
  }

  /** The table an accepted binding array becomes: the same names with the
      same callables, in the same order. */
  function Bound(entries: seq<Binding>): (t: seq<Entry<string, Handler>>)
    requires forall i :: 0 <= i < |entries| ==> entries[i].key.Str? && entries[i].callable.Some?
    ensures |t| == |entries|
    ensures forall i :: 0 <= i < |entries| ==> t[i] == Entry(entries[i].key.s, entries[i].callable.value)
  {
    seq(|entries|, i requires 0 <= i < |entries| => Entry(entries[i].key.s, entries[i].callable.value))
  }

  lemma StoreNew(entries: seq<Binding>, i: nat, table: seq<Entry<string, Handler>>)
    requires DistinctKeys(entries) && i < |entries| && Accepted(entries[i])
    requires Unique(table) && |table| == i
    requires forall j :: 0 <= j < i ==> Str(table[j].key) == entries[j].key
    ensures Put(table, entries[i].key.s, entries[i].callable.value)
            == table + [Entry(entries[i].key.s, entries[i].callable.value)]
  {
    var e := entries[i];
    forall j | 0 <= j < i
      ensures table[j].key != e.key.s
    {
      assert entries[j].key != e.key;
    }
    PutAppends(table, e.key.s, e.callable.value);
  }

  /** The constructor's loop: every entry is checked and stored in order; a
      non-string key or a value that is not callable throws, and no object
      is built. */
  method Bind(entries: seq<Binding>) returns (r: Option<seq<Entry<string, Handler>>>)
    requires DistinctKeys(entries)
    ensures r.Some? <==> forall i :: 0 <= i < |entries| ==> Accepted(entries[i])
    ensures r.Some? ==> Unique(r.value) && r.value == Bound(entries)
  {
    var table: seq<Entry<string, Handler>> := [];
    var i := 0;
    while i < |entries|
      invariant 0 <= i <= |entries| && |table| == i
      invariant forall j :: 0 <= j < i ==> Accepted(entries[j])
      invariant forall j :: 0 <= j < i ==> table[j] == Entry(entries[j].key.s, entries[j].callable.value)
      invariant Unique(table)
    {
      var e := entries[i];
      if !Accepted(e) {
        return None;
      }
      StoreNew(entries, i, table);
      table := Put(table, e.key.s, e.callable.value);
      i := i + 1;
    }
    assert table == Bound(entries);
    return Some(table);
  }
}
