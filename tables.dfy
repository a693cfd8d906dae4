/** Dictionaries that the module fills key by key (`table[key] = value` in a loop over the entries
    of another object): the resulting table, and the order in which `Object.entries` yields its
    keys, which is the order of their first insertion. */
module Tables {

  /** The table after writing `entries` in order onto `defs`: each write adds or overwrites. */
  function Store<V>(defs: map<string, V>, entries: seq<(string, V)>): map<string, V> {
    if entries == [] then defs
    else
      var last := entries[|entries| - 1];
      Store(defs, entries[..|entries| - 1])[last.0 := last.1]
  }

  /** The key order after writing `entries`: a new key goes to the end, an existing one stays. */
  function StoreOrder<V>(keys: seq<string>, entries: seq<(string, V)>): seq<string> {
    if entries == [] then keys
    else
      var last := entries[|entries| - 1];
      var before := StoreOrder(keys, entries[..|entries| - 1]);
      if last.0 in before then before else before + [last.0]
  }

  /** Writes only add or overwrite: the keys afterwards are the keys before plus the written
      keys, and a key that is not written keeps its definition. */
  lemma {:induction false} StoreKeeps<V>(defs: map<string, V>, entries: seq<(string, V)>, key: string)
    ensures key in Store(defs, entries) <==> key in defs || exists j :: 0 <= j < |entries| && entries[j].0 == key
    ensures key in defs && (forall j :: 0 <= j < |entries| ==> entries[j].0 != key) ==> Store(defs, entries)[key] == defs[key]
  {
    if entries != [] {
      var init := entries[..|entries| - 1];
      StoreKeeps(defs, init, key);
      if exists j :: 0 <= j < |init| && init[j].0 == key {
        var j :| 0 <= j < |init| && init[j].0 == key;
        assert entries[j].0 == key;
      }
      if exists j :: 0 <= j < |entries| && entries[j].0 == key {
        var j :| 0 <= j < |entries| && entries[j].0 == key;
        if j < |init| {
          assert init[j].0 == key;
        }
      }
    }
  }

  /** The last write of a key decides its definition. */
  lemma {:induction false} StoreLastWrite<V>(defs: map<string, V>, entries: seq<(string, V)>, j: nat)
    requires j < |entries|
    requires forall m :: j < m < |entries| ==> entries[m].0 != entries[j].0
    ensures entries[j].0 in Store(defs, entries) && Store(defs, entries)[entries[j].0] == entries[j].1
  {
    if j < |entries| - 1 {
      StoreLastWrite(defs, entries[..|entries| - 1], j);
    }
  }

  /** Writing two lists one after the other is writing their concatenation. */
  lemma {:induction false} StoreAppend<V>(keys: seq<string>, defs: map<string, V>, a: seq<(string, V)>, b: seq<(string, V)>)
    ensures Store(Store(defs, a), b) == Store(defs, a + b)
    ensures StoreOrder(StoreOrder(keys, a), b) == StoreOrder(keys, a + b)
  {
    if b == [] {
      assert a + b == a;
    } else {
      var init := b[..|b| - 1];
      StoreAppend(keys, defs, a, init);
      assert (a + b)[..|a + b| - 1] == a + init;
      assert (a + b)[|a + b| - 1] == b[|b| - 1];
    }
  }

  /** No key appears twice. */
  predicate Distinct(keys: seq<string>) {
    forall a, b :: 0 <= a < b < |keys| ==> keys[a] != keys[b]
  }

  /** The key order extends the old one, stays free of duplicates and lists exactly the stored keys. */
  lemma {:induction false} StoreOrderValid<V>(keys: seq<string>, defs: map<string, V>, entries: seq<(string, V)>)
    requires Distinct(keys) && forall k :: k in defs <==> k in keys
    ensures var order := StoreOrder(keys, entries);
      |keys| <= |order| && order[..|keys|] == keys && Distinct(order)
      && forall k :: k in Store(defs, entries) <==> k in order
  {
    if entries != [] {
      StoreOrderValid(keys, defs, entries[..|entries| - 1]);
    }
  }

  /** The loop `for (const [key, value] of entries) table[key] = value` over a table and its key
      order. */
  method WriteAll<V>(defs: map<string, V>, keys: seq<string>, entries: seq<(string, V)>)
    returns (defs': map<string, V>, keys': seq<string>)
    ensures defs' == Store(defs, entries) && keys' == StoreOrder(keys, entries)
  {
    defs', keys' := defs, keys;
    var i := 0;
    while i < |entries|
      invariant 0 <= i <= |entries|
      invariant defs' == Store(defs, entries[..i]) && keys' == StoreOrder(keys, entries[..i])
    {
      assert entries[..i + 1][..i] == entries[..i];
      if entries[i].0 !in keys' {
        keys' := keys' + [entries[i].0];
      }
      defs' := defs'[entries[i].0 := entries[i].1];
      i := i + 1;
    }
    assert entries[..i] == entries;
  }
}
