/** The table of published runtimes, as the sweep, the cap and retirement see it. */
module PublishedRuntimes {
  import opened Sorting

  type Key = string
  type SessionId = string

  /** One published runtime, in map insertion order. `retiring` is history: its disposal is queued
      behind the work chain of its key. */
  datatype Published = Published(
    key: Key,
    runtime: nat,
    session: SessionId,
    leases: nat,
    lastUsedAt: int,
    contextRevoked: bool,
    retiring: bool)

  /** Requester keys are JSON objects, and their requests and disposals go through a work chain. */
  predicate HasWorkChain(key: Key) {
    |key| > 0 && key[0] == '{'
  }

  ghost predicate DistinctKeys(entries: seq<Published>) {
    forall i, j :: 0 <= i < j < |entries| ==> entries[i].key != entries[j].key
  }

  /** The table as the map from keys to runtimes. */
  ghost function AsMap(entries: seq<Published>): map<Key, nat> {
    if entries == [] then map[]
    else AsMap(entries[..|entries| - 1])[entries[|entries| - 1].key := entries[|entries| - 1].runtime]
  }

  function OtherKeys(key: Key): Published -> bool {
    (p: Published) => p.key != key
  }

  function NotIn(gone: seq<Published>): Published -> bool {
    (p: Published) => p !in gone
  }

  lemma {:induction false} AsMapKeys(entries: seq<Published>)
    ensures forall k :: k in AsMap(entries) <==> exists i :: 0 <= i < |entries| && entries[i].key == k
  {
    if entries != [] {
      AsMapKeys(entries[..|entries| - 1]);
    }
  }

  lemma AsMapSnoc(entries: seq<Published>, last: Published)
    ensures AsMap(entries + [last]) == AsMap(entries)[last.key := last.runtime]
  {
    assert (entries + [last])[..|entries|] == entries;
  }

  lemma RemoveAfterUpdate(m: map<Key, nat>, key: Key, k: Key, runtime: nat)
    ensures m[k := runtime] - {key} == if k == key then m - {key} else (m - {key})[k := runtime]
  {
  }

  /** Removing the entry of a key removes it from the map. */
  lemma {:induction false} RemovedFromMap(entries: seq<Published>, key: Key)
    ensures AsMap(Filter(entries, OtherKeys(key))) == AsMap(entries) - {key}
  {
    if entries != [] {
      var init, last := entries[..|entries| - 1], entries[|entries| - 1];
      RemovedFromMap(init, key);
      RemoveAfterUpdate(AsMap(init), key, last.key, last.runtime);
      AsMapSnoc(Filter(init, OtherKeys(key)), last);
    }
  }

  lemma {:induction false} FilterKeepsKeys(entries: seq<Published>, p: Published -> bool)
    requires DistinctKeys(entries)
    ensures DistinctKeys(Filter(entries, p))
  {
    if entries != [] {
      FilterKeepsKeys(entries[..|entries| - 1], p);
      var rest := Filter(entries[..|entries| - 1], p);
      forall e | e in rest ensures e.key != entries[|entries| - 1].key {
        assert e in entries[..|entries| - 1];
      }
    }
  }

  /** In a table with distinct keys, taking out an entry is taking out its key. */
  lemma TakeOut(entries: seq<Published>, e: Published)
    requires DistinctKeys(entries) && e in entries
    ensures Filter(entries, NotIn([e])) == Filter(entries, OtherKeys(e.key))
  {
    forall x | x in entries ensures NotIn([e])(x) <==> OtherKeys(e.key)(x) {
      var i :| 0 <= i < |entries| && entries[i] == x;
      var j :| 0 <= j < |entries| && entries[j] == e;
      assert i != j ==> entries[i].key != entries[j].key;
    }
    FilterSame(entries, NotIn([e]), OtherKeys(e.key));
  }
}
