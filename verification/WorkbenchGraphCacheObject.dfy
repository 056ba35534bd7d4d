/** The cache object: each method is one critical section and does to the fields what its function does to the value. */
module WorkbenchGraphCacheObject {
  import opened Text
  import opened GraphCache

  class WorkbenchGraphCache {
    const maxEntries: int
    var order: seq<Key>
    var at: map<Key, EntryId>
    var entries: map<EntryId, Entry>
    var closed: set<EntryId>
    var clock: nat

    constructor (maxEntries: int)
      ensures this.maxEntries == maxEntries && View() == Empty
    {
      this.maxEntries := maxEntries;
      order, at, entries, closed, clock := [], map[], map[], {}, 0;
    }

    ghost function View(): Cache
      reads this
    {
      Cache(order, at, entries, closed, clock)
    }

    method MoveToEnd(key: Key)
      modifies this`order
      ensures order == Without(old(order), key) + [key]
    {
      var kept: seq<Key> := [];
      for i := 0 to |order|
        invariant order == old(order)
        invariant kept + Without(order[i..], key) == Without(order, key)
      {
        assert order[i..] == [order[i]] + order[i + 1..];
        if order[i] != key { kept := kept + [order[i]]; }
      }
      order := kept + [key];
    }

    /** The reuse check and the promotion, never apart. */
    method CheckAndPromote(key: Key, identity: string) returns (existing: Option<EntryId>, reused: bool)
      requires Resolves(View())
      modifies this
      ensures View() == Promote(old(View()), key, identity)
      ensures reused <==> Reusable(old(View()), key, identity)
      ensures existing == if key in old(at) then Some(old(at)[key]) else None
    {
      existing := if key in at then Some(at[key]) else None;
      reused := existing.Some? && entries[existing.value].identity == identity && !entries[existing.value].stale;
      if reused {
        var id := existing.value;
        MoveToEnd(key);
        at := at[key := id];
        entries := entries[id := entries[id].(refcount := entries[id].refcount + 1)];
        entries := entries[id := entries[id].(lastUse := clock)];
        clock := clock + 1;
      }
    }

    /** A freshly opened graph, counted for its builder and filed under no key. */
    method OpenGraph(id: EntryId, key: Key, identity: string)
      requires id !in entries
      modifies this`entries
      ensures entries.Keys == old(entries.Keys) + {id} && forall i :: i in old(entries) ==> entries[i] == old(entries)[i]
      ensures entries[id].refcount == 1 && !entries[id].stale
      ensures entries[id].key == key && entries[id].identity == identity
      ensures View() == Open(old(View()), id, key, identity)
    {
      entries := entries[id := Entry(key, identity, 1, false, clock)];
    }

    method InstallGraph(key: Key, id: EntryId, existing: Option<EntryId>)
      requires Resolves(View()) && id in entries && (existing.Some? ==> existing.value in entries)
      modifies this
      ensures View() == Install(old(View()), key, id, existing, maxEntries)
    {
      if existing.Some? {
        var e := existing.value;
        entries := entries[e := entries[e].(stale := true)];
        if entries[e].refcount == 0 { closed := closed + {e}; }
      }
      assert View() == Supersede(old(View()), existing);
      TouchResolves(View(), key, id);
      at := at[key := id];
      MoveToEnd(key);
      entries := entries[id := entries[id].(lastUse := clock)];
      clock := clock + 1;
      EvictExcessLocked();
    }

    method ReleaseGraph(id: EntryId)
      requires Resolves(View()) && id in entries
      modifies this
      ensures View() == Release(old(View()), id, maxEntries)
    {
      entries := entries[id := entries[id].(refcount := entries[id].refcount - 1)];
      if entries[id].stale && entries[id].refcount == 0 {
        closed := closed + {id};
      } else if entries[id].refcount == 0 {
        EvictExcessLocked();
      }
    }

    method EvictExcessLocked()
      requires Resolves(View())
      modifies this
      ensures View() == EvictExcess(old(View()), maxEntries)
    {
      while |order| > maxEntries
        invariant Resolves(View())
        invariant EvictExcess(View(), maxEntries) == EvictExcess(old(View()), maxEntries)
        decreases |order|
      {
        var victim := FindIdle();
        if victim == |order| { return; }
        var key := order[victim];
        FirstIdleIsIdle(View(), order);
        WithoutElements(order, key);
        ghost var before := View();
        RemoveKey(key);
        closed := closed + {at[key]};
        at := at - {key};
        assert View() == Evict(before, key);
      }
    }

    /** The first entry, from the least recently used end, that nobody holds. */
    method FindIdle() returns (i: nat)
      requires Resolves(View())
      ensures i <= |order|
      ensures FirstIdle(View(), order) == if i < |order| then Some(order[i]) else None
    {
      i := 0;
      while i < |order|
        invariant i <= |order| && FirstIdle(View(), order) == FirstIdle(View(), order[i..])
      {
        if entries[at[order[i]]].refcount == 0 { return; }
        i := i + 1;
      }
    }

    method RemoveKey(key: Key)
      modifies this`order
      ensures order == Without(old(order), key)
    {
      MoveToEnd(key);
      order := order[..|order| - 1];
    }
  }
}
