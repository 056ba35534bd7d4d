/** The workbench's cache of open graphs as a value, with one function for each critical section. */
module GraphCache {
  import opened Text

  /** What a graph is cached under: the resolved corpus root and which edge relation it holds. */
  datatype Key = Key(root: string, performerOnly: bool)

  type EntryId = nat

  /** One opened graph. `lastUse` is the logical time of its last promotion. */
  datatype Entry = Entry(key: Key, identity: string, refcount: int, stale: bool, lastUse: nat)

  /** The cache proper: an ordered dictionary, least recently used first, over the opened graphs.
      `entries` remembers every graph ever opened, `closed` those that were closed. */
  datatype Cache = Cache(order: seq<Key>, at: map<Key, EntryId>, entries: map<EntryId, Entry>, closed: set<EntryId>, clock: nat)

  const Empty := Cache([], map[], map[], {}, 0)

  // ---------- Ordered-dictionary primitives ----------

  function Without(order: seq<Key>, key: Key): seq<Key> {
    if order == [] then []
    else if order[0] == key then Without(order[1..], key)
    else [order[0]] + Without(order[1..], key)
  }

  lemma {:induction false} WithoutElements(order: seq<Key>, key: Key)
    ensures forall k :: k in Without(order, key) <==> k in order && k != key
    ensures |Without(order, key)| <= |order|
    ensures key in order ==> |Without(order, key)| < |order|
  {
    if order != [] { WithoutElements(order[1..], key); }
  }

  /** The idle entry nearest the least recently used end, if there is one. */
  function FirstIdle(c: Cache, order: seq<Key>): Option<Key>
    requires forall k :: k in order ==> k in c.at && c.at[k] in c.entries
  {
    if order == [] then None
    else if c.entries[c.at[order[0]]].refcount == 0 then Some(order[0])
    else FirstIdle(c, order[1..])
  }

  // ---------- The critical sections ----------

  /** Every key in the order is in the dictionary, and leads to an opened graph. */
  predicate Resolves(c: Cache) {
    && (forall k :: k in c.order ==> k in c.at)
    && (forall k :: k in c.at ==> c.at[k] in c.entries)
  }

  function Touch(c: Cache, key: Key, id: EntryId): Cache
    requires id in c.entries
  {
    c.(order := Without(c.order, key) + [key],
       at := c.at[key := id],
       entries := c.entries[id := c.entries[id].(lastUse := c.clock)],
       clock := c.clock + 1)
  }

  function AddRef(c: Cache, id: EntryId, delta: int): Cache
    requires id in c.entries
  {
    c.(entries := c.entries[id := c.entries[id].(refcount := c.entries[id].refcount + delta)])
  }

  predicate Reusable(c: Cache, key: Key, identity: string)
    requires Resolves(c)
  {
    key in c.at && c.entries[c.at[key]].identity == identity && !c.entries[c.at[key]].stale
  }

  /** Check and promote, in one unbroken section. */
  function Promote(c: Cache, key: Key, identity: string): Cache
    requires Resolves(c)
  {
    if Reusable(c, key, identity) then Touch(AddRef(c, c.at[key], 1), key, c.at[key]) else c
  }

  /** A graph is opened, held by its builder alone. */
  function Open(c: Cache, id: EntryId, key: Key, identity: string): Cache {
    c.(entries := c.entries[id := Entry(key, identity, 1, false, c.clock)])
  }

  function Evict(c: Cache, key: Key): Cache
    requires key in c.at
  {
    c.(order := Without(c.order, key), at := c.at - {key}, closed := c.closed + {c.at[key]})
  }

  function EvictExcess(c: Cache, maxEntries: int): Cache
    requires Resolves(c)
    decreases |c.order|
  {
    if |c.order| <= maxEntries then c
    else match FirstIdle(c, c.order)
      case None => c
      case Some(key) =>
        FirstIdleIsIdle(c, c.order);
        WithoutElements(c.order, key);
        EvictExcess(Evict(c, key), maxEntries)
  }

  /** Mark a superseded entry stale; close it if nobody holds it. */
  function Supersede(c: Cache, existing: Option<EntryId>): Cache
    requires existing.Some? ==> existing.value in c.entries
  {
    match existing
    case None => c
    case Some(e) =>
      var marked := c.(entries := c.entries[e := c.entries[e].(stale := true)]);
      if c.entries[e].refcount == 0 then marked.(closed := marked.closed + {e}) else marked
  }

  function Install(c: Cache, key: Key, id: EntryId, existing: Option<EntryId>, maxEntries: int): Cache
    requires Resolves(c) && id in c.entries && (existing.Some? ==> existing.value in c.entries)
  {
    var touched := Touch(Supersede(c, existing), key, id);
    TouchResolves(Supersede(c, existing), key, id);
    EvictExcess(touched, maxEntries)
  }

  function Release(c: Cache, id: EntryId, maxEntries: int): Cache
    requires Resolves(c) && id in c.entries
  {
    var less := AddRef(c, id, -1);
    if less.entries[id].stale && less.entries[id].refcount == 0 then less.(closed := less.closed + {id})
    else if less.entries[id].refcount == 0 then EvictExcess(less, maxEntries)
    else less
  }

  lemma TouchResolves(c: Cache, key: Key, id: EntryId)
    requires Resolves(c) && id in c.entries
    ensures Resolves(Touch(c, key, id))
  {
    WithoutElements(c.order, key);
  }

  lemma {:induction false} FirstIdleIsIdle(c: Cache, order: seq<Key>)
    requires forall k :: k in order ==> k in c.at && c.at[k] in c.entries
    ensures match FirstIdle(c, order)
      case None => forall k :: k in order ==> c.entries[c.at[k]].refcount != 0
      case Some(key) =>
        && key in order && c.entries[c.at[key]].refcount == 0
        && exists i :: 0 <= i < |order| && order[i] == key && forall j :: 0 <= j < i ==> c.entries[c.at[order[j]]].refcount != 0
  {
    if order != [] && c.entries[c.at[order[0]]].refcount != 0 {
      FirstIdleIsIdle(c, order[1..]);
      if FirstIdle(c, order).Some? {
        var key := FirstIdle(c, order).value;
        var i :| 0 <= i < |order[1..]| && order[1..][i] == key
          && forall j :: 0 <= j < i ==> c.entries[c.at[order[1..][j]]].refcount != 0;
        assert order[i + 1] == key;
        forall j | 0 <= j < i + 1 ensures c.entries[c.at[order[j]]].refcount != 0 {
          if j > 0 { assert order[j] == order[1..][j - 1]; }
        }
      }
    } else if order != [] {
      assert order[0] == FirstIdle(c, order).value;
    }
  }

  // ---------- What every section keeps ----------

  ghost predicate InMap(c: Cache, id: EntryId) {
    id in c.entries && c.entries[id].key in c.at && c.at[c.entries[id].key] == id
  }

  /** The dictionary is one: its order lists each key once. */
  ghost predicate Dictionary(c: Cache) {
    && Resolves(c) && Distinct(c.order)
    && forall k :: k in c.at ==> k in c.order
  }

  /** What is in the map is what it is filed under, is current, and is open. */
  ghost predicate MapCurrent(c: Cache)
    requires Resolves(c)
  {
    forall k :: k in c.at ==>
      && c.entries[c.at[k]].key == k && !c.entries[c.at[k]].stale && c.at[k] !in c.closed
  }

  /** Nothing closed is counted as held. */
  ghost predicate ClosedUnheld(c: Cache) {
    && (forall id :: id in c.closed ==> id in c.entries && c.entries[id].refcount == 0)
    && (forall id :: id in c.entries ==> c.entries[id].refcount >= 0)
  }

  /** Every opened graph is filed, or retired but still held, or closed, or still its builder's. */
  ghost predicate Accounted(c: Cache, private: set<EntryId>) {
    forall id :: id in c.entries ==>
      id in c.closed || InMap(c, id) || (c.entries[id].stale && c.entries[id].refcount > 0) || id in private
  }

  /** A graph still being built is known to nobody else. */
  ghost predicate PrivateApart(c: Cache, private: set<EntryId>) {
    forall id :: id in private ==>
      id in c.entries && id !in c.closed && !InMap(c, id) && !c.entries[id].stale && c.entries[id].refcount == 1
  }

  function UseOf(c: Cache, k: Key): nat
    requires k in c.at && c.at[k] in c.entries
  {
    c.entries[c.at[k]].lastUse
  }

  /** `order` lists filed keys in the order of their last use. */
  ghost predicate ByUse(c: Cache, order: seq<Key>)
    requires Resolves(c)
  {
    && (forall i :: 0 <= i < |order| ==> order[i] in c.at && UseOf(c, order[i]) < c.clock)
    && (forall i, j :: 0 <= i < j < |order| ==> UseOf(c, order[i]) < UseOf(c, order[j]))
  }

  ghost predicate OrderedByUse(c: Cache)
    requires Resolves(c)
  {
    ByUse(c, c.order)
  }

  ghost predicate CacheInv(c: Cache, private: set<EntryId>) {
    && Dictionary(c) && MapCurrent(c) && ClosedUnheld(c)
    && Accounted(c, private) && PrivateApart(c, private) && OrderedByUse(c)
  }

  /** The bound: within the limit, or everything over it is pinned. */
  ghost predicate Bounded(c: Cache, maxEntries: int)
    requires Resolves(c)
  {
    |c.order| <= maxEntries || forall k :: k in c.at ==> c.entries[c.at[k]].refcount != 0
  }

  lemma {:induction false} WithoutOrder(order: seq<Key>, key: Key, i: nat, j: nat) returns (i': nat, j': nat)
    requires i < j < |Without(order, key)|
    ensures i' < j' < |order| && order[i'] == Without(order, key)[i] && order[j'] == Without(order, key)[j]
  {
    if order[0] == key {
      i', j' := WithoutOrder(order[1..], key, i, j);
      i', j' := i' + 1, j' + 1;
    } else if i > 0 {
      i', j' := WithoutOrder(order[1..], key, i - 1, j - 1);
      i', j' := i' + 1, j' + 1;
    } else {
      i' := 0;
      WithoutElements(order[1..], key);
      var k := Without(order, key)[j];
      assert k == Without(order[1..], key)[j - 1] && k in Without(order[1..], key);
      assert k in order[1..];
      var m :| 0 <= m < |order[1..]| && order[1..][m] == k;
      j' := m + 1;
    }
  }

  lemma WithoutDistinct(order: seq<Key>, key: Key)
    requires Distinct(order)
    ensures Distinct(Without(order, key)) && Distinct(Without(order, key) + [key])
  {
    WithoutElements(order, key);
    assert forall i :: 0 <= i < |Without(order, key)| ==> Without(order, key)[i] in Without(order, key);
    forall i, j | 0 <= i < j < |Without(order, key)| ensures Without(order, key)[i] != Without(order, key)[j] {
      var i', j' := WithoutOrder(order, key, i, j);
    }
  }

  /** Dropping a key from the order keeps the rest in order of use. */
  lemma WithoutByUse(c: Cache, key: Key)
    requires Resolves(c) && OrderedByUse(c)
    ensures ByUse(c, Without(c.order, key))
  {
    var left := Without(c.order, key);
    WithoutElements(c.order, key);
    forall i | 0 <= i < |left| ensures left[i] in c.at && UseOf(c, left[i]) < c.clock {
      assert left[i] in c.order;
    }
    forall i, j | 0 <= i < j < |left| ensures UseOf(c, left[i]) < UseOf(c, left[j]) {
      var i', j' := WithoutOrder(c.order, key, i, j);
    }
  }

  // ---------- Eviction ----------

  /** Eviction always takes the least recently used idle entry. */
  lemma VictimIsLeastRecentlyUsed(c: Cache, key: Key)
    requires Dictionary(c) && OrderedByUse(c) && FirstIdle(c, c.order) == Some(key)
    ensures key in c.at && c.entries[c.at[key]].refcount == 0
    ensures forall k :: k in c.at && c.entries[c.at[k]].refcount == 0 ==>
      UseOf(c, key) <= UseOf(c, k)
  {
    FirstIdleIsIdle(c, c.order);
    var i :| 0 <= i < |c.order| && c.order[i] == key && forall j :: 0 <= j < i ==> c.entries[c.at[c.order[j]]].refcount != 0;
    forall k | k in c.at && c.entries[c.at[k]].refcount == 0
      ensures UseOf(c, key) <= UseOf(c, k)
    {
      var m :| 0 <= m < |c.order| && c.order[m] == k;
    }
  }

  lemma EvictDictionary(c: Cache, key: Key)
    requires Dictionary(c) && OrderedByUse(c) && key in c.at
    ensures Dictionary(Evict(c, key)) && OrderedByUse(Evict(c, key))
  {
    WithoutElements(c.order, key);
    WithoutDistinct(c.order, key);
    WithoutByUse(c, key);
    SameUse(c, Evict(c, key), Without(c.order, key));
  }

  /** The order of use depends only on what each listed key's entry was last used. */
  lemma SameUse(c: Cache, d: Cache, order: seq<Key>)
    requires Resolves(c) && Resolves(d) && ByUse(c, order) && c.clock <= d.clock
    requires forall k :: k in order ==> k in c.at && k in d.at && UseOf(d, k) == UseOf(c, k)
    ensures ByUse(d, order)
  {
  }

  lemma EvictKeeps(c: Cache, private: set<EntryId>, key: Key)
    requires CacheInv(c, private) && key in c.at && c.entries[c.at[key]].refcount == 0
    ensures Resolves(Evict(c, key)) && CacheInv(Evict(c, key), private)
  {
    var d := Evict(c, key);
    EvictDictionary(c, key);
    assert InMap(c, c.at[key]);
    forall id | id in d.entries
      ensures id in d.closed || InMap(d, id) || (d.entries[id].stale && d.entries[id].refcount > 0) || id in private
    {
      if InMap(c, id) && c.entries[id].key != key { assert InMap(d, id); }
    }
    forall id | id in private ensures id !in d.closed && !InMap(d, id) {
      assert !InMap(c, id);
    }
    forall k | k in d.at ensures d.at[k] !in d.closed {
      assert InMap(c, c.at[k]);
    }
  }

  /** What eviction leaves alone: every opened graph's record, and everything held. */
  ghost predicate OnlyEvicts(c: Cache, d: Cache) {
    && d.entries == c.entries && d.clock == c.clock
    && (forall k :: k in d.at ==> k in c.at && d.at[k] == c.at[k])
    && c.closed <= d.closed
    && (forall id :: id in d.closed && id !in c.closed ==> InMap(c, id) && c.entries[id].refcount == 0)
    && (forall k :: k in c.at && k !in d.at ==> c.at[k] in d.closed)
  }

  lemma {:induction false} EvictExcessKeeps(c: Cache, private: set<EntryId>, maxEntries: int)
    requires CacheInv(c, private)
    ensures Resolves(EvictExcess(c, maxEntries)) && CacheInv(EvictExcess(c, maxEntries), private)
    ensures Bounded(EvictExcess(c, maxEntries), maxEntries)
    ensures OnlyEvicts(c, EvictExcess(c, maxEntries))
    decreases |c.order|
  {
    if |c.order| > maxEntries {
      FirstIdleIsIdle(c, c.order);
      if FirstIdle(c, c.order).Some? {
        var key := FirstIdle(c, c.order).value;
        VictimIsLeastRecentlyUsed(c, key);
        EvictKeeps(c, private, key);
        WithoutElements(c.order, key);
        EvictExcessKeeps(Evict(c, key), private, maxEntries);
        EvictOnly(c, key, EvictExcess(Evict(c, key), maxEntries));
      }
    }
  }

  lemma EvictOnly(c: Cache, key: Key, d: Cache)
    requires Resolves(c) && MapCurrent(c) && key in c.at && c.entries[c.at[key]].refcount == 0
    requires OnlyEvicts(Evict(c, key), d)
    ensures OnlyEvicts(c, d)
  {
    forall id | id in d.closed && id !in c.closed ensures InMap(c, id) && c.entries[id].refcount == 0 {
      if id in Evict(c, key).closed { assert id == c.at[key]; }
    }
  }

  // ---------- Each section keeps the invariant ----------

  lemma TouchDictionary(b: Cache, key: Key, id: EntryId)
    requires Dictionary(b) && id in b.entries
    ensures Dictionary(Touch(b, key, id))
  {
    WithoutElements(b.order, key);
    WithoutDistinct(b.order, key);
  }

  /** Moving an entry to the end of the order, under a key only it uses, keeps the order of use. */
  lemma TouchByUse(b: Cache, key: Key, id: EntryId)
    requires Dictionary(b) && OrderedByUse(b) && id in b.entries
    requires forall k :: k in b.at && k != key ==> b.at[k] != id
    ensures Resolves(Touch(b, key, id)) && OrderedByUse(Touch(b, key, id))
  {
    TouchDictionary(b, key, id);
    WithoutElements(b.order, key);
    WithoutByUse(b, key);
    var d := Touch(b, key, id);
    var left := Without(b.order, key);
    SameUse(b, d, left);
    assert forall i :: 0 <= i < |left| ==> UseOf(d, left[i]) < b.clock by {
      forall i | 0 <= i < |left| ensures UseOf(d, left[i]) < b.clock { assert UseOf(b, left[i]) < b.clock; }
    }
    AppendByUse(d, left, key);
  }

  lemma AppendByUse(d: Cache, left: seq<Key>, key: Key)
    requires Resolves(d) && ByUse(d, left) && key in d.at && UseOf(d, key) < d.clock
    requires forall i :: 0 <= i < |left| ==> UseOf(d, left[i]) < UseOf(d, key)
    ensures ByUse(d, left + [key])
  {
  }

  /** A step that leaves the dictionary and every last use alone keeps the order of use. */
  lemma SameOrder(c: Cache, d: Cache)
    requires Dictionary(c) && OrderedByUse(c)
    requires d.order == c.order && d.at == c.at && d.entries.Keys == c.entries.Keys && d.clock == c.clock
    requires forall id :: id in c.entries ==> d.entries[id].lastUse == c.entries[id].lastUse
    ensures Dictionary(d) && OrderedByUse(d)
  {
    SameUse(c, d, c.order);
  }

  lemma PromoteKeeps(c: Cache, private: set<EntryId>, key: Key, identity: string)
    requires CacheInv(c, private) && Reusable(c, key, identity)
    ensures Resolves(Promote(c, key, identity)) && CacheInv(Promote(c, key, identity), private)
    ensures var d := Promote(c, key, identity);
      && d.at == c.at && d.entries[c.at[key]].refcount == c.entries[c.at[key]].refcount + 1
      && d.order != [] && d.order[|d.order| - 1] == key && (forall k :: k in d.order <==> k in c.order)
      && forall k :: k in d.at && k != key ==> UseOf(d, k) < UseOf(d, key)
  {
    var id := c.at[key];
    assert InMap(c, id);
    SameOrder(c, AddRef(c, id, 1));
    TouchDictionary(AddRef(c, id, 1), key, id);
    TouchByUse(AddRef(c, id, 1), key, id);
    PromoteAccounts(c, private, key, identity);
    UsedLast(c, key, identity);
  }

  lemma UsedLast(c: Cache, key: Key, identity: string)
    requires Dictionary(c) && OrderedByUse(c) && MapCurrent(c) && Reusable(c, key, identity)
    ensures var d := Promote(c, key, identity);
      && d.at == c.at && d.entries[c.at[key]].refcount == c.entries[c.at[key]].refcount + 1
      && d.order != [] && d.order[|d.order| - 1] == key && (forall k :: k in d.order <==> k in c.order)
      && forall k :: k in d.at && k != key ==> UseOf(d, k) < UseOf(d, key)
  {
    WithoutElements(c.order, key);
    forall k | k in c.at ensures UseOf(c, k) < c.clock {
      var i :| 0 <= i < |c.order| && c.order[i] == k;
    }
  }

  lemma PromoteAccounts(c: Cache, private: set<EntryId>, key: Key, identity: string)
    requires CacheInv(c, private) && Reusable(c, key, identity)
    ensures var d := Promote(c, key, identity);
      Resolves(d) && MapCurrent(d) && ClosedUnheld(d) && Accounted(d, private) && PrivateApart(d, private)
  {
    var d := Promote(c, key, identity);
    assert InMap(c, c.at[key]);
    TouchResolves(AddRef(c, c.at[key], 1), key, c.at[key]);
    assert d.at == c.at;
    SameFiling(c, d, private);
  }

  /** A step that files nothing new and retires nothing keeps every graph accounted for. */
  lemma SameFiling(c: Cache, d: Cache, private: set<EntryId>)
    requires Accounted(c, private) && d.entries.Keys == c.entries.Keys && d.at == c.at && c.closed <= d.closed
    requires forall id :: id in c.entries ==> d.entries[id].key == c.entries[id].key && d.entries[id].stale == c.entries[id].stale
    requires forall id :: id in c.entries && c.entries[id].stale && c.entries[id].refcount > 0 ==>
      d.entries[id].refcount > 0 || id in d.closed
    ensures Accounted(d, private)
    ensures forall id :: InMap(d, id) <==> InMap(c, id)
  {
    forall id ensures InMap(d, id) <==> InMap(c, id) { }
  }

  lemma OpenKeeps(c: Cache, private: set<EntryId>, id: EntryId, key: Key, identity: string)
    requires CacheInv(c, private) && id !in c.entries
    ensures Resolves(Open(c, id, key, identity)) && CacheInv(Open(c, id, key, identity), private + {id})
  {
    var d := Open(c, id, key, identity);
    forall i | i in d.entries
      ensures i in d.closed || InMap(d, i) || (d.entries[i].stale && d.entries[i].refcount > 0) || i in private + {id}
    {
      if i != id && InMap(c, i) { assert InMap(d, i); }
    }
    forall i | i in private + {id} ensures !InMap(d, i) {
      if i != id { assert !InMap(c, i); }
    }
  }

  /** What a builder that read `existing` may still count on when it comes to install: the slot
      holds that entry, or the entry was evicted and closed meanwhile. */
  ghost predicate Filed(c: Cache, key: Key, existing: Option<EntryId>) {
    match existing
    case None => key !in c.at
    case Some(e) =>
      && e in c.entries && c.entries[e].key == key
      && (if key in c.at then c.at[key] == e else e in c.closed)
  }

  /** The installing section before it evicts. */
  function Filing(c: Cache, key: Key, id: EntryId, existing: Option<EntryId>): Cache
    requires id in c.entries && (existing.Some? ==> existing.value in c.entries)
  {
    Touch(Supersede(c, existing), key, id)
  }

  lemma FilingMap(c: Cache, private: set<EntryId>, key: Key, id: EntryId, existing: Option<EntryId>)
    requires CacheInv(c, private) && id in private && c.entries[id].key == key && Filed(c, key, existing)
    ensures var d := Filing(c, key, id, existing); Dictionary(d) && OrderedByUse(d) && MapCurrent(d)
  {
    assert !InMap(c, id);
    forall k | k in c.at ensures c.at[k] != id { }
    SameOrder(c, Supersede(c, existing));
    TouchDictionary(Supersede(c, existing), key, id);
    TouchByUse(Supersede(c, existing), key, id);
    FilingCurrent(c, private, key, id, existing);
  }

  lemma FilingCurrent(c: Cache, private: set<EntryId>, key: Key, id: EntryId, existing: Option<EntryId>)
    requires CacheInv(c, private) && id in private && c.entries[id].key == key && Filed(c, key, existing)
    requires Resolves(Filing(c, key, id, existing))
    ensures MapCurrent(Filing(c, key, id, existing))
  {
    assert !InMap(c, id);
    var d := Filing(c, key, id, existing);
    forall k | k in d.at ensures d.entries[d.at[k]].key == k && !d.entries[d.at[k]].stale && d.at[k] !in d.closed {
      if k != key { assert InMap(c, c.at[k]); }
    }
  }

  lemma FilingAccounts(c: Cache, private: set<EntryId>, key: Key, id: EntryId, existing: Option<EntryId>)
    requires CacheInv(c, private) && id in private && c.entries[id].key == key && Filed(c, key, existing)
    ensures Accounted(Filing(c, key, id, existing), private - {id})
  {
    var d := Filing(c, key, id, existing);
    assert InMap(d, id);
    forall i | i in d.entries && i != id
      ensures i in d.closed || InMap(d, i) || (d.entries[i].stale && d.entries[i].refcount > 0) || i in private - {id}
    {
      if InMap(c, i) {
        if c.entries[i].key == key { assert existing == Some(i); } else { assert InMap(d, i); }
      }
    }
  }

  lemma FilingApart(c: Cache, private: set<EntryId>, key: Key, id: EntryId, existing: Option<EntryId>)
    requires CacheInv(c, private) && id in private && c.entries[id].key == key && Filed(c, key, existing)
    ensures ClosedUnheld(Filing(c, key, id, existing)) && PrivateApart(Filing(c, key, id, existing), private - {id})
  {
    var d := Filing(c, key, id, existing);
    forall i | i in private - {id}
      ensures i in d.entries && i !in d.closed && !InMap(d, i) && !d.entries[i].stale && d.entries[i].refcount == 1
    {
      assert !InMap(c, i);
    }
  }

  lemma InstallKeeps(c: Cache, private: set<EntryId>, key: Key, id: EntryId, existing: Option<EntryId>, maxEntries: int)
    requires CacheInv(c, private) && id in private && c.entries[id].key == key && Filed(c, key, existing)
    ensures Resolves(Install(c, key, id, existing, maxEntries))
    ensures CacheInv(Install(c, key, id, existing, maxEntries), private - {id})
    ensures Bounded(Install(c, key, id, existing, maxEntries), maxEntries)
    ensures OnlyEvicts(Filing(c, key, id, existing), Install(c, key, id, existing, maxEntries))
  {
    FilingMap(c, private, key, id, existing);
    FilingAccounts(c, private, key, id, existing);
    FilingApart(c, private, key, id, existing);
    EvictExcessKeeps(Filing(c, key, id, existing), private - {id}, maxEntries);
  }

  lemma DropKeeps(c: Cache, private: set<EntryId>, id: EntryId)
    requires CacheInv(c, private) && id in c.entries && id !in private && c.entries[id].refcount > 0
    requires c.entries[id].refcount > 1 || !c.entries[id].stale
    ensures CacheInv(AddRef(c, id, -1), private)
  {
    SameFiling(c, AddRef(c, id, -1), private);
  }

  lemma RetireKeeps(c: Cache, private: set<EntryId>, id: EntryId)
    requires CacheInv(c, private) && id in c.entries && id !in private
    requires c.entries[id].refcount == 1 && c.entries[id].stale
    ensures var less := AddRef(c, id, -1); CacheInv(less.(closed := less.closed + {id}), private)
  {
    var less := AddRef(c, id, -1);
    var d := less.(closed := less.closed + {id});
    SameFiling(c, d, private);
  }

  lemma ReleaseKeeps(c: Cache, private: set<EntryId>, id: EntryId, maxEntries: int)
    requires CacheInv(c, private) && id in c.entries && id !in private && c.entries[id].refcount > 0
    requires Bounded(c, maxEntries)
    ensures Resolves(Release(c, id, maxEntries)) && CacheInv(Release(c, id, maxEntries), private)
    ensures Bounded(Release(c, id, maxEntries), maxEntries)
    ensures OnlyEvicts(AddRef(c, id, -1), Release(c, id, maxEntries)) ||
      (c.entries[id].stale && Release(c, id, maxEntries) == AddRef(c, id, -1).(closed := c.closed + {id}))
  {
    if c.entries[id].refcount == 1 && c.entries[id].stale {
      RetireKeeps(c, private, id);
      assert Bounded(Release(c, id, maxEntries), maxEntries) by { assert !InMap(c, id); }
    } else {
      DropKeeps(c, private, id);
      if c.entries[id].refcount == 1 {
        EvictExcessKeeps(AddRef(c, id, -1), private, maxEntries);
      }
    }
  }
}
