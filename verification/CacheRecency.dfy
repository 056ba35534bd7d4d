/** Over whole runs: the cache stands in the order its graphs were last asked for, and evicts from the far end. */
module CacheRecency {
  import opened Text
  import opened GraphCache
  import opened CacheProtocol

  // ---------- Uses, read from the threads ----------

  /** In this step some checkout found or filed the graph of `key`. */
  ghost predicate Uses(s: State, s': State, key: Key) {
    exists t: ThreadId :: GetsGraph(s, s', t, key)
  }

  predicate GetsGraph(s: State, s': State, t: ThreadId, key: Key) {
    !PcOf(s, t).Promoted? && PcOf(s', t).Promoted? && PcOf(s', t).key == key
  }

  /** The last of the first `n` steps to use `key`, or -1. */
  ghost function LastUsed(run: seq<State>, n: nat, key: Key): int
    requires n < |run|
  {
    if n == 0 then -1
    else if Uses(run[n - 1], run[n], key) then n - 1
    else LastUsed(run, n - 1, key)
  }

  lemma {:induction false} LastUsedBefore(run: seq<State>, n: nat, key: Key)
    requires n < |run|
    ensures -1 <= LastUsed(run, n, key) < n || n == 0
  {
    if n > 0 { LastUsedBefore(run, n - 1, key); }
  }

  // ---------- Orders ----------

  ghost predicate Ascending(order: seq<Key>, f: Key -> int) {
    forall i, j :: 0 <= i < j < |order| ==> f(order[i]) < f(order[j])
  }

  lemma WithoutAscends(order: seq<Key>, key: Key, f: Key -> int)
    requires Ascending(order, f)
    ensures Ascending(Without(order, key), f)
  {
    var left := Without(order, key);
    forall i, j | 0 <= i < j < |left| ensures f(left[i]) < f(left[j]) {
      var i', j' := WithoutOrder(order, key, i, j);
    }
  }

  lemma AppendAscends(order: seq<Key>, key: Key, f: Key -> int)
    requires Ascending(order, f) && forall k :: k in order ==> f(k) < f(key)
    ensures Ascending(order + [key], f)
  {
    forall i | 0 <= i < |order| ensures f(order[i]) < f(key) { assert order[i] in order; }
  }

  lemma AscendingAlike(order: seq<Key>, f: Key -> int, g: Key -> int)
    requires Ascending(order, f) && forall k :: k in order ==> f(k) == g(k)
    ensures Ascending(order, g)
  {
    assert forall i :: 0 <= i < |order| ==> order[i] in order;
  }

  // ---------- Eviction ----------

  predicate IdleIn(c: Cache, key: Key) {
    key in c.at && c.at[key] in c.entries && c.entries[c.at[key]].refcount == 0
  }

  /** From `c` to `d` only idle entries went, the earliest first, and no more than the bound asks for. */
  ghost predicate EvictsEarliest(c: Cache, d: Cache, maxEntries: int, f: Key -> int) {
    && Ascending(d.order, f) && (forall k :: k in d.order ==> k in c.order)
    && (forall k :: k in c.order && k !in d.order ==> IdleIn(c, k))
    && (forall k, m :: k in c.order && k !in d.order && m in d.order && IdleIn(d, m) ==> f(k) < f(m))
    && ((exists k :: k in c.order && k !in d.order) ==> |d.order| >= maxEntries)
  }

  lemma FirstIdleIsEarliest(c: Cache, key: Key, f: Key -> int)
    requires Resolves(c) && Ascending(c.order, f) && FirstIdle(c, c.order) == Some(key)
    ensures key in c.order && IdleIn(c, key)
    ensures forall m :: m in c.order && m != key && IdleIn(c, m) ==> f(key) < f(m)
  {
    FirstIdleIsIdle(c, c.order);
    var i :| 0 <= i < |c.order| && c.order[i] == key && forall j :: 0 <= j < i ==> c.entries[c.at[c.order[j]]].refcount != 0;
    forall m | m in c.order && m != key && IdleIn(c, m) ensures f(key) < f(m) {
      var j :| 0 <= j < |c.order| && c.order[j] == m;
    }
  }

  lemma EvictOne(c: Cache, key: Key, d: Cache, maxEntries: int, f: Key -> int)
    requires Resolves(c) && |c.order| > maxEntries && Ascending(c.order, f) && FirstIdle(c, c.order) == Some(key)
    requires key in c.order && Distinct(c.order) && EvictsEarliest(Evict(c, key), d, maxEntries, f)
    requires d.entries == c.entries && forall k :: k in d.at ==> k in c.at && d.at[k] == c.at[k]
    ensures EvictsEarliest(c, d, maxEntries, f)
  {
    var e := Evict(c, key);
    WithoutElements(c.order, key);
    FirstIdleIsEarliest(c, key, f);
    forall k | k in c.order && k !in d.order ensures IdleIn(c, k) {
      if k != key { assert IdleIn(e, k); }
    }
    forall k, m | k in c.order && k !in d.order && m in d.order && IdleIn(d, m) ensures f(k) < f(m) {
      if k != key { assert k in e.order; } else { assert IdleIn(c, m) && m in e.order; }
    }
    EvictSize(c, key, d, maxEntries);
  }

  lemma EvictSize(c: Cache, key: Key, d: Cache, maxEntries: int)
    requires key in c.at && key in c.order && Distinct(c.order) && |c.order| > maxEntries
    requires (exists k :: k in Evict(c, key).order && k !in d.order) ==> |d.order| >= maxEntries
    ensures |d.order| >= maxEntries
  {
    var left := Without(c.order, key);
    WithoutSize(c.order, key);
    WithoutDistinct(c.order, key);
    if forall k :: k in left ==> k in d.order { NothingGone(left, d.order); }
  }

  lemma {:induction false} WithoutSize(order: seq<Key>, key: Key)
    requires Distinct(order) && key in order
    ensures |Without(order, key)| == |order| - 1
  {
    var rest := order[1..];
    assert Distinct(rest);
    if order[0] == key {
      assert forall i :: 0 <= i < |rest| ==> rest[i] == order[i + 1];
      WithoutAbsent(rest, key);
    } else {
      assert key in rest;
      WithoutSize(rest, key);
    }
  }

  lemma {:induction false} WithoutAbsent(order: seq<Key>, key: Key)
    requires key !in order
    ensures Without(order, key) == order
  {
    if order != [] { WithoutAbsent(order[1..], key); }
  }

  lemma {:induction false} NothingGone(a: seq<Key>, b: seq<Key>)
    requires (forall k :: k in a ==> k in b) && Distinct(a)
    ensures |a| <= |b|
  {
    if a != [] {
      var k := a[0];
      assert k in a && k in b;
      var i :| 0 <= i < |b| && b[i] == k;
      var c := b[..i] + b[i + 1..];
      forall m | m in a[1..] ensures m in c {
        var j :| 0 <= j < |a[1..]| && a[1..][j] == m;
        assert a[j + 1] == m && m != k && m in b;
        var p :| 0 <= p < |b| && b[p] == m;
        assert if p < i then c[p] == m else c[p - 1] == m;
      }
      NothingGone(a[1..], c);
    }
  }

  lemma {:induction false} EvictsInOrder(c: Cache, maxEntries: int, f: Key -> int)
    requires Resolves(c) && Distinct(c.order) && Ascending(c.order, f)
    ensures EvictsEarliest(c, EvictExcess(c, maxEntries), maxEntries, f)
    ensures var d := EvictExcess(c, maxEntries); d.entries == c.entries && forall k :: k in d.at ==> k in c.at && d.at[k] == c.at[k]
    decreases |c.order|
  {
    if |c.order| > maxEntries {
      FirstIdleIsIdle(c, c.order);
      if FirstIdle(c, c.order).Some? {
        var key := FirstIdle(c, c.order).value;
        WithoutElements(c.order, key);
        WithoutDistinct(c.order, key);
        WithoutAscends(c.order, key, f);
        EvictsInOrder(Evict(c, key), maxEntries, f);
        EvictOne(c, key, EvictExcess(c, maxEntries), maxEntries, f);
      }
    }
  }

  // ---------- One step ----------

  /** What a section leaves of the order, before it evicts. */
  ghost function Reordered(s: State, s': State, t: ThreadId): seq<Key> {
    if PcOf(s', t).Promoted? && !PcOf(s, t).Promoted?
    then Without(s.cache.order, PcOf(s', t).key) + [PcOf(s', t).key] else s.cache.order
  }

  lemma OnlyItUses(s: State, s': State, t: ThreadId, key: Key)
    requires s'.threads == s.threads[t := PcOf(s', t)]
    ensures Uses(s, s', key) <==> GetsGraph(s, s', t, key)
  {
    if u: ThreadId :| GetsGraph(s, s', u, key) { assert u == t; }
  }

  /** Before it evicts, a step has moved the key it used, if any, to the end, and no other. */
  ghost predicate StepReorders(s: State, s': State, t: ThreadId, maxEntries: int, m: Cache) {
    && s'.threads == s.threads[t := PcOf(s', t)]
    && Resolves(m) && Distinct(m.order) && m.order == Reordered(s, s', t)
    && (forall k :: k in s.cache.at ==> k in m.at && (m.at[k] == s.cache.at[k] || !IdleIn(m, k)))
    && (s'.cache == m || s'.cache == EvictExcess(m, maxEntries) || (s'.cache.order == m.order && s'.cache.at == m.at))
  }

  lemma PromoteReorders(s: State, s': State, t: ThreadId, maxEntries: int)
    requires Dictionary(s.cache) && CheckAndPromote(s, s', t)
    ensures StepReorders(s, s', t, maxEntries, s'.cache)
  {
    WithoutElements(s.cache.order, PcOf(s, t).key);
    WithoutDistinct(s.cache.order, PcOf(s, t).key);
  }

  lemma FileReorders(s: State, s': State, t: ThreadId, maxEntries: int) returns (m: Cache)
    requires Dictionary(s.cache) && File(s, s', t, maxEntries) && s.cache.entries[PcOf(s, t).id].refcount == 1
    ensures StepReorders(s, s', t, maxEntries, m)
  {
    var pc := PcOf(s, t);
    m := Filing(s.cache, pc.key, pc.id, pc.existing);
    WithoutElements(s.cache.order, pc.key);
    WithoutDistinct(s.cache.order, pc.key);
  }

  lemma ReturnReorders(s: State, s': State, t: ThreadId, maxEntries: int) returns (m: Cache)
    requires Dictionary(s.cache) && Return(s, s', t, maxEntries)
    ensures StepReorders(s, s', t, maxEntries, m)
  {
    m := AddRef(s.cache, PcOf(s, t).id, -1);
  }

  lemma QuietReorders(s: State, s': State, t: ThreadId, maxEntries: int)
    requires Dictionary(s.cache) && StepOf(s, s', t, maxEntries)
    requires !CheckAndPromote(s, s', t) && !File(s, s', t, maxEntries) && !Return(s, s', t, maxEntries)
    ensures s'.cache.order == s.cache.order && s'.cache.at == s.cache.at && Resolves(s'.cache)
    ensures StepReorders(s, s', t, maxEntries, s'.cache)
  {
    if key, lock :| LookUp(s, s', t, key, lock) {
    } else if identity :| ReadIdentity(s, s', t, identity) {
    } else if id: EntryId :| Build(s, s', t, id) {
    }
  }

  lemma Reorders(s: State, s': State, t: ThreadId, maxEntries: int) returns (m: Cache)
    requires Inv(s, maxEntries) && StepOf(s, s', t, maxEntries)
    ensures StepReorders(s, s', t, maxEntries, m)
  {
    if CheckAndPromote(s, s', t) {
      m := s'.cache;
      PromoteReorders(s, s', t, maxEntries);
    } else if File(s, s', t, maxEntries) {
      PrivatesAre(s.threads, PcOf(s, t).id);
      assert Builds(s.threads, t, PcOf(s, t).id);
      m := FileReorders(s, s', t, maxEntries);
    } else if Return(s, s', t, maxEntries) {
      m := ReturnReorders(s, s', t, maxEntries);
    } else {
      m := s'.cache;
      QuietReorders(s, s', t, maxEntries);
    }
  }

  lemma ReorderedAscends(s: State, s': State, t: ThreadId, n: int, f: Key -> int, g: Key -> int)
    requires s'.threads == s.threads[t := PcOf(s', t)]
    requires Ascending(s.cache.order, f) && forall k :: k in s.cache.order ==> f(k) < n
    requires forall k :: g(k) == if Uses(s, s', k) then n else f(k)
    ensures Ascending(Reordered(s, s', t), g)
  {
    forall k ensures Uses(s, s', k) <==> GetsGraph(s, s', t, k) { OnlyItUses(s, s', t, k); }
    var order := s.cache.order;
    if PcOf(s', t).Promoted? && !PcOf(s, t).Promoted? {
      var key := PcOf(s', t).key;
      WithoutElements(order, key);
      WithoutAscends(order, key, f);
      AscendingAlike(Without(order, key), f, g);
      AppendAscends(Without(order, key), key, g);
    } else {
      AscendingAlike(order, f, g);
    }
  }

  // ---------- Over whole runs ----------

  /** Filed keys stand in the order of the last step at which each was reused or filed, and each was. */
  ghost predicate InOrderOfUse(run: seq<State>, n: nat)
    requires n < |run|
  {
    && Ascending(run[n].cache.order, (k: Key) => LastUsed(run, n, k))
    && forall k :: k in run[n].cache.order ==> LastUsed(run, n, k) >= 0
  }

  lemma SameUseOrEvicted(s': State, m: Cache, maxEntries: int, g: Key -> int)
    requires Resolves(m) && Distinct(m.order) && Ascending(m.order, g)
    requires s'.cache == m || s'.cache == EvictExcess(m, maxEntries) || (s'.cache.order == m.order && s'.cache.at == m.at)
    ensures Ascending(s'.cache.order, g) && forall k :: k in s'.cache.order ==> k in m.order
  {
    EvictsInOrder(m, maxEntries, g);
  }

  lemma {:induction false} OrderIsLastUse(run: seq<State>, maxEntries: int, n: nat)
    requires IsRun(run, maxEntries) && n < |run|
    ensures InOrderOfUse(run, n) && FiledAreOrdered(run[n].cache)
  {
    RunKeeps(run, maxEntries, n);
    KeysAreFiled(run[n], maxEntries);
    if n == 0 {
      StartsInOrder(run, maxEntries);
    } else {
      OrderIsLastUse(run, maxEntries, n - 1);
      NextInOrder(run, maxEntries, n - 1);
    }
  }

  ghost predicate FiledAreOrdered(c: Cache) {
    forall k :: k in c.at <==> k in c.order
  }

  lemma KeysAreFiled(s: State, maxEntries: int)
    requires Inv(s, maxEntries)
    ensures FiledAreOrdered(s.cache)
  {
  }

  lemma StartsInOrder(run: seq<State>, maxEntries: int)
    requires IsRun(run, maxEntries) && 0 < |run|
    ensures InOrderOfUse(run, 0)
  {
  }

  lemma NextInOrder(run: seq<State>, maxEntries: int, n: nat)
    requires IsRun(run, maxEntries) && n + 1 < |run| && InOrderOfUse(run, n)
    ensures InOrderOfUse(run, n + 1)
  {
    RunKeeps(run, maxEntries, n);
    assert Step(run[n], run[n + 1], maxEntries);
    var t: ThreadId :| StepOf(run[n], run[n + 1], t, maxEntries);
    var m := Reorders(run[n], run[n + 1], t, maxEntries);
    UseAscends(run, n, t);
    SameUseOrEvicted(run[n + 1], m, maxEntries, (k: Key) => LastUsed(run, n + 1, k));
    UsedSince(run, n, t, m);
  }

  lemma UseAscends(run: seq<State>, n: nat, t: ThreadId)
    requires n + 1 < |run| && InOrderOfUse(run, n) && run[n + 1].threads == run[n].threads[t := PcOf(run[n + 1], t)]
    ensures Ascending(Reordered(run[n], run[n + 1], t), (k: Key) => LastUsed(run, n + 1, k))
  {
    forall k ensures LastUsed(run, n, k) < n || n == 0 { LastUsedBefore(run, n, k); }
    forall k | k in run[n].cache.order ensures LastUsed(run, n, k) < n { }
    ReorderedAscends(run[n], run[n + 1], t, n, (k: Key) => LastUsed(run, n, k), (k: Key) => LastUsed(run, n + 1, k));
  }

  lemma UsedSince(run: seq<State>, n: nat, t: ThreadId, m: Cache)
    requires n + 1 < |run| && InOrderOfUse(run, n) && run[n + 1].threads == run[n].threads[t := PcOf(run[n + 1], t)]
    requires m.order == Reordered(run[n], run[n + 1], t)
    ensures forall k :: k in m.order ==> LastUsed(run, n + 1, k) >= 0
  {
    forall k | k in m.order ensures LastUsed(run, n + 1, k) >= 0 {
      OnlyItUses(run[n], run[n + 1], t, k);
      if PcOf(run[n + 1], t).Promoted? { WithoutElements(run[n].cache.order, PcOf(run[n + 1], t).key); }
    }
  }

  lemma EvictedStep(s: State, s': State, t: ThreadId, maxEntries: int, m: Cache, g: Key -> int, k: Key)
    requires StepReorders(s, s', t, maxEntries, m) && Ascending(m.order, g) && Dictionary(s.cache) && Dictionary(s'.cache)
    requires k in s.cache.at && k !in s'.cache.at
    ensures EvictsEarliest(m, s'.cache, maxEntries, g) && s'.cache.entries == m.entries
    ensures k in m.order && k !in s'.cache.order && IdleIn(m, k) && m.at[k] == s.cache.at[k]
  {
    EvictsInOrder(m, maxEntries, g);
    if PcOf(s', t).Promoted? { WithoutElements(s.cache.order, PcOf(s', t).key); }
    assert k in m.order;
    assert s'.cache == EvictExcess(m, maxEntries);
  }

  /** `m` was reused or filed after `k`, within the first `n` steps. */
  ghost predicate UsedAfter(run: seq<State>, n: nat, k: Key, m: Key)
    requires n < |run|
  {
    LastUsed(run, n, k) < LastUsed(run, n, m)
  }

  /** `k` left the cache rightly: nobody holds its graph, without it the cache is still full, and every idle
      key that stays was used after it. */
  ghost predicate LeavesRightly(run: seq<State>, n: nat, k: Key, maxEntries: int)
    requires n + 1 < |run| && k in run[n].cache.at
  {
    var id, d := run[n].cache.at[k], run[n + 1].cache;
    && id in d.entries && d.entries[id].refcount == 0 && |d.order| >= maxEntries
    && forall m :: IdleIn(d, m) ==> UsedAfter(run, n + 1, k, m)
  }

  lemma EvictedRightly(run: seq<State>, maxEntries: int, n: nat, t: ThreadId, m: Cache, k: Key)
    requires n + 1 < |run| && StepReorders(run[n], run[n + 1], t, maxEntries, m) && k in run[n].cache.at
    requires EvictsEarliest(m, run[n + 1].cache, maxEntries, (k: Key) => LastUsed(run, n + 1, k))
    requires run[n + 1].cache.entries == m.entries && Dictionary(run[n + 1].cache)
    requires k in m.order && k !in run[n + 1].cache.order && IdleIn(m, k) && m.at[k] == run[n].cache.at[k]
    ensures LeavesRightly(run, n, k, maxEntries)
  {
  }

  /** In every run a key leaves the cache only when its graph is idle and the bound is passed, and it is then
      the idle key whose last reuse or filing is earliest. */
  lemma EvictedIsEarliest(run: seq<State>, maxEntries: int, n: nat, k: Key)
    requires IsRun(run, maxEntries) && n + 1 < |run|
    requires k in run[n].cache.at && k !in run[n + 1].cache.at
    ensures LeavesRightly(run, n, k, maxEntries)
  {
    var s, s' := run[n], run[n + 1];
    RunKeeps(run, maxEntries, n);
    RunKeeps(run, maxEntries, n + 1);
    OrderIsLastUse(run, maxEntries, n);
    assert Step(run[n], run[n + 1], maxEntries);
    var t: ThreadId :| StepOf(s, s', t, maxEntries);
    var m := Reorders(s, s', t, maxEntries);
    UseAscends(run, n, t);
    EvictedStep(s, s', t, maxEntries, m, (k: Key) => LastUsed(run, n + 1, k), k);
    EvictedRightly(run, maxEntries, n, t, m, k);
  }

  // ---------- Reuse ----------

  /** In every run, whoever asks for a key is handed the graph filed under it exactly when that carries the
      identity just read, idle or in use; the graph then has one more user, stands last, and nothing else
      about the cache has changed. */
  lemma ReusedIffCurrent(run: seq<State>, maxEntries: int, n: nat, t: ThreadId)
    requires IsRun(run, maxEntries) && n + 1 < |run| && CheckAndPromote(run[n], run[n + 1], t)
    ensures var c, pc := run[n].cache, PcOf(run[n], t);
      PcOf(run[n + 1], t).Promoted? <==> pc.key in c.at && c.at[pc.key] in c.entries && c.entries[c.at[pc.key]].identity == pc.identity
    ensures PcOf(run[n + 1], t).Promoted? ==> Reuses(run[n].cache, run[n + 1].cache, PcOf(run[n], t).key, PcOf(run[n + 1], t).id)
    ensures !PcOf(run[n + 1], t).Promoted? ==> PcOf(run[n + 1], t).Missed? && run[n + 1].cache == run[n].cache
  {
    RunKeeps(run, maxEntries, n);
    var key, identity := PcOf(run[n], t).key, PcOf(run[n], t).identity;
    if Reusable(run[n].cache, key, identity) { PromotionReuses(run[n].cache, key, identity); }
  }

  lemma PromotionReuses(c: Cache, key: Key, identity: string)
    requires Resolves(c) && Reusable(c, key, identity) && FiledAreOrdered(c)
    ensures Reuses(c, Promote(c, key, identity), key, c.at[key])
  {
    WithoutElements(c.order, key);
  }

  ghost predicate Reuses(c: Cache, d: Cache, key: Key, id: EntryId) {
    && key in c.at && c.at[key] == id && id in c.entries && id in d.entries
    && d.at == c.at && d.closed == c.closed && d.entries.Keys == c.entries.Keys
    && d.entries[id].refcount == c.entries[id].refcount + 1
    && (forall i :: i in c.entries && i != id ==> d.entries[i] == c.entries[i])
    && d.order != [] && d.order[|d.order| - 1] == key && (forall k :: k in d.order <==> k in c.order)
  }
}
