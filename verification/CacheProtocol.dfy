/** Threads checking graphs out of the cache: a run interleaves critical sections, builds and uses of build locks. */
module CacheProtocol {
  import opened Text
  import opened GraphCache

  type ThreadId = nat

  /** A `threading.Lock` object. */
  type LockId = nat

  /** Where a thread stands inside `checkout`. */
  datatype Pc =
    | Idle
    | Waiting(key: Key)                                                           // build lock looked up
    | Locked(key: Key)                                                            // build lock taken
    | Read(key: Key, identity: string)                                            // corpus identity read
    | Missed(key: Key, identity: string, existing: Option<EntryId>)               // nothing to reuse
    | Built(key: Key, identity: string, existing: Option<EntryId>, id: EntryId)   // graph opened, not yet filed
    | Promoted(key: Key, identity: string, id: EntryId)                           // counted, build lock still held
    | Using(key: Key, identity: string, id: EntryId)                              // cursor handed out

  /** `locks` is the dictionary of build locks, `mine` each thread's local reference to one, and
      `held` says which thread has acquired a lock. */
  datatype State = State(
    cache: Cache,
    threads: map<ThreadId, Pc>,
    locks: map<Key, LockId>,
    mine: map<ThreadId, LockId>,
    held: map<LockId, ThreadId>)

  function PcOf(s: State, t: ThreadId): Pc {
    if t in s.threads then s.threads[t] else Idle
  }

  /** The key a thread looked a build lock up for, while it still refers to that lock. */
  function Looks(pc: Pc): Option<Key> {
    match pc
    case Idle => None
    case Using(_, _, _) => None
    case _ => Some(pc.key)
  }

  /** The key a thread builds under. */
  function LockOf(pc: Pc): Option<Key> {
    if pc.Waiting? then None else Looks(pc)
  }

  /** The graph a thread holds. */
  function Held(pc: Pc): Option<EntryId> {
    match pc
    case Built(_, _, _, id) => Some(id)
    case Promoted(_, _, id) => Some(id)
    case Using(_, _, id) => Some(id)
    case _ => None
  }

  function HoldersOf(threads: map<ThreadId, Pc>, id: EntryId): set<ThreadId> {
    set t | t in threads && Held(threads[t]) == Some(id)
  }

  /** Graphs opened but not yet filed. */
  function Privates(threads: map<ThreadId, Pc>): set<EntryId> {
    set t | t in threads && threads[t].Built? :: threads[t].id
  }

  // ---------- Steps ----------

  /** The thread moves on and the cache becomes `c`. */
  ghost predicate Goes(s: State, s': State, t: ThreadId, c: Cache, pc: Pc) {
    s'.cache == c && s'.threads == s.threads[t := pc]
  }

  /** So, and no build lock is touched. */
  ghost predicate Moves(s: State, s': State, t: ThreadId, c: Cache, pc: Pc) {
    Goes(s, s', t, c, pc) && s'.locks == s.locks && s'.mine == s.mine && s'.held == s.held
  }

  /** The build lock is found, or created and remembered, in one section under the cache lock. */
  ghost predicate LookUp(s: State, s': State, t: ThreadId, key: Key, lock: LockId) {
    && PcOf(s, t) == Idle
    && (if key in s.locks then lock == s.locks[key] else lock !in s.locks.Values && lock !in s.held)
    && Goes(s, s', t, s.cache, Waiting(key))
    && s'.locks == s.locks[key := lock] && s'.mine == s.mine[t := lock] && s'.held == s.held
  }

  /** A lock is acquired when nobody has it; which key it was made for plays no part. */
  ghost predicate Acquire(s: State, s': State, t: ThreadId) {
    && PcOf(s, t).Waiting? && t in s.mine && s.mine[t] !in s.held
    && Goes(s, s', t, s.cache, Locked(PcOf(s, t).key))
    && s'.locks == s.locks && s'.mine == s.mine && s'.held == s.held[s.mine[t] := t]
  }

  /** The thread leaves the block its build lock guards. */
  ghost predicate Frees(s: State, s': State, t: ThreadId, pc: Pc) {
    && t in s.mine && Goes(s, s', t, s.cache, pc)
    && s'.locks == s.locks && s'.mine == s.mine && s'.held == s.held - {s.mine[t]}
  }

  /** Reads whatever identity the corpus has just now. */
  ghost predicate ReadIdentity(s: State, s': State, t: ThreadId, identity: string) {
    PcOf(s, t).Locked? && Moves(s, s', t, s.cache, Read(PcOf(s, t).key, identity))
  }

  ghost predicate CheckAndPromote(s: State, s': State, t: ThreadId) {
    && Resolves(s.cache) && PcOf(s, t).Read?
    && var pc := PcOf(s, t);
       if Reusable(s.cache, pc.key, pc.identity)
       then Moves(s, s', t, Promote(s.cache, pc.key, pc.identity), Promoted(pc.key, pc.identity, s.cache.at[pc.key]))
       else Moves(s, s', t, s.cache, Missed(pc.key, pc.identity, if pc.key in s.cache.at then Some(s.cache.at[pc.key]) else None))
  }

  /** The build itself, outside the cache lock, for a graph no one has seen before. */
  ghost predicate Build(s: State, s': State, t: ThreadId, id: EntryId) {
    && PcOf(s, t).Missed? && id !in s.cache.entries
    && var pc := PcOf(s, t);
       Moves(s, s', t, Open(s.cache, id, pc.key, pc.identity), Built(pc.key, pc.identity, pc.existing, id))
  }

  /** Reading the identity or opening the graph raises: the lock goes back and nothing was cached. */
  ghost predicate Fail(s: State, s': State, t: ThreadId) {
    (PcOf(s, t).Locked? || PcOf(s, t).Missed?) && Frees(s, s', t, Idle)
  }

  ghost predicate File(s: State, s': State, t: ThreadId, maxEntries: int) {
    && Resolves(s.cache) && PcOf(s, t).Built?
    && var pc := PcOf(s, t);
       && pc.id in s.cache.entries && (pc.existing.Some? ==> pc.existing.value in s.cache.entries)
       && Moves(s, s', t, Install(s.cache, pc.key, pc.id, pc.existing, maxEntries), Promoted(pc.key, pc.identity, pc.id))
  }

  ghost predicate Unlock(s: State, s': State, t: ThreadId) {
    && PcOf(s, t).Promoted?
    && var pc := PcOf(s, t);
       Frees(s, s', t, Using(pc.key, pc.identity, pc.id))
  }

  ghost predicate Return(s: State, s': State, t: ThreadId, maxEntries: int) {
    && Resolves(s.cache) && PcOf(s, t).Using? && PcOf(s, t).id in s.cache.entries
    && Moves(s, s', t, Release(s.cache, PcOf(s, t).id, maxEntries), Idle)
  }

  ghost predicate Step(s: State, s': State, maxEntries: int) {
    exists t: ThreadId :: StepOf(s, s', t, maxEntries)
  }

  ghost predicate StepOf(s: State, s': State, t: ThreadId, maxEntries: int) {
    || (exists key, lock :: LookUp(s, s', t, key, lock))
    || Acquire(s, s', t)
    || (exists identity :: ReadIdentity(s, s', t, identity))
    || CheckAndPromote(s, s', t)
    || (exists id: EntryId :: Build(s, s', t, id))
    || Fail(s, s', t)
    || File(s, s', t, maxEntries)
    || Unlock(s, s', t)
    || Return(s, s', t, maxEntries)
  }

  const Start := State(Empty, map[], map[], map[], map[])

  ghost predicate IsRun(run: seq<State>, maxEntries: int) {
    && run != [] && run[0] == Start
    && forall i :: 0 <= i < |run| - 1 ==> Step(run[i], run[i + 1], maxEntries)
  }

  // ---------- The invariant ----------

  ghost predicate Mutex(threads: map<ThreadId, Pc>) {
    forall t, u :: t in threads && u in threads && t != u && LockOf(threads[t]).Some? ==>
      LockOf(threads[t]) != LockOf(threads[u])
  }

  /** A graph's count is the number of threads holding it. */
  ghost predicate Counted(c: Cache, threads: map<ThreadId, Pc>) {
    forall id :: id in c.entries ==> c.entries[id].refcount == |HoldersOf(threads, id)|
  }

  /** `id` was opened for this key and carries this identity. */
  predicate EntryIs(c: Cache, id: EntryId, key: Key, identity: string) {
    id in c.entries && c.entries[id].key == key && c.entries[id].identity == identity
  }

  ghost predicate ThreadOk(c: Cache, pc: Pc) {
    match pc
    case Missed(key, _, existing) => Filed(c, key, existing)
    case Built(key, identity, existing, id) => Filed(c, key, existing) && EntryIs(c, id, key, identity)
    case Promoted(key, identity, id) => EntryIs(c, id, key, identity)
    case Using(key, identity, id) => EntryIs(c, id, key, identity)
    case _ => true
  }

  /** The cache and the threads. */
  ghost predicate CoreInv(s: State, maxEntries: int) {
    && CacheInv(s.cache, Privates(s.threads))
    && Bounded(s.cache, maxEntries)
    && Mutex(s.threads)
    && Counted(s.cache, s.threads)
    && AllThreadsOk(s.cache, s.threads)
  }

  /** A thread refers to the one lock of the key it looked up, and has acquired it while it builds. */
  ghost predicate LockOk(s: State, t: ThreadId) {
    var pc := PcOf(s, t);
    && (Looks(pc).Some? ==> t in s.mine && Looks(pc).value in s.locks && s.locks[Looks(pc).value] == s.mine[t])
    && (LockOf(pc).Some? ==> t in s.mine && s.mine[t] in s.held && s.held[s.mine[t]] == t)
  }

  /** Different keys have different locks. */
  ghost predicate OwnLocks(locks: map<Key, LockId>) {
    forall k, m :: k in locks && m in locks && k != m ==> locks[k] != locks[m]
  }

  ghost predicate LocksInv(s: State) {
    OwnLocks(s.locks) && (forall t :: t in s.threads ==> LockOk(s, t)) && (forall l :: l in s.held ==> l in s.locks.Values)
  }

  ghost predicate Inv(s: State, maxEntries: int) {
    CoreInv(s, maxEntries) && LocksInv(s)
  }

  ghost predicate AllThreadsOk(c: Cache, threads: map<ThreadId, Pc>) {
    forall t :: t in threads ==> ThreadOk(c, threads[t])
  }

  // ---------- How a step changes who holds what ----------

  lemma HoldersMove(threads: map<ThreadId, Pc>, t: ThreadId, pc: Pc, id: EntryId)
    ensures HoldersOf(threads[t := pc], id) ==
      HoldersOf(threads, id) - {t} + if Held(pc) == Some(id) then {t} else {}
  {
  }

  /** A thread that neither takes nor gives up a graph changes no count. */
  lemma SameHolders(threads: map<ThreadId, Pc>, t: ThreadId, pc: Pc)
    requires Held(pc) == (if t in threads then Held(threads[t]) else None)
    ensures forall id: EntryId :: HoldersOf(threads[t := pc], id) == HoldersOf(threads, id)
  {
    forall id: EntryId ensures HoldersOf(threads[t := pc], id) == HoldersOf(threads, id) {
      HoldersMove(threads, t, pc, id);
    }
  }

  predicate Builds(threads: map<ThreadId, Pc>, t: ThreadId, id: EntryId) {
    t in threads && threads[t].Built? && threads[t].id == id
  }

  lemma PrivatesAre(threads: map<ThreadId, Pc>, id: EntryId)
    ensures id in Privates(threads) <==> exists t :: Builds(threads, t, id)
  {
    if id in Privates(threads) {
      var t :| t in threads && threads[t].Built? && threads[t].id == id;
      assert Builds(threads, t, id);
    }
  }

  /** A thread that is not building before or after leaves the unfiled graphs as they were. */
  lemma SamePrivates(threads: map<ThreadId, Pc>, t: ThreadId, pc: Pc)
    requires !pc.Built? && (t in threads ==> !threads[t].Built?)
    ensures Privates(threads[t := pc]) == Privates(threads)
  {
    forall i: EntryId ensures i in Privates(threads[t := pc]) <==> i in Privates(threads) {
      PrivatesAre(threads, i);
      PrivatesAre(threads[t := pc], i);
      forall u ensures Builds(threads[t := pc], u, i) <==> Builds(threads, u, i) { }
    }
  }

  lemma MorePrivates(threads: map<ThreadId, Pc>, t: ThreadId, pc: Pc)
    requires pc.Built? && (t in threads ==> !threads[t].Built?)
    ensures Privates(threads[t := pc]) == Privates(threads) + {pc.id}
  {
    forall i: EntryId ensures i in Privates(threads[t := pc]) <==> i in Privates(threads) + {pc.id} {
      PrivatesAre(threads, i);
      PrivatesAre(threads[t := pc], i);
      forall u ensures Builds(threads[t := pc], u, i) <==> Builds(threads, u, i) || (u == t && i == pc.id) { }
      assert Builds(threads[t := pc], t, pc.id);
    }
  }

  lemma FewerPrivates(threads: map<ThreadId, Pc>, t: ThreadId, pc: Pc)
    requires !pc.Built? && t in threads && threads[t].Built?
    requires forall u :: Builds(threads, u, threads[t].id) ==> u == t
    ensures Privates(threads[t := pc]) == Privates(threads) - {threads[t].id}
  {
    forall i: EntryId ensures i in Privates(threads[t := pc]) <==> i in Privates(threads) - {threads[t].id} {
      PrivatesAre(threads, i);
      PrivatesAre(threads[t := pc], i);
      forall u ensures Builds(threads[t := pc], u, i) <==> Builds(threads, u, i) && u != t { }
      if i in Privates(threads[t := pc]) {
        var u :| Builds(threads[t := pc], u, i);
        assert Builds(threads, u, i);
      }
      if i in Privates(threads) - {threads[t].id} {
        var u :| Builds(threads, u, i);
        assert Builds(threads[t := pc], u, i);
      }
    }
  }

  // ---------- What other threads may count on ----------

  /** How a section run under the build lock of `own` may change the cache for everybody else. */
  ghost predicate Evolves(c: Cache, d: Cache, own: Option<Key>) {
    && c.closed <= d.closed
    && (forall id :: id in c.entries ==>
          id in d.entries && d.entries[id].key == c.entries[id].key && d.entries[id].identity == c.entries[id].identity)
    && (forall k :: k in d.at && Some(k) != own ==> k in c.at && d.at[k] == c.at[k])
    && (forall k :: k in c.at && k !in d.at && Some(k) != own ==> c.at[k] in d.closed)
  }

  lemma OtherThreadOk(c: Cache, d: Cache, own: Option<Key>, pc: Pc)
    requires Evolves(c, d, own) && ThreadOk(c, pc) && (own.Some? ==> LockOf(pc) != own)
    ensures ThreadOk(d, pc)
  {
  }

  lemma OthersOk(s: State, d: Cache, t: ThreadId, pc: Pc, own: Option<Key>)
    requires Evolves(s.cache, d, own) && Mutex(s.threads) && AllThreadsOk(s.cache, s.threads) && ThreadOk(d, pc)
    requires own.Some? ==> t in s.threads && LockOf(s.threads[t]) == own
    ensures AllThreadsOk(d, s.threads[t := pc])
  {
    forall u | u in s.threads && u != t ensures ThreadOk(d, s.threads[u]) {
      OtherThreadOk(s.cache, d, own, s.threads[u]);
    }
  }

  lemma EvictsEvolve(c: Cache, d: Cache)
    requires OnlyEvicts(c, d)
    ensures Evolves(c, d, None)
  {
  }

  lemma EvolvesThen(c: Cache, m: Cache, d: Cache, own: Option<Key>)
    requires Evolves(c, m, own) && Evolves(m, d, None)
    ensures Evolves(c, d, own)
  {
  }

  // ---------- Build locks ----------

  /** Whoever is about to acquire a lock finds nobody building under the key it was looked up for. */
  lemma NobodyBuilds(s: State, t: ThreadId)
    requires LocksInv(s) && PcOf(s, t).Waiting? && t in s.mine && s.mine[t] !in s.held
    ensures forall u :: u in s.threads ==> LockOf(s.threads[u]) != Some(PcOf(s, t).key)
  {
    assert LockOk(s, t);
    forall u | u in s.threads ensures LockOf(s.threads[u]) != Some(PcOf(s, t).key) {
      assert LockOk(s, u);
    }
  }

  /** A step of `t` alone leaves every other thread's locks as they were. */
  lemma OthersLocks(s: State, s': State, t: ThreadId)
    requires LocksInv(s) && LockOk(s', t)
    requires s'.threads == s.threads[t := PcOf(s', t)]
    requires forall k :: k in s.locks ==> k in s'.locks && s'.locks[k] == s.locks[k]
    requires forall u :: u in s.mine && u != t ==> u in s'.mine && s'.mine[u] == s.mine[u]
    requires forall l :: l in s.held && s.held[l] != t ==> l in s'.held && s'.held[l] == s.held[l]
    ensures forall u :: u in s'.threads ==> LockOk(s', u)
  {
    forall u | u in s'.threads ensures LockOk(s', u) {
      if u != t { assert LockOk(s, u); }
    }
  }

  lemma LookUpLocks(s: State, s': State, t: ThreadId, key: Key, lock: LockId)
    requires LocksInv(s) && LookUp(s, s', t, key, lock)
    ensures LocksInv(s')
  {
    OthersLocks(s, s', t);
    if key !in s.locks {
      assert forall k :: k in s.locks ==> s.locks[k] in s.locks.Values;
    }
    forall l | l in s'.held ensures l in s'.locks.Values {
      var k :| k in s.locks && s.locks[k] == l;
      assert k != key || key in s.locks;
      assert k in s'.locks && s'.locks[k] == l;
    }
  }

  lemma AcquireLocks(s: State, s': State, t: ThreadId)
    requires LocksInv(s) && Acquire(s, s', t)
    ensures LocksInv(s')
  {
    assert LockOk(s, t);
    OthersLocks(s, s', t);
  }

  lemma FreeLocks(s: State, s': State, t: ThreadId, pc: Pc)
    requires LocksInv(s) && Frees(s, s', t, pc) && LockOf(PcOf(s, t)).Some? && Looks(pc) == None
    ensures LocksInv(s')
  {
    assert LockOk(s, t);
    OthersLocks(s, s', t);
  }

  lemma MoveLocks(s: State, s': State, t: ThreadId, c: Cache, pc: Pc)
    requires LocksInv(s) && Moves(s, s', t, c, pc)
    requires Looks(pc) == Looks(PcOf(s, t)) && LockOf(pc) == LockOf(PcOf(s, t))
    ensures LocksInv(s')
  {
    if t in s.threads { assert LockOk(s, t); }
    OthersLocks(s, s', t);
  }

  // ---------- Each step keeps the invariant ----------

  lemma NobodyHolds(s: State, maxEntries: int, id: EntryId)
    requires CoreInv(s, maxEntries) && id !in s.cache.entries
    ensures HoldersOf(s.threads, id) == {}
  {
    forall t | t in s.threads ensures Held(s.threads[t]) != Some(id) {
      assert ThreadOk(s.cache, s.threads[t]);
    }
  }

  /** Steps that only move the thread's own counter. */
  lemma LocalStepKeeps(s: State, s': State, t: ThreadId, pc: Pc, maxEntries: int)
    requires CoreInv(s, maxEntries) && Goes(s, s', t, s.cache, pc)
    requires !PcOf(s, t).Built? && !pc.Built? && Held(pc) == Held(PcOf(s, t)) && ThreadOk(s.cache, pc)
    requires LockOf(pc).Some? ==> LockOf(pc) == LockOf(PcOf(s, t)) || forall u :: u in s.threads ==> LockOf(s.threads[u]) != LockOf(pc)
    ensures CoreInv(s', maxEntries)
  {
    SameHolders(s.threads, t, pc);
    SamePrivates(s.threads, t, pc);
  }

  lemma PromoteCounts(c: Cache, threads: map<ThreadId, Pc>, t: ThreadId, key: Key, identity: string)
    requires Counted(c, threads) && Resolves(c) && Reusable(c, key, identity)
    requires t in threads ==> Held(threads[t]) == None
    ensures Counted(Promote(c, key, identity), threads[t := Promoted(key, identity, c.at[key])])
  {
    var id := c.at[key];
    var pc := Promoted(key, identity, id);
    var d := Promote(c, key, identity);
    forall i | i in d.entries ensures d.entries[i].refcount == |HoldersOf(threads[t := pc], i)| {
      HoldersMove(threads, t, pc, i);
      assert t !in HoldersOf(threads, i);
    }
  }

  lemma PromoteEvolves(c: Cache, key: Key, identity: string, maxEntries: int)
    requires Dictionary(c) && Reusable(c, key, identity) && Bounded(c, maxEntries)
    requires forall id :: id in c.entries ==> c.entries[id].refcount >= 0
    requires Resolves(Promote(c, key, identity))
    ensures Evolves(c, Promote(c, key, identity), None) && Bounded(Promote(c, key, identity), maxEntries)
  {
    WithoutElements(c.order, key);
  }

  lemma PromoteStepKeeps(s: State, s': State, t: ThreadId, maxEntries: int)
    requires CoreInv(s, maxEntries) && CheckAndPromote(s, s', t) && Reusable(s.cache, PcOf(s, t).key, PcOf(s, t).identity)
    ensures CoreInv(s', maxEntries)
  {
    var pc := PcOf(s, t);
    PromoteKeeps(s.cache, Privates(s.threads), pc.key, pc.identity);
    PromoteEvolves(s.cache, pc.key, pc.identity, maxEntries);
    PromoteCounts(s.cache, s.threads, t, pc.key, pc.identity);
    SamePrivates(s.threads, t, s'.threads[t]);
    OthersOk(s, s'.cache, t, s'.threads[t], None);
    SameLocks(s.threads, t, s'.threads[t]);
  }

  /** A thread that takes no build lock it did not have keeps builds exclusive. */
  lemma SameLocks(threads: map<ThreadId, Pc>, t: ThreadId, pc: Pc)
    requires Mutex(threads) && t in threads && (LockOf(pc) == None || LockOf(pc) == LockOf(threads[t]))
    ensures Mutex(threads[t := pc])
  {
  }

  lemma BuildStepKeeps(s: State, s': State, t: ThreadId, id: EntryId, maxEntries: int)
    requires CoreInv(s, maxEntries) && Build(s, s', t, id)
    ensures CoreInv(s', maxEntries)
  {
    var pc := PcOf(s, t);
    var d := s'.cache;
    OpenKeeps(s.cache, Privates(s.threads), id, pc.key, pc.identity);
    MorePrivates(s.threads, t, s'.threads[t]);
    OthersOk(s, d, t, s'.threads[t], None);
    BuildCounts(s, maxEntries, t, id, s'.threads[t], pc.key, pc.identity);
    SameLocks(s.threads, t, s'.threads[t]);
  }

  /** The new graph is counted for its builder, and no other count changes. */
  lemma BuildCounts(s: State, maxEntries: int, t: ThreadId, id: EntryId, pc: Pc, key: Key, identity: string)
    requires CoreInv(s, maxEntries) && id !in s.cache.entries
    requires Held(PcOf(s, t)) == None && Held(pc) == Some(id)
    ensures Counted(Open(s.cache, id, key, identity), s.threads[t := pc])
  {
    var d := Open(s.cache, id, key, identity);
    NobodyHolds(s, maxEntries, id);
    forall i | i in d.entries ensures d.entries[i].refcount == |HoldersOf(s.threads[t := pc], i)| {
      HoldersMove(s.threads, t, pc, i);
      assert t !in HoldersOf(s.threads, i);
    }
  }

  /** A graph still being built has exactly one holder, its builder. */
  lemma SoleHolder(s: State, maxEntries: int, t: ThreadId)
    requires CoreInv(s, maxEntries) && t in s.threads && s.threads[t].Built?
    ensures HoldersOf(s.threads, s.threads[t].id) == {t}
  {
    var id := s.threads[t].id;
    PrivatesAre(s.threads, id);
    assert Builds(s.threads, t, id);
    var holders := HoldersOf(s.threads, id);
    assert t in holders && |holders| == 1;
    if u :| u in holders && u != t {
      assert {t, u} <= holders;
      SubsetSize({t, u}, holders);
    }
  }

  lemma SubsetSize<T>(a: set<T>, b: set<T>)
    requires a <= b
    ensures |a| <= |b|
  {
    assert b == a + (b - a);
  }

  lemma SupersedeEvolves(c: Cache, existing: Option<EntryId>)
    requires existing.Some? ==> existing.value in c.entries
    ensures Evolves(c, Supersede(c, existing), None)
    ensures forall i :: i in c.entries ==> Supersede(c, existing).entries[i].refcount == c.entries[i].refcount
  {
  }

  lemma TouchEvolves(c: Cache, key: Key, id: EntryId)
    requires id in c.entries
    ensures Evolves(c, Touch(c, key, id), Some(key))
    ensures forall i :: i in c.entries ==> Touch(c, key, id).entries[i].refcount == c.entries[i].refcount
  {
  }

  lemma EvolvesAfter(c: Cache, m: Cache, d: Cache, own: Option<Key>)
    requires Evolves(c, m, None) && Evolves(m, d, own)
    ensures Evolves(c, d, own)
  {
  }

  lemma FilingEvolves(c: Cache, key: Key, id: EntryId, existing: Option<EntryId>)
    requires id in c.entries && (existing.Some? ==> existing.value in c.entries)
    ensures Evolves(c, Filing(c, key, id, existing), Some(key))
    ensures forall i :: i in c.entries ==> Filing(c, key, id, existing).entries[i].refcount == c.entries[i].refcount
  {
    var m := Supersede(c, existing);
    SupersedeEvolves(c, existing);
    TouchEvolves(m, key, id);
    EvolvesAfter(c, m, Touch(m, key, id), Some(key));
  }

  lemma FileStepKeeps(s: State, s': State, t: ThreadId, maxEntries: int)
    requires CoreInv(s, maxEntries) && File(s, s', t, maxEntries)
    ensures CoreInv(s', maxEntries) && s.cache.closed <= s'.cache.closed
  {
    var pc := PcOf(s, t);
    var c, d := s.cache, s'.cache;
    assert ThreadOk(c, pc);
    PrivatesAre(s.threads, pc.id);
    assert Builds(s.threads, t, pc.id);
    InstallKeeps(c, Privates(s.threads), pc.key, pc.id, pc.existing, maxEntries);
    FilePrivates(s, t, maxEntries, s'.threads[t]);
    FileEvolves(c, pc.key, pc.id, pc.existing, d);
    OthersOk(s, d, t, s'.threads[t], Some(pc.key));
    SameHolders(s.threads, t, s'.threads[t]);
    SameLocks(s.threads, t, s'.threads[t]);
  }

  lemma FilePrivates(s: State, t: ThreadId, maxEntries: int, pc: Pc)
    requires CoreInv(s, maxEntries) && t in s.threads && s.threads[t].Built? && !pc.Built?
    ensures Privates(s.threads[t := pc]) == Privates(s.threads) - {s.threads[t].id}
  {
    SoleHolder(s, maxEntries, t);
    assert forall u :: Builds(s.threads, u, s.threads[t].id) ==> u in HoldersOf(s.threads, s.threads[t].id);
    FewerPrivates(s.threads, t, pc);
  }

  lemma FileEvolves(c: Cache, key: Key, id: EntryId, existing: Option<EntryId>, d: Cache)
    requires id in c.entries && (existing.Some? ==> existing.value in c.entries)
    requires OnlyEvicts(Filing(c, key, id, existing), d)
    ensures Evolves(c, d, Some(key))
    ensures d.entries.Keys == c.entries.Keys && forall i :: i in c.entries ==> d.entries[i].refcount == c.entries[i].refcount
  {
    FilingEvolves(c, key, id, existing);
    EvictsEvolve(Filing(c, key, id, existing), d);
    EvolvesThen(c, Filing(c, key, id, existing), d, Some(key));
  }

  lemma ReturnCounts(c: Cache, threads: map<ThreadId, Pc>, t: ThreadId, id: EntryId, d: Cache)
    requires Counted(c, threads) && id in c.entries && d.entries == AddRef(c, id, -1).entries
    requires t in threads && Held(threads[t]) == Some(id)
    ensures Counted(d, threads[t := Idle])
  {
    forall i | i in d.entries ensures d.entries[i].refcount == |HoldersOf(threads[t := Idle], i)| {
      HoldersMove(threads, t, Idle, i);
      assert t in HoldersOf(threads, id);
      assert i != id ==> t !in HoldersOf(threads, i);
    }
  }

  lemma ReturnEvolves(c: Cache, id: EntryId, d: Cache)
    requires id in c.entries
    requires OnlyEvicts(AddRef(c, id, -1), d) || d == AddRef(c, id, -1).(closed := c.closed + {id})
    ensures Evolves(c, d, None) && d.entries == AddRef(c, id, -1).entries
  {
    var less := AddRef(c, id, -1);
    assert Evolves(c, less, None);
    if OnlyEvicts(less, d) {
      EvictsEvolve(less, d);
      EvolvesThen(c, less, d, None);
    }
  }

  lemma ReturnStepKeeps(s: State, s': State, t: ThreadId, maxEntries: int)
    requires CoreInv(s, maxEntries) && Return(s, s', t, maxEntries)
    ensures CoreInv(s', maxEntries) && s.cache.closed <= s'.cache.closed
  {
    var id := PcOf(s, t).id;
    NotPrivate(s, maxEntries, t);
    ReleaseKeeps(s.cache, Privates(s.threads), id, maxEntries);
    SamePrivates(s.threads, t, Idle);
    ReturnEvolves(s.cache, id, s'.cache);
    OthersOk(s, s'.cache, t, Idle, None);
    ReturnCounts(s.cache, s.threads, t, id, s'.cache);
    SameLocks(s.threads, t, Idle);
  }

  /** What a thread is using is no longer anybody's private build. */
  lemma NotPrivate(s: State, maxEntries: int, t: ThreadId)
    requires CoreInv(s, maxEntries) && t in s.threads && s.threads[t].Using?
    ensures s.threads[t].id !in Privates(s.threads)
    ensures s.threads[t].id in s.cache.entries && s.cache.entries[s.threads[t].id].refcount > 0
  {
    var id := s.threads[t].id;
    assert ThreadOk(s.cache, s.threads[t]);
    assert t in HoldersOf(s.threads, id);
    PrivatesAre(s.threads, id);
    if u :| Builds(s.threads, u, id) {
      SoleHolder(s, maxEntries, u);
    }
  }

  /** The steps that touch a build lock change nothing else but the thread's own place. */
  lemma LockStepKeeps(s: State, s': State, t: ThreadId, maxEntries: int)
    requires Inv(s, maxEntries)
    requires (exists key, lock :: LookUp(s, s', t, key, lock)) || Acquire(s, s', t) || Fail(s, s', t) || Unlock(s, s', t)
    ensures Inv(s', maxEntries) && s'.cache == s.cache
  {
    var pc, pc' := PcOf(s, t), PcOf(s', t);
    if t in s.threads { assert ThreadOk(s.cache, pc); }
    if key, lock :| LookUp(s, s', t, key, lock) {
      LookUpLocks(s, s', t, key, lock);
      LocalStepKeeps(s, s', t, Waiting(key), maxEntries);
    } else if Acquire(s, s', t) {
      NobodyBuilds(s, t);
      AcquireLocks(s, s', t);
      LocalStepKeeps(s, s', t, pc', maxEntries);
    } else {
      FreeLocks(s, s', t, pc');
      LocalStepKeeps(s, s', t, pc', maxEntries);
    }
  }

  lemma CacheStepKeeps(s: State, s': State, t: ThreadId, maxEntries: int)
    requires CoreInv(s, maxEntries) && !Fail(s, s', t) && !Unlock(s, s', t) && !Acquire(s, s', t)
    requires StepOf(s, s', t, maxEntries) && !exists key, lock :: LookUp(s, s', t, key, lock)
    ensures CoreInv(s', maxEntries) && s.cache.closed <= s'.cache.closed
  {
    var pc := PcOf(s, t);
    assert ThreadOk(s.cache, pc);
    if identity :| ReadIdentity(s, s', t, identity) {
      LocalStepKeeps(s, s', t, Read(pc.key, identity), maxEntries);
    } else if CheckAndPromote(s, s', t) {
      if Reusable(s.cache, pc.key, pc.identity) {
        PromoteStepKeeps(s, s', t, maxEntries);
      } else {
        LocalStepKeeps(s, s', t, s'.threads[t], maxEntries);
      }
    } else if id: EntryId :| Build(s, s', t, id) {
      BuildStepKeeps(s, s', t, id, maxEntries);
    } else if File(s, s', t, maxEntries) {
      FileStepKeeps(s, s', t, maxEntries);
    } else {
      ReturnStepKeeps(s, s', t, maxEntries);
    }
  }

  lemma CacheStepLocks(s: State, s': State, t: ThreadId, maxEntries: int)
    requires LocksInv(s) && !Fail(s, s', t) && !Unlock(s, s', t) && !Acquire(s, s', t)
    requires StepOf(s, s', t, maxEntries) && !exists key, lock :: LookUp(s, s', t, key, lock)
    ensures LocksInv(s')
  {
    MoveLocks(s, s', t, s'.cache, PcOf(s', t));
  }

  lemma StepKeeps(s: State, s': State, maxEntries: int)
    requires Inv(s, maxEntries) && Step(s, s', maxEntries)
    ensures Inv(s', maxEntries) && s.cache.closed <= s'.cache.closed
  {
    var t: ThreadId :| StepOf(s, s', t, maxEntries);
    if (exists key, lock :: LookUp(s, s', t, key, lock)) || Acquire(s, s', t) || Fail(s, s', t) || Unlock(s, s', t) {
      LockStepKeeps(s, s', t, maxEntries);
    } else {
      CacheStepKeeps(s, s', t, maxEntries);
      CacheStepLocks(s, s', t, maxEntries);
    }
  }

  lemma {:induction false} RunKeeps(run: seq<State>, maxEntries: int, i: nat)
    requires IsRun(run, maxEntries) && i < |run|
    ensures Inv(run[i], maxEntries)
    decreases i
  {
    if i > 0 {
      RunKeeps(run, maxEntries, i - 1);
      assert Step(run[i - 1], run[i - 1 + 1], maxEntries);
      StepKeeps(run[i - 1], run[i], maxEntries);
    }
  }

  // ---------- What every run shows ----------

  /** In every interleaving no graph is closed while a thread holds it, and what a thread was handed
      was opened for the key it asked for and carries the identity read in that same checkout. */
  lemma NeverClosedWhileHeld(run: seq<State>, maxEntries: int, i: nat, t: ThreadId)
    requires IsRun(run, maxEntries) && i < |run|
    ensures var pc := PcOf(run[i], t);
      Held(pc).Some? ==>
        && Held(pc).value !in run[i].cache.closed
        && EntryIs(run[i].cache, Held(pc).value, pc.key, pc.identity)
  {
    RunKeeps(run, maxEntries, i);
    var s := run[i];
    var pc := PcOf(s, t);
    if Held(pc).Some? {
      assert ThreadOk(s.cache, pc);
      assert t in HoldersOf(s.threads, Held(pc).value);
    }
  }

  /** Every graph ever opened is filed and open, or retired and still held, or closed, or still
      private to the one thread building it. */
  lemma NothingLeaks(run: seq<State>, maxEntries: int, i: nat, id: EntryId)
    requires IsRun(run, maxEntries) && i < |run| && id in run[i].cache.entries
    ensures var c := run[i].cache;
      || id in c.closed
      || InMap(c, id)
      || (c.entries[id].stale && exists t :: t in run[i].threads && Held(run[i].threads[t]) == Some(id))
      || (exists t :: Builds(run[i].threads, t, id))
  {
    RunKeeps(run, maxEntries, i);
    var s := run[i];
    PrivatesAre(s.threads, id);
    if s.cache.entries[id].refcount > 0 {
      var holders := HoldersOf(s.threads, id);
      assert holders != {};
      var t :| t in holders;
    }
  }

  /** The map holds at most `maxEntries` graphs, or every graph in it is in use; so whenever no
      checkout is under way the bound holds and every graph not in the map is closed. */
  lemma SettlesWithinBound(run: seq<State>, maxEntries: int, i: nat)
    requires IsRun(run, maxEntries) && i < |run|
    ensures Resolves(run[i].cache) && Bounded(run[i].cache, maxEntries)
    ensures (forall t :: PcOf(run[i], t) == Idle) ==>
      && |run[i].cache.order| <= (if maxEntries < 0 then 0 else maxEntries)
      && forall id :: id in run[i].cache.entries ==> id in run[i].cache.closed || InMap(run[i].cache, id)
  {
    RunKeeps(run, maxEntries, i);
    var s := run[i];
    if forall t :: PcOf(s, t) == Idle {
      forall id | id in s.cache.entries
        ensures s.cache.entries[id].refcount == 0 && (id in s.cache.closed || InMap(s.cache, id))
      {
        assert forall t :: t in s.threads ==> PcOf(s, t) == Idle;
        assert HoldersOf(s.threads, id) == {};
        NothingLeaks(run, maxEntries, i, id);
      }
      if s.cache.order != [] {
        assert s.cache.order[0] in s.cache.order;
      }
    }
  }

  /** A key's build lock, once created, is its lock for ever, and no other key's. */
  lemma {:induction false} LockForEver(run: seq<State>, maxEntries: int, i: nat, j: nat, key: Key)
    requires IsRun(run, maxEntries) && i <= j < |run| && key in run[i].locks
    ensures key in run[j].locks && run[j].locks[key] == run[i].locks[key]
    ensures forall m :: m in run[j].locks && m != key ==> run[j].locks[m] != run[i].locks[key]
    decreases j - i
  {
    RunKeeps(run, maxEntries, j);
    if i < j {
      LockForEver(run, maxEntries, i, j - 1, key);
      assert Step(run[j - 1], run[j - 1 + 1], maxEntries);
      LocksStay(run[j - 1], run[j], maxEntries);
    }
  }

  lemma LocksStay(s: State, s': State, maxEntries: int)
    requires Step(s, s', maxEntries)
    ensures forall k :: k in s.locks ==> k in s'.locks && s'.locks[k] == s.locks[k]
  {
    var t: ThreadId :| StepOf(s, s', t, maxEntries);
    if key, lock :| LookUp(s, s', t, key, lock) { }
  }

  /** At most one thread builds under a key: the others that want to refer to the very lock it has
      acquired. What is in the map is never stale or closed. */
  lemma OneBuildPerKey(run: seq<State>, maxEntries: int, i: nat, t: ThreadId, u: ThreadId)
    requires IsRun(run, maxEntries) && i < |run| && t != u && LockOf(PcOf(run[i], t)).Some?
    ensures LockOf(PcOf(run[i], t)) != LockOf(PcOf(run[i], u))
    ensures Looks(PcOf(run[i], u)) == Looks(PcOf(run[i], t)) ==>
      PcOf(run[i], u).Waiting? && u in run[i].mine && run[i].mine[u] in run[i].held && run[i].held[run[i].mine[u]] == t
    ensures Resolves(run[i].cache) && MapCurrent(run[i].cache)
  {
    RunKeeps(run, maxEntries, i);
    assert LockOk(run[i], t);
    if u in run[i].threads { assert LockOk(run[i], u); }
  }

  lemma StepKeepsClosed(run: seq<State>, maxEntries: int, j: nat)
    requires IsRun(run, maxEntries) && 0 < j < |run|
    ensures run[j - 1].cache.closed <= run[j].cache.closed
  {
    RunKeeps(run, maxEntries, j - 1);
    assert Step(run[j - 1], run[j - 1 + 1], maxEntries);
    StepKeeps(run[j - 1], run[j], maxEntries);
  }

  /** A closed graph stays closed and is never handed out again. */
  lemma {:induction false} ClosedForGood(run: seq<State>, maxEntries: int, i: nat, j: nat, id: EntryId, t: ThreadId)
    requires IsRun(run, maxEntries) && i <= j < |run| && id in run[i].cache.closed
    ensures id in run[j].cache.closed && Held(PcOf(run[j], t)) != Some(id)
    decreases j - i
  {
    if i < j {
      ClosedForGood(run, maxEntries, i, j - 1, id, t);
      StepKeepsClosed(run, maxEntries, j);
    }
    NeverClosedWhileHeld(run, maxEntries, j, t);
  }
}
