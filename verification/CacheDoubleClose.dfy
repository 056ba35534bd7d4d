/** When the cache closes one graph twice: its entry is evicted while a replacement is being built. */
module CacheDoubleClose {
  import opened Text
  import opened GraphCache
  import opened CacheProtocol

  /** `t` is building a replacement for `e`, or about to file one. */
  predicate Replaces(s: State, t: ThreadId, e: EntryId) {
    match PcOf(s, t)
    case Missed(_, _, existing) => existing == Some(e)
    case Built(_, _, existing, _) => existing == Some(e)
    case _ => false
  }

  /** In every run, the entry being replaced is closed already exactly when its key is filed no more;
      it is then held by nobody, and superseding it closes nothing new. */
  lemma ReplacedIsClosedIffEvicted(run: seq<State>, maxEntries: int, i: nat, t: ThreadId, e: EntryId)
    requires IsRun(run, maxEntries) && i < |run| && Replaces(run[i], t, e)
    ensures var c := run[i].cache;
      && e in c.entries
      && (e in c.closed <==> PcOf(run[i], t).key !in c.at)
      && (e in c.closed ==> c.entries[e].refcount == 0 && Supersede(c, Some(e)).closed == c.closed)
  {
    RunKeeps(run, maxEntries, i);
    var c := run[i].cache;
    assert ThreadOk(c, PcOf(run[i], t));
    if e in c.closed { assert c.closed + {e} == c.closed; }
  }

  /** This step of `u` closes `e`. */
  ghost predicate Closes(s: State, s': State, u: ThreadId, e: EntryId, maxEntries: int) {
    e !in s.cache.closed && e in s'.cache.closed && (File(s, s', u, maxEntries) || Return(s, s', u, maxEntries))
  }

  lemma CloserOf(s: State, s': State, e: EntryId, maxEntries: int) returns (u: ThreadId)
    requires Step(s, s', maxEntries) && e !in s.cache.closed && e in s'.cache.closed
    ensures Closes(s, s', u, e, maxEntries)
  {
    u :| StepOf(s, s', u, maxEntries);
  }

  lemma RunStep(run: seq<State>, maxEntries: int, k: nat)
    requires IsRun(run, maxEntries) && k + 1 < |run|
    ensures Step(run[k], run[k + 1], maxEntries)
  {
  }

  /** The step before `j` at which `e` went from open to closed. */
  lemma {:induction false} Turned(run: seq<State>, i: nat, j: nat, e: EntryId) returns (k: nat)
    requires i <= j < |run| && e !in run[i].cache.closed && e in run[j].cache.closed
    ensures i <= k < j && e !in run[k].cache.closed && e in run[k + 1].cache.closed
    decreases j
  {
    if e in run[j - 1].cache.closed { k := Turned(run, i, j - 1, e); } else { k := j - 1; }
  }

  /** An entry open when its replacement began and closed before it is filed was closed by another
      thread, which was filing a graph under another key or returning one. */
  lemma ClosedByAnother(run: seq<State>, maxEntries: int, i: nat, j: nat, t: ThreadId, e: EntryId)
    returns (k: nat, u: ThreadId)
    requires IsRun(run, maxEntries) && i <= j < |run|
    requires forall m :: i <= m <= j ==> Replaces(run[m], t, e)
    requires e !in run[i].cache.closed && e in run[j].cache.closed
    ensures i <= k < j && u != t && Closes(run[k], run[k + 1], u, e, maxEntries)
    ensures File(run[k], run[k + 1], u, maxEntries) ==> LockOf(PcOf(run[k], u)) != LockOf(PcOf(run[k], t))
  {
    k := Turned(run, i, j, e);
    RunStep(run, maxEntries, k);
    u := CloserOf(run[k], run[k + 1], e, maxEntries);
    assert Replaces(run[k], t, e) && Replaces(run[k + 1], t, e);
    NotTheBuilder(run[k], run[k + 1], t, u, e, maxEntries);
    RunKeeps(run, maxEntries, k);
  }

  lemma NotTheBuilder(s: State, s': State, t: ThreadId, u: ThreadId, e: EntryId, maxEntries: int)
    requires Replaces(s, t, e) && Replaces(s', t, e) && (File(s, s', u, maxEntries) || Return(s, s', u, maxEntries))
    ensures u != t
  {
  }

  // ---------- A run that closes a graph twice ----------

  const A := Key("r", true)
  const B := Key("s", true)
  const A1 := Entry(A, "v1", 1, false, 0)
  const B1 := Entry(B, "w", 1, false, 1)
  const A2 := Entry(A, "v2", 1, false, 2)
  const OPENING := Empty.(entries := map[0 := A1])
  const ONE := Cache([A], map[A := 0], map[0 := A1], {}, 1)
  const JOINING := ONE.(entries := map[0 := A1, 1 := B1])
  const TWO := Cache([A, B], map[A := 0, B := 1], map[0 := A1, 1 := B1], {}, 2)
  const GONE := Cache([B], map[B := 1], map[0 := A1.(refcount := 0), 1 := B1], {0}, 2)
  const AGAIN := GONE.(entries := map[0 := A1.(refcount := 0), 1 := B1, 2 := A2])
  const LAST :=
    Cache([B, A], map[B := 1, A := 2], map[0 := A1.(refcount := 0, stale := true), 1 := B1, 2 := A2], {0}, 3)

  /** Only the first thread is there. */
  function First(c: Cache, pc: Pc, held: map<LockId, ThreadId>): State {
    State(c, map[1 := pc], map[A := 0], map[1 := 0], held)
  }

  /** The first thread uses its graph while a second comes for the other key. */
  function Second(c: Cache, pc: Pc, held: map<LockId, ThreadId>): State {
    State(c, map[1 := Using(A, "v1", 0), 2 := pc], map[A := 0, B := 1], map[1 := 0, 2 := 1], held)
  }

  /** The second uses its own while a third comes for the first key. */
  function Third(c: Cache, one: Pc, pc: Pc, held: map<LockId, ThreadId>): State {
    State(c, map[1 := one, 2 := Using(B, "w", 1), 3 := pc], map[A := 0, B := 1], map[1 := 0, 2 := 1, 3 := 0], held)
  }

  /** One graph may be cached. The first thread opens one and uses it; so does the second, for another key,
      and two graphs are pinned over the bound. The third finds the first graph out of date; the first
      thread returns it, which evicts and closes it; the third files its own and closes it again. */
  const S0 := Start
  const S1 := First(Empty, Waiting(A), map[])
  const S2 := First(Empty, Locked(A), map[0 := 1])
  const S3 := First(Empty, Read(A, "v1"), map[0 := 1])
  const S4 := First(Empty, Missed(A, "v1", None), map[0 := 1])
  const S5 := First(OPENING, Built(A, "v1", None, 0), map[0 := 1])
  const S6 := First(ONE, Promoted(A, "v1", 0), map[0 := 1])
  const S7 := First(ONE, Using(A, "v1", 0), map[])
  const S8 := Second(ONE, Waiting(B), map[])
  const S9 := Second(ONE, Locked(B), map[1 := 2])
  const S10 := Second(ONE, Read(B, "w"), map[1 := 2])
  const S11 := Second(ONE, Missed(B, "w", None), map[1 := 2])
  const S12 := Second(JOINING, Built(B, "w", None, 1), map[1 := 2])
  const S13 := Second(TWO, Promoted(B, "w", 1), map[1 := 2])
  const S14 := Second(TWO, Using(B, "w", 1), map[])
  const S15 := Third(TWO, Using(A, "v1", 0), Waiting(A), map[])
  const S16 := Third(TWO, Using(A, "v1", 0), Locked(A), map[0 := 3])
  const S17 := Third(TWO, Using(A, "v1", 0), Read(A, "v2"), map[0 := 3])
  const S18 := Third(TWO, Using(A, "v1", 0), Missed(A, "v2", Some(0)), map[0 := 3])
  const S19 := Third(GONE, Idle, Missed(A, "v2", Some(0)), map[0 := 3])
  const S20 := Third(AGAIN, Idle, Built(A, "v2", Some(0), 2), map[0 := 3])
  const S21 := Third(LAST, Idle, Promoted(A, "v2", 2), map[0 := 3])

  const USE := [S1, S2, S3, S4, S5, S6, S7]
  const PIN := [S8, S9, S10, S11, S12, S13, S14]
  const END := [S15, S16, S17, S18, S19, S20, S21]
  const TWICE := [S0] + USE + PIN + END

  lemma Opening()
    ensures Step(S0, S1, 1) && Step(S1, S2, 1) && Step(S2, S3, 1)
  {
    assert LookUp(S0, S1, 1, A, 0) && StepOf(S0, S1, 1, 1);
    assert Acquire(S1, S2, 1) && StepOf(S1, S2, 1, 1);
    assert ReadIdentity(S2, S3, 1, "v1") && StepOf(S2, S3, 1, 1);
  }

  lemma Building()
    ensures Step(S3, S4, 1) && Step(S4, S5, 1)
  {
    assert CheckAndPromote(S3, S4, 1) && StepOf(S3, S4, 1, 1);
    assert Build(S4, S5, 1, 0) && StepOf(S4, S5, 1, 1);
  }

  lemma InstallsFirst()
    ensures Resolves(OPENING) && Install(OPENING, A, 0, None, 1) == ONE
  {
    assert Touch(Supersede(OPENING, None), A, 0) == ONE;
  }

  lemma FilingFirst()
    ensures Step(S5, S6, 1) && Step(S6, S7, 1)
  {
    InstallsFirst();
    assert File(S5, S6, 1, 1) && StepOf(S5, S6, 1, 1);
    assert Unlock(S6, S7, 1) && StepOf(S6, S7, 1, 1);
  }

  lemma OtherKey()
    ensures A != B
  {
    assert "r"[0] != "s"[0];
  }

  lemma WithoutOther(k: Key, other: Key)
    requires k != other
    ensures Without([k], other) == [k] && Without([k, other], k) == [other]
  {
    assert [k][1..] == [] && [other][1..] == [] && [k, other][1..] == [other];
    assert Without([other], k) == [other];
  }

  lemma NoneIdle(c: Cache, k: Key, other: Key)
    requires k in c.at && other in c.at && c.at[k] in c.entries && c.at[other] in c.entries
    requires c.entries[c.at[k]].refcount != 0 && c.entries[c.at[other]].refcount != 0
    ensures FirstIdle(c, [k, other]) == None
  {
    assert [k, other][1..] == [other] && [other][1..] == [];
    assert FirstIdle(c, [other]) == None;
  }

  lemma Joining()
    ensures Step(S7, S8, 1) && Step(S8, S9, 1)
  {
    OtherKey();
    assert LookUp(S7, S8, 2, B, 1) && StepOf(S7, S8, 2, 1);
    assert Acquire(S8, S9, 2) && StepOf(S8, S9, 2, 1);
  }

  lemma JoiningMisses()
    ensures Step(S9, S10, 1) && Step(S10, S11, 1)
  {
    OtherKey();
    assert ReadIdentity(S9, S10, 2, "w") && StepOf(S9, S10, 2, 1);
    assert !Reusable(ONE, B, "w");
    assert CheckAndPromote(S10, S11, 2) && StepOf(S10, S11, 2, 1);
  }

  lemma InstallsOther()
    ensures Resolves(JOINING) && Install(JOINING, B, 1, None, 1) == TWO
  {
    OtherKey();
    WithoutOther(A, B);
    assert Touch(Supersede(JOINING, None), B, 1) == TWO;
    NoneIdle(TWO, A, B);
  }

  lemma JoiningBuilds()
    ensures Step(S11, S12, 1)
  {
    assert Build(S11, S12, 2, 1) && StepOf(S11, S12, 2, 1);
  }

  lemma JoiningFiles()
    ensures Step(S12, S13, 1) && Step(S13, S14, 1)
  {
    InstallsOther();
    assert File(S12, S13, 2, 1) && StepOf(S12, S13, 2, 1);
    assert Unlock(S13, S14, 2) && StepOf(S13, S14, 2, 1);
  }

  lemma Finding()
    ensures Step(S14, S15, 1) && Step(S15, S16, 1)
  {
    assert LookUp(S14, S15, 3, A, 0) && StepOf(S14, S15, 3, 1);
    assert Acquire(S15, S16, 3) && StepOf(S15, S16, 3, 1);
  }

  lemma FindingStale()
    ensures Step(S16, S17, 1) && Step(S17, S18, 1)
  {
    assert ReadIdentity(S16, S17, 3, "v2") && StepOf(S16, S17, 3, 1);
    assert !Reusable(TWO, A, "v2");
    assert CheckAndPromote(S17, S18, 3) && StepOf(S17, S18, 3, 1);
  }

  lemma Releases()
    ensures Resolves(TWO) && Release(TWO, 0, 1) == GONE
  {
    OtherKey();
    var less := AddRef(TWO, 0, -1);
    assert FirstIdle(less, less.order) == Some(A);
    WithoutOther(A, B);
    assert Evict(less, A) == GONE;
    assert EvictExcess(GONE, 1) == GONE;
  }

  lemma Returning()
    ensures Return(S18, S19, 1, 1) && Step(S18, S19, 1)
  {
    Releases();
    assert Return(S18, S19, 1, 1) && StepOf(S18, S19, 1, 1);
  }

  lemma Rebuilding()
    ensures Step(S19, S20, 1)
  {
    assert Build(S19, S20, 3, 2) && StepOf(S19, S20, 3, 1);
  }

  lemma InstallsAgain()
    ensures Resolves(AGAIN) && Install(AGAIN, A, 2, Some(0), 1) == LAST
  {
    OtherKey();
    var marked := Supersede(AGAIN, Some(0));
    assert marked.closed == {0};
    WithoutOther(B, A);
    assert Touch(marked, A, 2) == LAST;
    NoneIdle(LAST, B, A);
  }

  lemma FilingAgain()
    ensures File(S20, S21, 3, 1) && Step(S20, S21, 1)
  {
    InstallsAgain();
    assert File(S20, S21, 3, 1) && StepOf(S20, S21, 3, 1);
  }

  /** `run` is a run that ends in `last`. */
  ghost predicate RunTo(run: seq<State>, last: State) {
    IsRun(run, 1) && run[|run| - 1] == last
  }

  lemma OneStep(run: seq<State>, last: State, next: State)
    requires RunTo(run, last) && Step(last, next, 1)
    ensures RunTo(run + [next], next)
  {
    var more := run + [next];
    forall i | 0 <= i < |more| - 1 ensures Step(more[i], more[i + 1], 1) {
      if i < |run| - 1 { assert Step(run[i], run[i + 1], 1); }
    }
  }

  lemma TwoSteps(run: seq<State>, last: State, a: State, b: State)
    requires RunTo(run, last) && Step(last, a, 1) && Step(a, b, 1)
    ensures RunTo(run + [a, b], b)
  {
    OneStep(run, last, a);
    OneStep(run + [a], a, b);
    assert run + [a] + [b] == run + [a, b];
  }

  lemma SevenSteps(run: seq<State>, z: State, a: State, b: State, c: State, d: State, e: State, f: State, g: State)
    requires RunTo(run, z) && Step(z, a, 1) && Step(a, b, 1) && Step(b, c, 1) && Step(c, d, 1)
    requires Step(d, e, 1) && Step(e, f, 1) && Step(f, g, 1)
    ensures RunTo(run + [a, b, c, d, e, f, g], g)
  {
    TwoSteps(run, z, a, b);
    TwoSteps(run + [a, b], b, c, d);
    TwoSteps(run + [a, b] + [c, d], d, e, f);
    OneStep(run + [a, b] + [c, d] + [e, f], f, g);
    Gathered(run, a, b, c, d, e, f, g);
  }

  lemma Gathered<T>(run: seq<T>, a: T, b: T, c: T, d: T, e: T, f: T, g: T)
    ensures run + [a, b] + [c, d] + [e, f] + [g] == run + [a, b, c, d, e, f, g]
  {
  }

  lemma RunToUse()
    ensures RunTo([S0] + USE, S7)
  {
    Opening();
    Building();
    FilingFirst();
    SevenSteps([S0], S0, S1, S2, S3, S4, S5, S6, S7);
  }

  lemma RunToPin(run: seq<State>)
    requires RunTo(run, S7)
    ensures RunTo(run + PIN, S14)
  {
    Joining();
    JoiningMisses();
    JoiningBuilds();
    JoiningFiles();
    SevenSteps(run, S7, S8, S9, S10, S11, S12, S13, S14);
  }

  lemma RunToEnd(run: seq<State>)
    requires RunTo(run, S14)
    ensures RunTo(run + END, S21)
  {
    Finding();
    FindingStale();
    Returning();
    Rebuilding();
    FilingAgain();
    SevenSteps(run, S14, S15, S16, S17, S18, S19, S20, S21);
  }

  lemma TwiceIsRun()
    ensures IsRun(TWICE, 1)
  {
    RunToUse();
    RunToPin([S0] + USE);
    RunToEnd([S0] + USE + PIN);
  }

  lemma InTwice(k: nat)
    requires k < 7
    ensures |TWICE| == 22 && TWICE[15 + k] == END[k]
  {
    assert |USE| == 7 && |PIN| == 7 && |END| == 7;
  }

  /** With no insertion while the replacement is built: its own last user's return closes the graph, and
      filing the replacement closes it again. */
  lemma ReturnThenFileClosesTwice()
    ensures IsRun(TWICE, 1) && |TWICE| == 22
    ensures Replaces(TWICE[18], 3, 0) && Return(TWICE[18], TWICE[19], 1, 1)
    ensures 0 !in TWICE[18].cache.closed && 0 in TWICE[19].cache.closed
    ensures Replaces(TWICE[20], 3, 0) && File(TWICE[20], TWICE[21], 3, 1)
    ensures 0 in TWICE[20].cache.closed && TWICE[20].cache.entries[0].refcount == 0
  {
    TwiceIsRun();
    Returning();
    FilingAgain();
    InTwice(3);
    InTwice(4);
    InTwice(5);
    InTwice(6);
    ClosesTwice();
  }

  lemma ClosesTwice()
    ensures Replaces(S18, 3, 0) && 0 !in S18.cache.closed && 0 in S19.cache.closed
    ensures Replaces(S20, 3, 0) && 0 in S20.cache.closed && S20.cache.entries[0].refcount == 0
  {
  }
}
