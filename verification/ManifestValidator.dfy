/** The daily-manifest validator for schema 2: one pass over the generations, one over the schedule. */
module ManifestValidator {
  import opened Text
  import opened Json
  import opened JsonEquality
  import opened PythonValues
  import opened ContentHashes
  import opened ArtifactScans
  import opened ConnectionRounds

  /** What the validator reports. */
  datatype Problem =
    | ManifestShape
    | UnexpectedTopKeys
    | BadSchema
    | BadMode
    | BadStamp
    | BadStart
    | GenerationShape
    | GenerationId
    | DuplicateGeneration(id: string)
    | GenerationField(id: string, field: string)
    | VersionMismatch(id: string, field: string)
    | NoGenerations
    | NoSchedule
    | StartDate
    | EntryShape
    | EntryDate
    | DuplicateDate(date: string)
    | Gap(date: string)
    | RoundId(date: string)
    | RoundRepeated(date: string)
    | BadFingerprint(date: string)
    | UnknownGeneration(date: string)
    | NoArtifact(date: string)
    | NotOneHop(date: string)
    | NotInPool(date: string)
    | FingerprintMismatch(date: string)
    | SeedKey(path: string)
    | PrivateText(text: string)

  const MODE := "connection_guesser_one_hop"
  const TOP_KEYS := {"schema_version", "mode", "generated_at", "start_date", "generations", "schedule"}
  const GENERATION_KEYS := {"generation_id", "catalog_version", "pool_version", "artifact_version", "rounds_url"}
  const ENTRY_KEYS := {"date", "round_id", "round_fingerprint", "generation"}
  const VERSION_FIELDS := ["catalog_version", "pool_version", "artifact_version"]

  /** What the validator is given besides the manifest: what it calls, the two ISO parsers (a date is a
      day number) and each generation's own rounds artifact. */
  datatype World = World(
    py: Python,
    parseDate: string -> Option<int>,
    parseTime: string -> Option<int>,
    artifacts: map<string, Json>)

  predicate IsText(v: Json) {
    v.Str? && v.s != ""
  }

  // ---------- Generations ----------

  /** `claimed and actual and claimed != actual` for each version field. */
  function VersionProblems(g: Json, id: string, provenance: Json, fields: seq<string>): (r: seq<Problem>)
    ensures r == [] <==> forall k :: k in fields ==> VersionFits(g, provenance, k)
    ensures forall p :: p in r <==> p.VersionMismatch? && p.id == id && p.field in fields && !VersionFits(g, provenance, p.field)
  {
    if fields == [] then []
    else
      assert fields == [fields[0]] + fields[1..];
      When(!VersionFits(g, provenance, fields[0]), VersionMismatch(id, fields[0]))
      + VersionProblems(g, id, provenance, fields[1..])
  }

  predicate VersionFits(g: Json, provenance: Json, field: string) {
    var claimed, actual := Member(g, field), Member(provenance, field);
    Truthy(claimed) && Truthy(actual) ==> PyEqual(claimed, actual)
  }

  function MissingFields(g: Json, id: string, fields: seq<string>): (r: seq<Problem>)
    ensures r == [] <==> forall k :: k in fields ==> Truthy(Member(g, k))
    ensures forall p :: p in r <==> p.GenerationField? && p.id == id && p.field in fields && !Truthy(Member(g, p.field))
  {
    if fields == [] then []
    else
      assert fields == [fields[0]] + fields[1..];
      When(!Truthy(Member(g, fields[0])), GenerationField(id, fields[0])) + MissingFields(g, id, fields[1..])
  }

  /** What is wrong with one generation, apart from a repeated id. */
  predicate GoodGeneration(w: World, g: Json) {
    g.Obj? && Keys(g.fields) == GENERATION_KEYS
    && IsText(Member(g, "generation_id"))
    && (forall k :: k in VERSION_FIELDS + ["rounds_url"] ==> Truthy(Member(g, k)))
    && SuppliedFits(w, g, Member(g, "generation_id").s)
  }

  /** The versions claimed agree with the artifact supplied, when one is. */
  predicate SuppliedFits(w: World, g: Json, id: string) {
    id in w.artifacts && w.artifacts[id].Obj? ==>
      forall k :: k in VERSION_FIELDS ==> VersionFits(g, Member(w.artifacts[id], "provenance"), k)
  }

  /** What the loop body appends for one generation. */
  function GenerationProblems(w: World, seen: set<string>, g: Json): (r: seq<Problem>)
    ensures r == [] <==> GoodGeneration(w, g) && Member(g, "generation_id").s !in seen
  {
    if !g.Obj? || Keys(g.fields) != GENERATION_KEYS then [GenerationShape]
    else if !IsText(Member(g, "generation_id")) then [GenerationId]
    else
      var id := Member(g, "generation_id").s;
      When(id in seen, DuplicateGeneration(id))
      + MissingFields(g, id, VERSION_FIELDS + ["rounds_url"])
      + SuppliedProblems(w, g, id)
  }

  /** The versions claimed against the artifact supplied, when one is. */
  function SuppliedProblems(w: World, g: Json, id: string): (r: seq<Problem>)
    ensures r == [] <==> SuppliedFits(w, g, id)
  {
    if id in w.artifacts && w.artifacts[id].Obj?
    then VersionProblems(g, id, Member(w.artifacts[id], "provenance"), VERSION_FIELDS) else []
  }

  /** What is wrong with one generation, given the ids before it. */
  ghost predicate GenerationBlames(w: World, seen: set<string>, g: Json, p: Problem) {
    var id := Member(g, "generation_id");
    if !g.Obj? || Keys(g.fields) != GENERATION_KEYS then p == GenerationShape
    else if !id.Str? || id.s == "" then p == GenerationId
    else
      || (p == DuplicateGeneration(id.s) && id.s in seen)
      || (p.GenerationField? && p.id == id.s && p.field in VERSION_FIELDS + ["rounds_url"] && !Truthy(Member(g, p.field)))
      || (p.VersionMismatch? && p.id == id.s && p.field in VERSION_FIELDS && OtherVersion(w, g, id.s, p.field))
  }

  /** The artifact supplied for a generation carries another version than it claims. */
  predicate OtherVersion(w: World, g: Json, id: string, field: string) {
    && id in w.artifacts && w.artifacts[id].Obj?
    && var actual := Member(Member(w.artifacts[id], "provenance"), field);
    Truthy(Member(g, field)) && Truthy(actual) && !PyEqual(Member(g, field), actual)
  }

  lemma SuppliedBlames(w: World, g: Json, id: string, p: Problem)
    ensures p in SuppliedProblems(w, g, id) <==>
      p.VersionMismatch? && p.id == id && p.field in VERSION_FIELDS && OtherVersion(w, g, id, p.field)
  {
  }

  lemma GenerationProblemsBlame(w: World, seen: set<string>, g: Json, p: Problem)
    ensures p in GenerationProblems(w, seen, g) <==> GenerationBlames(w, seen, g, p)
  {
    if g.Obj? && IsText(Member(g, "generation_id")) { SuppliedBlames(w, g, Member(g, "generation_id").s, p); }
  }

  ghost predicate GenerationsBlame(w: World, gs: seq<Json>, n: nat, p: Problem)
    requires n <= |gs|
  {
    exists k: nat :: k < n && GenerationBlames(w, GenerationIds(gs[..k]), gs[k], p)
  }

  lemma NextGenerationBlamed(w: World, gs: seq<Json>, n: nat, problems: seq<Problem>)
    requires n < |gs| && forall p :: p in problems <==> GenerationsBlame(w, gs, n, p)
    ensures forall p :: p in problems + GenerationProblems(w, GenerationIds(gs[..n]), gs[n]) <==> GenerationsBlame(w, gs, n + 1, p)
  {
    forall p ensures p in problems + GenerationProblems(w, GenerationIds(gs[..n]), gs[n]) <==> GenerationsBlame(w, gs, n + 1, p) {
      GenerationProblemsBlame(w, GenerationIds(gs[..n]), gs[n], p);
    }
  }

  /** The ids the loop has collected. */
  function GenerationIds(gs: seq<Json>): (r: set<string>) {
    set g | g in gs && g.Obj? && Keys(g.fields) == GENERATION_KEYS && IsText(Member(g, "generation_id"))
      :: Member(g, "generation_id").s
  }

  ghost predicate GoodGenerations(w: World, gs: seq<Json>) {
    (forall i :: 0 <= i < |gs| ==> GoodGeneration(w, gs[i]))
    && (forall i, j :: 0 <= i < j < |gs| ==> Member(gs[i], "generation_id") != Member(gs[j], "generation_id"))
  }

  lemma IdsOfPrefix(w: World, gs: seq<Json>, id: string)
    requires GoodGenerations(w, gs)
    ensures id in GenerationIds(gs) <==> exists i :: 0 <= i < |gs| && Member(gs[i], "generation_id") == Str(id)
  {
    if id in GenerationIds(gs) {
      var g :| g in gs && g.Obj? && IsText(Member(g, "generation_id")) && Member(g, "generation_id").s == id;
      var i :| 0 <= i < |gs| && gs[i] == g;
    }
    if i :| 0 <= i < |gs| && Member(gs[i], "generation_id") == Str(id) {
      assert GoodGeneration(w, gs[i]) && gs[i] in gs;
    }
  }

  lemma OneMoreGeneration(w: World, gs: seq<Json>, g: Json)
    requires GoodGenerations(w, gs)
    ensures GoodGenerations(w, gs + [g])
      <==> GoodGeneration(w, g) && Member(g, "generation_id").s !in GenerationIds(gs)
  {
    var more := gs + [g];
    if GoodGeneration(w, g) {
      var id := Member(g, "generation_id").s;
      IdsOfPrefix(w, gs, id);
      if id !in GenerationIds(gs) {
        forall i | 0 <= i < |more| ensures GoodGeneration(w, more[i]) {}
        assert forall i :: 0 <= i < |gs| ==> Member(more[i], "generation_id") != Member(g, "generation_id");
      } else {
        var i :| 0 <= i < |gs| && Member(gs[i], "generation_id") == Str(id);
        assert more[i] == gs[i] && more[|gs|] == g;
      }
    } else {
      assert more[|gs|] == g;
    }
  }

  lemma FewerGenerations(w: World, gs: seq<Json>, g: Json)
    requires GoodGenerations(w, gs + [g])
    ensures GoodGenerations(w, gs)
  {
    assert forall i :: 0 <= i < |gs| ==> (gs + [g])[i] == gs[i];
  }

  lemma NextIds(gs: seq<Json>, g: Json)
    ensures GenerationIds(gs + [g]) == GenerationIds(gs) + GenerationIds([g])
  {
  }

  lemma AfterGeneration(w: World, gs: seq<Json>, g: Json, problems: seq<Problem>)
    requires problems == [] <==> GoodGenerations(w, gs)
    ensures problems + GenerationProblems(w, GenerationIds(gs), g) == [] <==> GoodGenerations(w, gs + [g])
  {
    var found := GenerationProblems(w, GenerationIds(gs), g);
    if problems == [] {
      OneMoreGeneration(w, gs, g);
      assert problems + found == found;
    } else {
      assert problems + found != [];
      if GoodGenerations(w, gs + [g]) { FewerGenerations(w, gs, g); }
    }
  }

  /** After `n` generations: what is reported is what is wrong with them, and their ids are collected. */
  ghost predicate Collected(w: World, gs: seq<Json>, n: nat, problems: seq<Problem>, ids: set<string>)
    requires n <= |gs|
  {
    && ids == GenerationIds(gs[..n])
    && (problems == [] <==> GoodGenerations(w, gs[..n]))
    && (forall p :: p in problems <==> GenerationsBlame(w, gs, n, p))
  }

  lemma NextCollected(w: World, gs: seq<Json>, n: nat, problems: seq<Problem>, ids: set<string>)
    requires n < |gs| && Collected(w, gs, n, problems, ids)
    ensures Collected(w, gs, n + 1, problems + GenerationProblems(w, ids, gs[n]), ids + GenerationIds([gs[n]]))
  {
    assert gs[..n + 1] == gs[..n] + [gs[n]];
    NextIds(gs[..n], gs[n]);
    AfterGeneration(w, gs[..n], gs[n], problems);
    NextGenerationBlamed(w, gs, n, problems);
  }

  method CheckGenerations(w: World, gs: seq<Json>) returns (problems: seq<Problem>, ids: set<string>)
    ensures problems == [] <==> GoodGenerations(w, gs)
    ensures ids == GenerationIds(gs)
    ensures forall p :: p in problems <==> GenerationsBlame(w, gs, |gs|, p)
  {
    problems, ids := [], {};
    assert gs[..0] == [];
    for n := 0 to |gs|
      invariant Collected(w, gs, n, problems, ids)
    {
      NextCollected(w, gs, n, problems, ids);
      problems := problems + GenerationProblems(w, ids, gs[n]);
      ids := ids + GenerationIds([gs[n]]);
    }
    assert gs[..|gs|] == gs;
  }

  // ---------- Schedule entries ----------

  predicate IsEligible(r: Json, id: string) {
    r.Obj? && Member(r, "id") == Str(id)
    && PyEqual(Member(r, "pool"), Str("real-records")) && PyEqual(Member(r, "kind"), Str("one_hop"))
  }

  ghost predicate IsLastAt<T>(xs: seq<T>, ok: T -> bool, i: nat) {
    i < |xs| && ok(xs[i]) && forall j :: i < j < |xs| ==> !ok(xs[j])
  }

  function Eligible(id: string): Json -> bool {
    r => IsEligible(r, id)
  }

  ghost predicate IsLast<T>(xs: seq<T>, ok: T -> bool, x: T) {
    exists i: nat :: IsLastAt(xs, ok, i) && xs[i] == x
  }

  function LastOf<T(!new)>(xs: seq<T>, ok: T -> bool): (r: Option<T>)
    ensures r.Some? ==> r.value in xs && ok(r.value) && IsLast(xs, ok, r.value)
    ensures r.None? ==> forall i :: 0 <= i < |xs| ==> !ok(xs[i])
  {
    if xs == [] then None
    else if ok(xs[|xs| - 1]) then
      assert IsLastAt(xs, ok, |xs| - 1);
      Some(xs[|xs| - 1])
    else
      var r := LastOf(xs[..|xs| - 1], ok);
      assert r.Some? ==> IsLast(xs, ok, r.value) by {
        if r.Some? { StillLast(xs, ok, r.value, xs[..|xs| - 1]); }
      }
      r
  }

  lemma StillLast<T>(xs: seq<T>, ok: T -> bool, x: T, fewer: seq<T>)
    requires xs != [] && !ok(xs[|xs| - 1]) && fewer == xs[..|xs| - 1] && IsLast(fewer, ok, x)
    ensures IsLast(xs, ok, x)
  {
    var i: nat :| IsLastAt(fewer, ok, i) && fewer[i] == x;
    assert IsLastAt(xs, ok, i);
  }

  lemma OneIsLast<T>(xs: seq<T>, ok: T -> bool, x: T, y: T)
    requires IsLast(xs, ok, x) && IsLast(xs, ok, y)
    ensures x == y
  {
    var i: nat :| IsLastAt(xs, ok, i) && xs[i] == x;
    var k: nat :| IsLastAt(xs, ok, k) && xs[k] == y;
    assert i == k;
  }

  /** A dictionary built from the list keeps the last eligible round under each id. */
  function EligibleRound(rounds: seq<Json>, id: string): (r: Option<Json>)
    ensures r.Some? ==> r.value in rounds && IsEligible(r.value, id)
    ensures r.None? ==> forall i :: 0 <= i < |rounds| ==> !IsEligible(rounds[i], id)
  {
    LastOf(rounds, Eligible(id))
  }

  /** The rounds of an artifact; none when the member is no list. */
  function RoundsOf(artifact: Json): seq<Json> {
    ListOf(Member(artifact, "rounds"))
  }

  predicate KnownId(rounds: seq<Json>, id: string) {
    exists i :: 0 <= i < |rounds| && rounds[i].Obj? && Member(rounds[i], "id") == Str(id)
  }

  function DateOf(w: World, e: Json): Option<int> {
    var raw := Member(e, "date");
    if raw.Str? then w.parseDate(raw.s) else None
  }

  /** The round and its artifact that an entry names, once its generation is known. */
  function PoolProblems(w: World, e: Json, date: string): (r: seq<Problem>)
    requires Member(e, "generation").Str?
    ensures r == [] <==> GoodTarget(w, e)
  {
    var id, gen := Member(e, "round_id"), Member(e, "generation").s;
    if gen !in w.artifacts || !w.artifacts[gen].Obj? then [NoArtifact(date)]
    else
      var rounds := RoundsOf(w.artifacts[gen]);
      var found := if id.Str? then EligibleRound(rounds, id.s) else None;
      if found.None? then
        if id.Str? && KnownId(rounds, id.s) then [NotOneHop(date)] else [NotInPool(date)]
      else When(Member(e, "round_fingerprint") != Str(Fingerprint(w.py.sha, found.value)), FingerprintMismatch(date))
  }

  /** The entry's own generation holds an eligible round with its id and its fingerprint. */
  predicate GoodTarget(w: World, e: Json)
    requires Member(e, "generation").Str?
  {
    var id, gen := Member(e, "round_id"), Member(e, "generation").s;
    gen in w.artifacts && w.artifacts[gen].Obj? && id.Str?
    && EligibleRound(RoundsOf(w.artifacts[gen]), id.s).Some?
    && Member(e, "round_fingerprint") == Str(Fingerprint(w.py.sha, EligibleRound(RoundsOf(w.artifacts[gen]), id.s).value))
  }

  predicate IsFingerprint(v: Json) {
    v.Str? && Matches("rfp-", 16, v.s)
  }

  /** An entry by itself. */
  predicate GoodEntry(w: World, ids: set<string>, e: Json) {
    e.Obj? && Keys(e.fields) == ENTRY_KEYS && DateOf(w, e).Some?
    && IsRoundId(Member(e, "round_id")) && IsFingerprint(Member(e, "round_fingerprint"))
    && Member(e, "generation").Str? && Member(e, "generation").s in ids
    && GoodTarget(w, e)
  }

  /** The variables the schedule loop carries. */
  datatype Seen = Seen(dates: set<string>, rounds: set<string>, previous: Option<int>)

  /** What the loop compares across entries. */
  datatype Slot = Slot(date: string, round: string, day: int)

  function TextOf(v: Json): string {
    if v.Str? then v.s else ""
  }

  function SlotOf(w: World, e: Json): Slot {
    Slot(TextOf(Member(e, "date")), TextOf(Member(e, "round_id")), if DateOf(w, e).Some? then DateOf(w, e).value else 0)
  }

  predicate Follows(s: Seen, x: Slot) {
    x.date !in s.dates && x.round !in s.rounds && (s.previous.Some? ==> x.day == s.previous.value + 1)
  }

  /** `generation_id not in generation_ids` raises on an unhashable id, once the date is fine. */
  predicate EntryRaises(w: World, e: Json) {
    e.Obj? && Keys(e.fields) == ENTRY_KEYS && DateOf(w, e).Some? && !Hashable(Member(e, "generation"))
  }

  /** A good entry that follows those before. */
  predicate GoodNext(w: World, ids: set<string>, s: Seen, e: Json) {
    GoodEntry(w, ids, e) && Follows(s, SlotOf(w, e))
  }

  /** What the loop body appends for one entry. */
  function EntryProblems(w: World, ids: set<string>, s: Seen, e: Json): (r: seq<Problem>)
    ensures r == [] <==> GoodNext(w, ids, s, e)
  {
    if !e.Obj? || Keys(e.fields) != ENTRY_KEYS then [EntryShape]
    else if DateOf(w, e).None? then [EntryDate]
    else
      ReadIsGood(w, ids, s, e);
      ReadProblems(w, ids, s, e, Member(e, "date").s)
  }

  /** What an entry must be once its keys and date are read. */
  predicate GoodRead(w: World, ids: set<string>, s: Seen, e: Json, date: string)
    requires DateOf(w, e).Some?
  {
    && date !in s.dates && (s.previous.Some? ==> DateOf(w, e).value == s.previous.value + 1)
    && IsRoundId(Member(e, "round_id")) && Member(e, "round_id").s !in s.rounds && IsFingerprint(Member(e, "round_fingerprint"))
    && Member(e, "generation").Str? && Member(e, "generation").s in ids && GoodTarget(w, e)
  }

  lemma ReadIsGood(w: World, ids: set<string>, s: Seen, e: Json)
    requires e.Obj? && Keys(e.fields) == ENTRY_KEYS && DateOf(w, e).Some?
    ensures GoodRead(w, ids, s, e, Member(e, "date").s) <==> GoodNext(w, ids, s, e)
  {
  }

  function ReadProblems(w: World, ids: set<string>, s: Seen, e: Json, date: string): (r: seq<Problem>)
    requires DateOf(w, e).Some?
    ensures r == [] <==> GoodRead(w, ids, s, e, date)
  {
    DayProblemsOf(w, s, e, date) + TextProblemsOf(s, e, date) + TargetProblems(w, ids, e, date)
  }

  /** The date against the entries before. */
  function DayProblemsOf(w: World, s: Seen, e: Json, date: string): (r: seq<Problem>)
    requires DateOf(w, e).Some?
    ensures r == [] <==> date !in s.dates && (s.previous.Some? ==> DateOf(w, e).value == s.previous.value + 1)
  {
    DayProblems(date, date in s.dates, s.previous.Some? && DateOf(w, e).value - s.previous.value != 1)
  }

  /** The two texts of an entry. */
  function TextProblemsOf(s: Seen, e: Json, date: string): (r: seq<Problem>)
    ensures r == [] <==>
      IsRoundId(Member(e, "round_id")) && Member(e, "round_id").s !in s.rounds && IsFingerprint(Member(e, "round_fingerprint"))
  {
    var id := Member(e, "round_id");
    TextProblems(date, !IsRoundId(id), IsRoundId(id) && id.s in s.rounds, !IsFingerprint(Member(e, "round_fingerprint")))
  }

  function DayProblems(date: string, again: bool, gap: bool): (r: seq<Problem>)
    ensures r == [] <==> !again && !gap
    ensures forall p :: p in r <==> (again && p == DuplicateDate(date)) || (gap && p == Gap(date))
  {
    When(again, DuplicateDate(date)) + When(gap, Gap(date))
  }

  function TextProblems(date: string, malformed: bool, again: bool, fingerprint: bool): (r: seq<Problem>)
    ensures r == [] <==> !malformed && !again && !fingerprint
    ensures forall p :: p in r <==>
      (malformed && p == RoundId(date)) || (again && p == RoundRepeated(date)) || (fingerprint && p == BadFingerprint(date))
  {
    When(malformed, RoundId(date)) + When(again, RoundRepeated(date)) + When(fingerprint, BadFingerprint(date))
  }

  function TargetProblems(w: World, ids: set<string>, e: Json, date: string): (r: seq<Problem>)
    ensures r == [] <==> Member(e, "generation").Str? && Member(e, "generation").s in ids && GoodTarget(w, e)
  {
    var gen := Member(e, "generation");
    if !gen.Str? || gen.s !in ids then [UnknownGeneration(date)] else PoolProblems(w, e, date)
  }

  /** The loop variables after one entry. */
  function Advance(w: World, s: Seen, e: Json): Seen {
    if !e.Obj? || Keys(e.fields) != ENTRY_KEYS || DateOf(w, e).None? then s
    else
      var id := Member(e, "round_id");
      Seen(s.dates + {Member(e, "date").s}, if id.Str? then s.rounds + {id.s} else s.rounds, DateOf(w, e))
  }

  function Slots(w: World, es: seq<Json>): (r: seq<Slot>)
    ensures |r| == |es|
    ensures forall i :: 0 <= i < |es| ==> r[i] == SlotOf(w, es[i])
  {
    seq(|es|, i requires 0 <= i < |es| => SlotOf(w, es[i]))
  }

  /** Consecutive days, no date text twice and no round twice. */
  ghost predicate Orderly(xs: seq<Slot>) {
    (forall i :: 0 < i < |xs| ==> xs[i].day == xs[i - 1].day + 1)
    && (forall i, j :: 0 <= i < j < |xs| ==> xs[i].date != xs[j].date && xs[i].round != xs[j].round)
  }

  ghost predicate GoodEntries(w: World, ids: set<string>, es: seq<Json>) {
    forall i :: 0 <= i < |es| ==> GoodEntry(w, ids, es[i])
  }

  ghost predicate GoodSchedule(w: World, ids: set<string>, es: seq<Json>) {
    GoodEntries(w, ids, es) && Orderly(Slots(w, es))
  }

  /** The loop variables stand for the slots read. */
  ghost predicate Read(xs: seq<Slot>, s: Seen) {
    s.dates == (set i | 0 <= i < |xs| :: xs[i].date)
    && s.rounds == (set i | 0 <= i < |xs| :: xs[i].round)
    && s.previous == if xs == [] then None else Some(xs[|xs| - 1].day)
  }

  lemma OneMoreSlot(xs: seq<Slot>, s: Seen, x: Slot)
    requires Orderly(xs) && Read(xs, s)
    ensures Orderly(xs + [x]) <==> Follows(s, x)
  {
    var more := xs + [x];
    assert more[|xs|] == x;
    assert forall i :: 0 <= i < |xs| ==> more[i] == xs[i];
  }

  lemma NextRead(xs: seq<Slot>, s: Seen, x: Slot)
    requires Read(xs, s)
    ensures Read(xs + [x], Seen(s.dates + {x.date}, s.rounds + {x.round}, Some(x.day)))
  {
    var more := xs + [x];
    assert more[|xs|] == x;
    assert forall i :: 0 <= i < |xs| ==> more[i] == xs[i];
  }

  lemma FewerSlots(xs: seq<Slot>, x: Slot)
    requires Orderly(xs + [x])
    ensures Orderly(xs)
  {
    var more := xs + [x];
    assert forall i :: 0 <= i < |xs| ==> more[i] == xs[i];
  }

  lemma NextSlots(w: World, es: seq<Json>, e: Json)
    ensures Slots(w, es + [e]) == Slots(w, es) + [SlotOf(w, e)]
  {
  }

  lemma NextEntries(w: World, ids: set<string>, es: seq<Json>, e: Json)
    ensures GoodEntries(w, ids, es + [e]) <==> GoodEntries(w, ids, es) && GoodEntry(w, ids, e)
  {
    var more := es + [e];
    assert more[|es|] == e;
    assert forall i :: 0 <= i < |es| ==> more[i] == es[i];
  }

  lemma GoodAdvance(w: World, ids: set<string>, s: Seen, e: Json)
    requires GoodEntry(w, ids, e)
    ensures var x := SlotOf(w, e);
      Advance(w, s, e) == Seen(s.dates + {x.date}, s.rounds + {x.round}, Some(x.day))
  {
  }

  /** What holds after `es`: an empty list exactly when they are good, and then they are noted. */
  ghost predicate Walked(w: World, ids: set<string>, es: seq<Json>, s: Seen, problems: seq<Problem>) {
    (problems == [] <==> GoodSchedule(w, ids, es)) && (problems == [] ==> Read(Slots(w, es), s))
  }

  lemma AfterEntry(w: World, ids: set<string>, es: seq<Json>, s: Seen, problems: seq<Problem>, e: Json)
    requires Walked(w, ids, es, s, problems)
    ensures Walked(w, ids, es + [e], Advance(w, s, e), problems + EntryProblems(w, ids, s, e))
  {
    var found, xs, x := EntryProblems(w, ids, s, e), Slots(w, es), SlotOf(w, e);
    NextSlots(w, es, e);
    NextEntries(w, ids, es, e);
    if problems == [] {
      OneMoreSlot(xs, s, x);
      assert problems + found == found;
      if found == [] {
        NextRead(xs, s, x);
        GoodAdvance(w, ids, s, e);
      } else if Orderly(xs + [x]) {
        FewerSlots(xs, x);
      }
    } else {
      assert problems + found != [];
      if Orderly(xs + [x]) { FewerSlots(xs, x); }
    }
  }

  lemma RaisingEntry(w: World, ids: set<string>, es: seq<Json>, n: nat)
    requires n < |es| && EntryRaises(w, es[n])
    ensures !GoodSchedule(w, ids, es)
  {
    assert !GoodEntry(w, ids, es[n]);
  }

  // ---------- Just what is reported ----------

  /** The loop gets past the entry's keys and date. */
  predicate Reads(w: World, e: Json) {
    e.Obj? && Keys(e.fields) == ENTRY_KEYS && DateOf(w, e).Some?
  }

  ghost predicate IsLastRead(w: World, es: seq<Json>, n: nat, j: nat)
    requires n <= |es|
  {
    j < n && Reads(w, es[j]) && forall i :: j < i < n ==> !Reads(w, es[i])
  }

  /** An earlier entry that was read has the same date text. */
  ghost predicate DateBefore(w: World, es: seq<Json>, k: nat)
    requires k < |es|
  {
    exists j :: 0 <= j < k && Reads(w, es[j]) && Member(es[j], "date") == Member(es[k], "date")
  }

  ghost predicate RoundBefore(w: World, es: seq<Json>, k: nat)
    requires k < |es|
  {
    exists j :: 0 <= j < k && Reads(w, es[j]) && Member(es[j], "round_id") == Member(es[k], "round_id")
  }

  /** The last entry read is not of the day before. */
  ghost predicate GapBefore(w: World, es: seq<Json>, k: nat)
    requires k < |es| && Reads(w, es[k])
  {
    exists j: nat :: IsLastRead(w, es, k, j) && DateOf(w, es[k]).value != DateOf(w, es[j]).value + 1
  }

  /** What is wrong with the `k`-th entry. */
  ghost predicate EntryBlames(w: World, ids: set<string>, es: seq<Json>, k: nat, p: Problem)
    requires k < |es|
  {
    var e := es[k];
    if !e.Obj? || Keys(e.fields) != ENTRY_KEYS then p == EntryShape
    else if DateOf(w, e).None? then p == EntryDate
    else DayBlames(w, es, k, p) || TextBlames(w, es, k, p) || TargetBlames(w, ids, e, p)
  }

  ghost predicate DayBlames(w: World, es: seq<Json>, k: nat, p: Problem)
    requires k < |es| && Reads(w, es[k])
  {
    match p
    case DuplicateDate(date) => Member(es[k], "date") == Str(date) && DateBefore(w, es, k)
    case Gap(date) => Member(es[k], "date") == Str(date) && GapBefore(w, es, k)
    case _ => false
  }

  ghost predicate TextBlames(w: World, es: seq<Json>, k: nat, p: Problem)
    requires k < |es|
  {
    match p
    case RoundId(date) => Member(es[k], "date") == Str(date) && !IsRoundId(Member(es[k], "round_id"))
    case RoundRepeated(date) => Member(es[k], "date") == Str(date) && IsRoundId(Member(es[k], "round_id")) && RoundBefore(w, es, k)
    case BadFingerprint(date) => Member(es[k], "date") == Str(date) && !IsFingerprint(Member(es[k], "round_fingerprint"))
    case _ => false
  }

  /** The generation is not listed; or no artifact is supplied for it, or its list holds no such round, or only
      others of that id, or the last one of that id has another fingerprint. */
  ghost predicate TargetBlames(w: World, ids: set<string>, e: Json, p: Problem) {
    var gen, id := Member(e, "generation"), Member(e, "round_id");
    if !gen.Str? || gen.s !in ids then p.UnknownGeneration? && Member(e, "date") == Str(p.date)
    else if gen.s !in w.artifacts || !w.artifacts[gen.s].Obj? then p.NoArtifact? && Member(e, "date") == Str(p.date)
    else PoolBlames(w.py.sha, RoundsOf(w.artifacts[gen.s]), e, p)
  }

  ghost predicate PoolBlames(sha: string -> string, rounds: seq<Json>, e: Json, p: Problem) {
    var id := Member(e, "round_id");
    match p
    case NotInPool(date) => Member(e, "date") == Str(date) && !Names(rounds, id)
    case NotOneHop(date) => Member(e, "date") == Str(date) && Names(rounds, id) && !NamesEligible(rounds, id)
    case FingerprintMismatch(date) => Member(e, "date") == Str(date) && id.Str? && OtherFingerprint(sha, rounds, id.s, e)
    case _ => false
  }

  /** Some round of the list has this text as its id. */
  ghost predicate Names(rounds: seq<Json>, id: Json) {
    id.Str? && exists i :: 0 <= i < |rounds| && rounds[i].Obj? && Member(rounds[i], "id") == id
  }

  ghost predicate NamesEligible(rounds: seq<Json>, id: Json) {
    id.Str? && exists i :: 0 <= i < |rounds| && IsEligible(rounds[i], id.s)
  }

  ghost predicate OtherFingerprint(sha: string -> string, rounds: seq<Json>, id: string, e: Json) {
    exists r :: IsLast(rounds, Eligible(id), r) && Member(e, "round_fingerprint") != Str("rfp-" + ContentHash(sha, r, 16))
  }

  lemma LastEligibleIs(rounds: seq<Json>, id: string, r: Json)
    ensures IsLast(rounds, Eligible(id), r) <==> EligibleRound(rounds, id) == Some(r)
  {
    LastIs(rounds, Eligible(id), r);
  }

  lemma LastIs<T(!new)>(xs: seq<T>, ok: T -> bool, x: T)
    ensures IsLast(xs, ok, x) <==> LastOf(xs, ok) == Some(x)
  {
    if IsLast(xs, ok, x) {
      var i: nat :| IsLastAt(xs, ok, i) && xs[i] == x;
      OneIsLast(xs, ok, x, LastOf(xs, ok).value);
    }
  }

  lemma EligibleNames(rounds: seq<Json>, id: Json)
    requires id.Str?
    ensures EligibleRound(rounds, id.s).Some? <==> NamesEligible(rounds, id)
    ensures KnownId(rounds, id.s) <==> Names(rounds, id)
    ensures NamesEligible(rounds, id) ==> Names(rounds, id)
  {
  }

  lemma OtherFingerprintIs(sha: string -> string, rounds: seq<Json>, id: string, e: Json)
    ensures OtherFingerprint(sha, rounds, id, e) <==>
      EligibleRound(rounds, id).Some? && Member(e, "round_fingerprint") != Str(Fingerprint(sha, EligibleRound(rounds, id).value))
  {
    if EligibleRound(rounds, id).Some? { LastEligibleIs(rounds, id, EligibleRound(rounds, id).value); }
    if OtherFingerprint(sha, rounds, id, e) {
      var r :| IsLast(rounds, Eligible(id), r) && Member(e, "round_fingerprint") != Str("rfp-" + ContentHash(sha, r, 16));
      LastEligibleIs(rounds, id, r);
    }
  }

  lemma PoolProblemsBlame(w: World, e: Json, date: string, p: Problem)
    requires Member(e, "generation").Str? && Member(e, "date") == Str(date)
    requires Member(e, "generation").s in w.artifacts && w.artifacts[Member(e, "generation").s].Obj?
    ensures p in PoolProblems(w, e, date) <==> PoolBlames(w.py.sha, RoundsOf(w.artifacts[Member(e, "generation").s]), e, p)
  {
    var rounds, id := RoundsOf(w.artifacts[Member(e, "generation").s]), Member(e, "round_id");
    if id.Str? {
      EligibleNames(rounds, id);
      OtherFingerprintIs(w.py.sha, rounds, id.s, e);
    }
  }

  lemma TargetProblemsBlame(w: World, ids: set<string>, e: Json, date: string, p: Problem)
    requires Member(e, "date") == Str(date)
    ensures p in TargetProblems(w, ids, e, date) <==> TargetBlames(w, ids, e, p)
  {
    var gen := Member(e, "generation");
    if gen.Str? && gen.s in w.artifacts && w.artifacts[gen.s].Obj? { PoolProblemsBlame(w, e, date, p); }
  }

  /** The loop variables stand for the entries read so far. */
  ghost predicate Noted(w: World, es: seq<Json>, n: nat, s: Seen)
    requires n <= |es|
  {
    && (forall d :: d in s.dates <==> IsDateOf(w, es, n, d))
    && (forall r :: r in s.rounds <==> IsRoundOf(w, es, n, r))
    && IsLastDay(w, es, n, s.previous)
  }

  ghost predicate IsDateOf(w: World, es: seq<Json>, n: nat, d: string)
    requires n <= |es|
  {
    exists j :: 0 <= j < n && Reads(w, es[j]) && Member(es[j], "date") == Str(d)
  }

  ghost predicate IsRoundOf(w: World, es: seq<Json>, n: nat, r: string)
    requires n <= |es|
  {
    exists j :: 0 <= j < n && Reads(w, es[j]) && Member(es[j], "round_id") == Str(r)
  }

  ghost predicate IsLastDay(w: World, es: seq<Json>, n: nat, previous: Option<int>)
    requires n <= |es|
  {
    if previous.None? then forall j :: 0 <= j < n ==> !Reads(w, es[j])
    else exists j: nat :: IsLastRead(w, es, n, j) && DateOf(w, es[j]) == previous
  }

  lemma LastDayDecides(w: World, es: seq<Json>, k: nat, previous: Option<int>)
    requires k < |es| && Reads(w, es[k]) && IsLastDay(w, es, k, previous)
    ensures GapBefore(w, es, k) <==> previous.Some? && DateOf(w, es[k]).value - previous.value != 1
  {
    if previous.Some? {
      var j: nat :| IsLastRead(w, es, k, j) && DateOf(w, es[j]) == previous;
      assert forall i: nat :: IsLastRead(w, es, k, i) ==> i == j;
    }
  }

  lemma NextLastDay(w: World, es: seq<Json>, n: nat, s: Seen)
    requires n < |es| && IsLastDay(w, es, n, s.previous)
    ensures IsLastDay(w, es, n + 1, Advance(w, s, es[n]).previous)
  {
    if Reads(w, es[n]) {
      assert IsLastRead(w, es, n + 1, n);
    } else if s.previous.Some? {
      var j: nat :| IsLastRead(w, es, n, j) && DateOf(w, es[j]) == s.previous;
      assert IsLastRead(w, es, n + 1, j);
    }
  }

  lemma NextDates(w: World, es: seq<Json>, n: nat, s: Seen, d: string)
    requires n < |es| && (d in s.dates <==> IsDateOf(w, es, n, d))
    ensures d in Advance(w, s, es[n]).dates <==> IsDateOf(w, es, n + 1, d)
  {
  }

  lemma NextRounds(w: World, es: seq<Json>, n: nat, s: Seen, r: string)
    requires n < |es| && (r in s.rounds <==> IsRoundOf(w, es, n, r))
    ensures r in Advance(w, s, es[n]).rounds <==> IsRoundOf(w, es, n + 1, r)
  {
  }

  lemma NextNoted(w: World, es: seq<Json>, n: nat, s: Seen)
    requires n < |es| && Noted(w, es, n, s)
    ensures Noted(w, es, n + 1, Advance(w, s, es[n]))
  {
    var t := Advance(w, s, es[n]);
    forall d ensures d in t.dates <==> IsDateOf(w, es, n + 1, d) { NextDates(w, es, n, s, d); }
    forall r ensures r in t.rounds <==> IsRoundOf(w, es, n + 1, r) { NextRounds(w, es, n, s, r); }
    NextLastDay(w, es, n, s);
  }

  lemma DayProblemsBlame(w: World, es: seq<Json>, k: nat, s: Seen, p: Problem)
    requires k < |es| && Reads(w, es[k]) && Noted(w, es, k, s)
    ensures p in DayProblemsOf(w, s, es[k], Member(es[k], "date").s) <==> DayBlames(w, es, k, p)
  {
    LastDayDecides(w, es, k, s.previous);
    DateAgain(w, es, k, s, Member(es[k], "date").s);
  }

  lemma DateAgain(w: World, es: seq<Json>, k: nat, s: Seen, date: string)
    requires k < |es| && Noted(w, es, k, s) && Member(es[k], "date") == Str(date)
    ensures date in s.dates <==> DateBefore(w, es, k)
  {
  }

  lemma RoundAgain(w: World, es: seq<Json>, k: nat, s: Seen, id: string)
    requires k < |es| && Noted(w, es, k, s) && Member(es[k], "round_id") == Str(id)
    ensures id in s.rounds <==> RoundBefore(w, es, k)
  {
  }

  lemma TextProblemsBlame(w: World, es: seq<Json>, k: nat, s: Seen, p: Problem)
    requires k < |es| && Reads(w, es[k])
    requires IsRoundId(Member(es[k], "round_id")) ==> (Member(es[k], "round_id").s in s.rounds <==> RoundBefore(w, es, k))
    ensures p in TextProblemsOf(s, es[k], Member(es[k], "date").s) <==> TextBlames(w, es, k, p)
  {
  }

  lemma ReadProblemsBlame(w: World, ids: set<string>, es: seq<Json>, k: nat, s: Seen, date: string, p: Problem)
    requires k < |es| && Reads(w, es[k]) && Noted(w, es, k, s) && Member(es[k], "date") == Str(date)
    ensures p in ReadProblems(w, ids, s, es[k], date)
      <==> DayBlames(w, es, k, p) || TextBlames(w, es, k, p) || TargetBlames(w, ids, es[k], p)
  {
    DayProblemsBlame(w, es, k, s, p);
    var id := Member(es[k], "round_id");
    if id.Str? { RoundAgain(w, es, k, s, id.s); }
    TextProblemsBlame(w, es, k, s, p);
    TargetProblemsBlame(w, ids, es[k], date, p);
  }

  lemma EntryProblemsBlame(w: World, ids: set<string>, es: seq<Json>, k: nat, s: Seen, p: Problem)
    requires k < |es| && Noted(w, es, k, s)
    ensures p in EntryProblems(w, ids, s, es[k]) <==> EntryBlames(w, ids, es, k, p)
  {
    if Reads(w, es[k]) { ReadProblemsBlame(w, ids, es, k, s, Member(es[k], "date").s, p); }
  }

  ghost predicate ScheduleBlames(w: World, ids: set<string>, es: seq<Json>, n: nat, p: Problem)
    requires n <= |es|
  {
    exists k: nat :: k < n && EntryBlames(w, ids, es, k, p)
  }

  ghost predicate ScheduleRaises(w: World, es: seq<Json>, n: nat)
    requires n <= |es|
  {
    exists k :: 0 <= k < n && EntryRaises(w, es[k])
  }

  /** After `n` entries: none has raised, and what is reported is what is wrong with them. */
  ghost predicate Reported(w: World, ids: set<string>, es: seq<Json>, n: nat, s: Seen, problems: seq<Problem>)
    requires n <= |es|
  {
    Noted(w, es, n, s) && !ScheduleRaises(w, es, n) && forall p :: p in problems <==> ScheduleBlames(w, ids, es, n, p)
  }

  lemma NextReported(w: World, ids: set<string>, es: seq<Json>, n: nat, s: Seen, problems: seq<Problem>)
    requires n < |es| && Reported(w, ids, es, n, s, problems) && !EntryRaises(w, es[n])
    ensures Reported(w, ids, es, n + 1, Advance(w, s, es[n]), problems + EntryProblems(w, ids, s, es[n]))
  {
    NextNoted(w, es, n, s);
    forall p ensures p in problems + EntryProblems(w, ids, s, es[n]) <==> ScheduleBlames(w, ids, es, n + 1, p) {
      EntryProblemsBlame(w, ids, es, n, s, p);
      OneMoreBlamed(w, ids, es, n, p);
    }
  }

  lemma OneMoreBlamed(w: World, ids: set<string>, es: seq<Json>, n: nat, p: Problem)
    requires n < |es|
    ensures ScheduleBlames(w, ids, es, n + 1, p) <==> ScheduleBlames(w, ids, es, n, p) || EntryBlames(w, ids, es, n, p)
  {
  }

  /** `for entry in schedule`. */
  method CheckSchedule(w: World, ids: set<string>, es: seq<Json>) returns (out: Outcome<Problem>)
    ensures out == Failures([]) <==> GoodSchedule(w, ids, es)
    ensures out.Raised? <==> ScheduleRaises(w, es, |es|)
    ensures out.Failures? ==> forall p :: p in out.list <==> ScheduleBlames(w, ids, es, |es|, p)
  {
    var problems: seq<Problem> := [];
    var s := Seen({}, {}, None);
    assert Walked(w, ids, es[..0], s, problems);
    for n := 0 to |es|
      invariant Walked(w, ids, es[..n], s, problems)
      invariant Reported(w, ids, es, n, s, problems)
    {
      if EntryRaises(w, es[n]) {
        RaisingEntry(w, ids, es, n);
        return Raised;
      }
      AfterEntry(w, ids, es[..n], s, problems, es[n]);
      NextReported(w, ids, es, n, s, problems);
      assert es[..n + 1] == es[..n] + [es[n]];
      problems := problems + EntryProblems(w, ids, s, es[n]);
      s := Advance(w, s, es[n]);
    }
    assert es[..|es|] == es;
    return Failures(problems);
  }

  // ---------- The whole function ----------

  /** A manifest field that must be a parseable text; anything truthy but no text makes the parser raise. */
  predicate Unparseable(v: Json, parse: string -> Option<int>) {
    !Truthy(v) || (v.Str? && parse(v.s).None?)
  }

  predicate GoodFields(w: World, m: Json)
    requires m.Obj?
  {
    Keys(m.fields) == TOP_KEYS
    && PyEqual(Member(m, "schema_version"), Num(2)) && Member(m, "mode") == Str(MODE)
    && Parses(Member(m, "generated_at"), w.parseTime) && Parses(Member(m, "start_date"), w.parseDate)
  }

  predicate Parses(v: Json, parse: string -> Option<int>) {
    IsText(v) && parse(v.s).Some?
  }

  /** What an empty list amounts to. */
  ghost predicate ValidManifest(w: World, m: Json) {
    var gs, es := ListAt(m, "generations"), ListAt(m, "schedule");
    m.Obj? && GoodFields(w, m) && SeedFree(m) && Discreet(w.py, m)
    && gs != [] && GoodGenerations(w, gs)
    && es != [] && es[0].Obj? && Member(es[0], "date") == Member(m, "start_date")
    && GoodSchedule(w, GenerationIds(gs), es)
  }

  /** A parser handed something that is no text raises. */
  predicate HeaderRaises(m: Json) {
    var stamp, start := Member(m, "generated_at"), Member(m, "start_date");
    (Truthy(stamp) && !stamp.Str?) || (Truthy(start) && !start.Str?)
  }

  function TopProblems(w: World, m: Json): (r: seq<Problem>)
    requires m.Obj? && !HeaderRaises(m)
    ensures r == [] <==> GoodFields(w, m)
  {
    KindProblemsOf(m) + StampProblemsOf(w, m)
  }

  function KindProblemsOf(m: Json): (r: seq<Problem>)
    requires m.Obj?
    ensures r == [] <==> Keys(m.fields) == TOP_KEYS && PyEqual(Member(m, "schema_version"), Num(2)) && Member(m, "mode") == Str(MODE)
  {
    StringsEqual(Member(m, "mode"), MODE);
    KindProblems(Keys(m.fields) != TOP_KEYS, !PyEqual(Member(m, "schema_version"), Num(2)), !PyEqual(Member(m, "mode"), Str(MODE)))
  }

  function StampProblemsOf(w: World, m: Json): (r: seq<Problem>)
    requires !HeaderRaises(m)
    ensures r == [] <==> Parses(Member(m, "generated_at"), w.parseTime) && Parses(Member(m, "start_date"), w.parseDate)
  {
    StampProblems(Unparseable(Member(m, "generated_at"), w.parseTime), Unparseable(Member(m, "start_date"), w.parseDate))
  }

  function KindProblems(keys: bool, schema: bool, mode: bool): (r: seq<Problem>)
    ensures r == [] <==> !keys && !schema && !mode
    ensures forall p :: p in r <==> (keys && p == UnexpectedTopKeys) || (schema && p == BadSchema) || (mode && p == BadMode)
  {
    When(keys, UnexpectedTopKeys) + When(schema, BadSchema) + When(mode, BadMode)
  }

  function StampProblems(stamp: bool, start: bool): (r: seq<Problem>)
    ensures r == [] <==> !stamp && !start
    ensures forall p :: p in r <==> (stamp && p == BadStamp) || (start && p == BadStart)
  {
    When(stamp, BadStamp) + When(start, BadStart)
  }

  /** What is wrong with the manifest's own fields. */
  ghost predicate TopBlames(w: World, m: Json, p: Problem)
    requires m.Obj?
  {
    KindBlames(m, p) || StampBlames(w, m, p)
  }

  ghost predicate KindBlames(m: Json, p: Problem)
    requires m.Obj?
  {
    match p
    case UnexpectedTopKeys => Keys(m.fields) != TOP_KEYS
    case BadSchema => !PyEqual(Member(m, "schema_version"), Num(2))
    case BadMode => Member(m, "mode") != Str(MODE)
    case _ => false
  }

  ghost predicate StampBlames(w: World, m: Json, p: Problem) {
    match p
    case BadStamp => !Parses(Member(m, "generated_at"), w.parseTime)
    case BadStart => !Parses(Member(m, "start_date"), w.parseDate)
    case _ => false
  }

  lemma KindProblemsBlame(m: Json, p: Problem)
    requires m.Obj?
    ensures p in KindProblemsOf(m) <==> KindBlames(m, p)
  {
    StringsEqual(Member(m, "mode"), MODE);
  }

  lemma StampProblemsBlame(w: World, m: Json, p: Problem)
    requires !HeaderRaises(m)
    ensures p in StampProblemsOf(w, m) <==> StampBlames(w, m, p)
  {
  }

  lemma TopProblemsBlame(w: World, m: Json, p: Problem)
    requires m.Obj? && !HeaderRaises(m)
    ensures p in TopProblems(w, m) <==> TopBlames(w, m, p)
  {
    KindProblemsBlame(m, p);
    StampProblemsBlame(w, m, p);
  }

  /** `schedule[0].get` raises when the first entry is no dictionary. */
  predicate StartRaises(m: Json) {
    var es := ListAt(m, "schedule");
    es != [] && Member(m, "start_date").Str? && !es[0].Obj?
  }

  predicate StartAgrees(m: Json) {
    var es, start := ListAt(m, "schedule"), Member(m, "start_date");
    es != [] && start.Str? ==> Member(es[0], "date") == start
  }

  /** The list under a key, which must be there and not be empty. */
  function ListAt(m: Json, key: string): seq<Json> {
    ListOf(Member(m, key))
  }

  /** The scans of the manifest. */
  function ScanProblems(py: Python, m: Json): (r: seq<Problem>)
    ensures r == [] <==> SeedFree(m) && Discreet(py, m)
  {
    SeedScan(m, "");
    SeedKeys(SeedPaths(m, "")) + PrivateTexts(PrivacyFindings(py, m))
  }

  function SeedKeys(paths: seq<string>): (r: seq<Problem>)
    ensures r == [] <==> paths == []
    ensures forall p :: p in r <==> p.SeedKey? && p.path in paths
  {
    if paths == [] then [] else [SeedKey(paths[0])] + SeedKeys(paths[1..])
  }

  function PrivateTexts(texts: seq<string>): (r: seq<Problem>)
    ensures r == [] <==> texts == []
    ensures forall p :: p in r <==> p.PrivateText? && p.text in texts
  {
    if texts == [] then [] else [PrivateText(texts[0])] + PrivateTexts(texts[1..])
  }

  ghost predicate ScanBlames(py: Python, m: Json, p: Problem) {
    (p.SeedKey? && SeedAt(m, "", p.path)) || (p.PrivateText? && MustNotPrint(py, m, p.text))
  }

  lemma ScanProblemsBlame(py: Python, m: Json, p: Problem)
    ensures p in ScanProblems(py, m) <==> ScanBlames(py, m, p)
  {
    if p.SeedKey? { SeedPathsExact(m, "", p.path); }
  }

  /** What is reported before the generations are read. */
  function FirstProblems(w: World, m: Json): (r: seq<Problem>)
    requires m.Obj? && !HeaderRaises(m)
    ensures r == [] <==> SeedFree(m) && Discreet(w.py, m) && GoodFields(w, m)
    ensures forall p :: p in r <==> ScanBlames(w.py, m, p) || TopBlames(w, m, p)
  {
    assert forall p :: p in ScanProblems(w.py, m) <==> ScanBlames(w.py, m, p) by {
      forall p ensures p in ScanProblems(w.py, m) <==> ScanBlames(w.py, m, p) { ScanProblemsBlame(w.py, m, p); }
    }
    assert forall p :: p in TopProblems(w, m) <==> TopBlames(w, m, p) by {
      forall p ensures p in TopProblems(w, m) <==> TopBlames(w, m, p) { TopProblemsBlame(w, m, p); }
    }
    ScanProblems(w.py, m) + TopProblems(w, m)
  }

  /** What is reported of the two lists themselves. */
  function ListProblems(m: Json): (r: seq<Problem>)
    ensures r == [] <==> ListAt(m, "generations") != [] && ListAt(m, "schedule") != [] && StartAgrees(m)
  {
    ListFlaws(ListAt(m, "generations") == [], ListAt(m, "schedule") == [], !StartAgrees(m))
  }

  function ListFlaws(generations: bool, schedule: bool, start: bool): (r: seq<Problem>)
    ensures r == [] <==> !generations && !schedule && !start
    ensures forall p :: p in r <==> (generations && p == NoGenerations) || (schedule && p == NoSchedule) || (start && p == StartDate)
  {
    When(generations, NoGenerations) + When(schedule, NoSchedule) + When(start, StartDate)
  }

  lemma ListProblemsBlame(m: Json, p: Problem)
    ensures p in ListProblems(m) <==> ListBlames(m, p)
  {
  }

  ghost predicate ListBlames(m: Json, p: Problem) {
    var gs, es, start := Member(m, "generations"), Member(m, "schedule"), Member(m, "start_date");
    match p
    case NoGenerations => !gs.Arr? || gs.items == []
    case NoSchedule => !es.Arr? || es.items == []
    case StartDate => es.Arr? && es.items != [] && start.Str? && Member(es.items[0], "date") != start
    case _ => false
  }

  /** The validator raises on this manifest. */
  ghost predicate ManifestRaises(w: World, m: Json) {
    m.Obj? && (HeaderRaises(m) || StartRaises(m) || ScheduleRaises(w, ListAt(m, "schedule"), |ListAt(m, "schedule")|))
  }

  /** The problem is one of the manifest's. */
  ghost predicate ManifestBlames(w: World, m: Json, p: Problem) {
    var gs, es := ListAt(m, "generations"), ListAt(m, "schedule");
    if !m.Obj? then p == ManifestShape
    else
      || ScanBlames(w.py, m, p) || TopBlames(w, m, p) || ListBlames(m, p)
      || GenerationsBlame(w, gs, |gs|, p) || ScheduleBlames(w, GenerationIds(gs), es, |es|, p)
  }

  /** `connection_daily_manifest_v2_failures`. */
  method ManifestFailures(w: World, m: Json) returns (out: Outcome<Problem>)
    ensures out == Failures([]) <==> ValidManifest(w, m)
    ensures out.Raised? <==> ManifestRaises(w, m)
    ensures out.Failures? ==> forall p :: p in out.list <==> ManifestBlames(w, m, p)
  {
    if !m.Obj? { return Failures([ManifestShape]); }
    if HeaderRaises(m) { return Raised; }
    var first := FirstProblems(w, m);
    var found, ids := CheckGenerations(w, ListAt(m, "generations"));
    if StartRaises(m) { return Raised; }
    var rest := CheckSchedule(w, ids, ListAt(m, "schedule"));
    if rest.Raised? { return Raised; }
    out := Failures(first + found + ListProblems(m) + rest.list);
    forall p ensures p in ListProblems(m) <==> ListBlames(m, p) { ListProblemsBlame(m, p); }
  }
}
