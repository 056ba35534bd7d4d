/** A small published schedule, varied in one place at a time: how a validated day can still be refused. */
module DailyGaps {
  import opened Text
  import opened Json
  import opened JsonEquality
  import opened PythonValues
  import opened ContentHashes
  import opened ArtifactScans
  import opened RoundChecks
  import opened ConnectionRounds
  import opened ManifestValidator
  import opened DailyManifest
  import opened RoundSamples

  /** A setup, and what varies besides: the parsers, and the text the one scheduled date is written as. */
  datatype Edition = Edition(
    setup: Setup,
    parseDate: string -> Option<int>,
    parseTime: string -> Option<int>,
    raw: string)

  /** The editions the validators accept. */
  ghost predicate Accepted(x: Edition, day: int) {
    && Plausible(x.setup) && HexDigest(x.setup.py.sha)
    && x.raw != "" && x.parseDate(x.raw) == Some(day) && x.parseDate("") == None && x.parseTime("t").Some?
  }

  // ---------- The parts, by what is read of them ----------

  ghost predicate GenerationIs(g: Json, x: Setup, version: Json) {
    && g.Obj? && Plain(g) && Keys(g.fields) == GENERATION_KEYS
    && Member(g, "generation_id") == Str("g") && Member(g, "catalog_version") == x.catalog
    && Member(g, "pool_version") == Str("p") && Member(g, "artifact_version") == version
    && Member(g, "rounds_url") == Str("u")
  }

  ghost predicate EntryIs(e: Json, x: Edition, round: Json) {
    && e.Obj? && Plain(e) && Keys(e.fields) == ENTRY_KEYS
    && Member(e, "date") == Str(x.raw) && Member(e, "round_id") == Str("conn-0123456789")
    && Member(e, "round_fingerprint") == Str(Fingerprint(x.setup.py.sha, round)) && Member(e, "generation") == Str("g")
  }

  ghost predicate ManifestIs(m: Json, x: Edition, g: Json, e: Json) {
    && m.Obj? && Plain(m) && Keys(m.fields) == TOP_KEYS
    && Member(m, "schema_version") == Num(2) && Member(m, "mode") == Str(MODE) && Member(m, "generated_at") == Str("t")
    && Member(m, "start_date") == Str(x.raw) && Member(m, "generations") == Arr([g]) && Member(m, "schedule") == Arr([e])
  }

  const ROUND_KEYS := {"id", "pool", "kind", "difficulty", "answer_set", "evidence"}

  /** A one-hop round with one answer and the evidence for it, and nothing else. */
  ghost predicate RoundIs(r: Json) {
    && r.Obj? && Fit(r) && Keys(r.fields) == ROUND_KEYS
    && Member(r, "id") == Str("conn-0123456789") && Member(r, "pool") == Str("real-records")
    && Member(r, "kind") == Str("one_hop") && Member(r, "difficulty") == Str("easy")
    && Member(r, "answer_set") == Arr([ANSWER]) && Member(r, "evidence") == Arr([EVIDENCE])
  }

  const ANSWER := Named(Num(1))
  const EVIDENCE := Row(Num(1))

  // ---------- Making them ----------

  lemma GenerationKeys(f: seq<Field>)
    requires |f| == 5
    requires f[0].key == "generation_id" && f[1].key == "catalog_version" && f[2].key == "pool_version"
    requires f[3].key == "artifact_version" && f[4].key == "rounds_url"
    ensures DistinctKeys(f) && Keys(f) == GENERATION_KEYS && Member(Obj(f), "kind") == Null
    ensures forall i :: 0 <= i < 5 ==> Unremarkable(f[i].key)
  {
    assert |f[0].key| == 13 && |f[1].key| == 15 && |f[2].key| == 12 && |f[3].key| == 16 && |f[4].key| == 10 && |"kind"| == 4;
    assert f[0].key[0] == 'g' && f[1].key[0] == 'c' && f[2].key[0] == 'p' && f[3].key[0] == 'a' && f[4].key[0] == 'r';
    ByLength(f, [13, 15, 12, 16, 10]);
    KeysAre(f, GENERATION_KEYS);
  }

  lemma MakeGeneration(x: Setup, version: string) returns (g: Json)
    requires Plain(x.catalog)
    ensures GenerationIs(g, x, Str(version))
  {
    var f := [Field("generation_id", Str("g")), Field("catalog_version", x.catalog), Field("pool_version", Str("p")),
              Field("artifact_version", Str(version)), Field("rounds_url", Str("u"))];
    GenerationKeys(f);
    MembersRead(f);
    SimpleArePlain();
    PlainFive(f);
    g := Obj(f);
    assert Member(g, f[0].key) == f[0].value && Member(g, f[1].key) == f[1].value;
    assert Member(g, f[2].key) == f[2].value && Member(g, f[3].key) == f[3].value && Member(g, f[4].key) == f[4].value;
  }

  lemma PlainFive(f: seq<Field>)
    requires |f| == 5 && Member(Obj(f), "kind") == Null && forall i :: 0 <= i < 5 ==> Unremarkable(f[i].key)
    requires Plain(f[0].value) && Plain(f[1].value) && Plain(f[2].value) && Plain(f[3].value) && Plain(f[4].value)
    ensures Plain(Obj(f))
  {
    forall i | 0 <= i < 5 ensures Plain(f[i].value) { assert i in {0, 1, 2, 3, 4}; }
    PlainObject(f);
  }

  lemma EntryKeys(f: seq<Field>)
    requires |f| == 4
    requires f[0].key == "date" && f[1].key == "round_id" && f[2].key == "round_fingerprint" && f[3].key == "generation"
    ensures DistinctKeys(f) && Keys(f) == ENTRY_KEYS && Member(Obj(f), "kind") == Null
    ensures forall i :: 0 <= i < 4 ==> Unremarkable(f[i].key)
  {
    assert |f[0].key| == 4 && |f[1].key| == 8 && |f[2].key| == 17 && |f[3].key| == 10;
    assert f[0].key[0] == 'd' && f[1].key[0] == 'r' && f[2].key[0] == 'r' && f[3].key[0] == 'g' && "kind"[0] == 'k';
    ByLength(f, [4, 8, 17, 10]);
    KeysAre(f, ENTRY_KEYS);
  }

  lemma MakeEntry(x: Edition, round: Json) returns (e: Json)
    ensures EntryIs(e, x, round)
  {
    var mark := Fingerprint(x.setup.py.sha, round);
    var f := [Field("date", Str(x.raw)), Field("round_id", Str("conn-0123456789")),
              Field("round_fingerprint", Str(mark)), Field("generation", Str("g"))];
    EntryKeys(f);
    MembersRead(f);
    SimpleArePlain();
    forall i | 0 <= i < 4 ensures Plain(f[i].value) { assert i in {0, 1, 2, 3}; }
    PlainObject(f);
    e := Obj(f);
    assert Member(e, f[0].key) == f[0].value && Member(e, f[1].key) == f[1].value;
    assert Member(e, f[2].key) == f[2].value && Member(e, f[3].key) == f[3].value;
  }

  lemma ManifestKeys(f: seq<Field>)
    requires |f| == 6
    requires f[0].key == "schema_version" && f[1].key == "mode" && f[2].key == "generated_at"
    requires f[3].key == "start_date" && f[4].key == "generations" && f[5].key == "schedule"
    ensures DistinctKeys(f) && Keys(f) == TOP_KEYS && Member(Obj(f), "kind") == Null
    ensures forall i :: 0 <= i < 6 ==> Unremarkable(f[i].key)
  {
    assert |f[0].key| == 14 && |f[1].key| == 4 && |f[2].key| == 12 && |f[3].key| == 10 && |f[4].key| == 11 && |f[5].key| == 8;
    assert f[0].key[0] == 's' && f[1].key[0] == 'm' && f[2].key[0] == 'g' && f[3].key[0] == 's' && f[4].key[0] == 'g' && f[5].key[0] == 's';
    assert "kind"[0] == 'k' && |"kind"| == 4;
    ByLength(f, [14, 4, 12, 10, 11, 8]);
    KeysAre(f, TOP_KEYS);
  }

  function ManifestFields(x: Edition, g: Json, e: Json): seq<Field> {
    [Field("schema_version", Num(2)), Field("mode", Str(MODE)), Field("generated_at", Str("t")),
     Field("start_date", Str(x.raw)), Field("generations", Arr([g])), Field("schedule", Arr([e]))]
  }

  lemma PlainSix(f: seq<Field>)
    requires |f| == 6 && Member(Obj(f), "kind") == Null && forall i :: 0 <= i < 6 ==> Unremarkable(f[i].key)
    requires Plain(f[0].value) && Plain(f[1].value) && Plain(f[2].value)
    requires Plain(f[3].value) && Plain(f[4].value) && Plain(f[5].value)
    ensures Plain(Obj(f))
  {
    forall i | 0 <= i < 6 ensures Plain(f[i].value) { assert i in {0, 1, 2, 3, 4, 5}; }
    PlainObject(f);
  }

  lemma ManifestPlain(x: Edition, g: Json, e: Json, f: seq<Field>)
    requires f == ManifestFields(x, g, e) && Plain(g) && Plain(e)
    ensures Plain(Obj(f))
  {
    ManifestKeys(f);
    PlainItems([g]);
    PlainItems([e]);
    PlainTexts(x, g, e, f);
    PlainSix(f);
  }

  lemma PlainTexts(x: Edition, g: Json, e: Json, f: seq<Field>)
    requires f == ManifestFields(x, g, e)
    ensures Plain(f[0].value) && Plain(f[1].value) && Plain(f[2].value) && Plain(f[3].value)
    ensures f[4].value == Arr([g]) && f[5].value == Arr([e])
  {
    SimpleArePlain();
  }

  lemma ReadManifest(x: Edition, g: Json, e: Json, f: seq<Field>)
    requires f == ManifestFields(x, g, e)
    ensures Keys(f) == TOP_KEYS && forall i :: 0 <= i < 6 ==> Member(Obj(f), f[i].key) == f[i].value
  {
    ManifestKeys(f);
    MembersRead(f);
  }

  lemma MakeManifest(x: Edition, g: Json, e: Json) returns (m: Json)
    requires Plain(g) && Plain(e)
    ensures ManifestIs(m, x, g, e)
  {
    var f := ManifestFields(x, g, e);
    ReadManifest(x, g, e, f);
    ManifestPlain(x, g, e, f);
    m := Obj(f);
    assert Member(m, f[0].key) == f[0].value && Member(m, f[1].key) == f[1].value;
    assert Member(m, f[2].key) == f[2].value && Member(m, f[3].key) == f[3].value;
    assert Member(m, f[4].key) == f[4].value && Member(m, f[5].key) == f[5].value;
  }

  lemma RoundKeys(f: seq<Field>)
    requires |f| == 6
    requires f[0].key == "id" && f[1].key == "pool" && f[2].key == "kind"
    requires f[3].key == "difficulty" && f[4].key == "answer_set" && f[5].key == "evidence"
    ensures DistinctKeys(f) && Keys(f) == ROUND_KEYS && forall i :: 0 <= i < 6 ==> Unremarkable(f[i].key)
  {
    var lengths := [2, 4, 4, 10, 10, 8];
    assert forall i :: 0 <= i < 6 ==> |f[i].key| == lengths[i];
    assert f[0].key[0] == 'i' && f[1].key[0] == 'p' && f[2].key[0] == 'k' && f[3].key[0] == 'd' && f[4].key[0] == 'a' && f[5].key[0] == 'e';
    forall i, j | 0 <= i < j < 6 ensures f[i].key != f[j].key {
      assert lengths[i] != lengths[j] || (i == 1 && j == 2) || (i == 3 && j == 4);
    }
    KeysAre(f, ROUND_KEYS);
  }

  function RoundFields(): seq<Field> {
    [Field("id", Str("conn-0123456789")), Field("pool", Str("real-records")), Field("kind", Str("one_hop")),
     Field("difficulty", Str("easy")), Field("answer_set", Arr([ANSWER])), Field("evidence", Arr([EVIDENCE]))]
  }

  lemma PartsFit()
    ensures Fit(Arr([ANSWER])) && Fit(Arr([EVIDENCE]))
    ensures Member(ANSWER, "id") == Num(1) && Member(EVIDENCE, "contributor_id") == Num(1)
  {
    NamedRead(Num(1));
    FitItems([ANSWER]);
    FitItems([EVIDENCE]);
  }

  lemma RoundFit(f: seq<Field>)
    requires f == RoundFields() && DistinctKeys(f) && forall i :: 0 <= i < 6 ==> Unremarkable(f[i].key)
    requires Member(Obj(f), "kind") == Str("one_hop")
    ensures Fit(Obj(f))
  {
    PartsFit();
    SimpleArePlain();
    forall i | 0 <= i < 6 ensures Plain(f[i].value) && Proper(f[i].value) { assert i in {0, 1, 2, 3, 4, 5}; }
    ProperObject(f);
    assert |"one_hop"| == 7 && |"hotlink"| == 7 && "one_hop"[0] == 'o' && "hotlink"[0] == 'h';
    StringsEqual(Str("one_hop"), "hotlink");
    PlainObject(f);
  }

  lemma MakeRound() returns (r: Json)
    ensures RoundIs(r)
  {
    var f := RoundFields();
    assert f[0].key == "id" && f[1].key == "pool" && f[2].key == "kind";
    assert f[3].key == "difficulty" && f[4].key == "answer_set" && f[5].key == "evidence";
    RoundKeys(f);
    MembersRead(f);
    r := Obj(f);
    assert Member(r, f[0].key) == f[0].value && Member(r, f[1].key) == f[1].value && Member(r, f[2].key) == f[2].value;
    assert Member(r, f[3].key) == f[3].value && Member(r, f[4].key) == f[4].value && Member(r, f[5].key) == f[5].value;
    RoundFit(f);
  }

  // ---------- The round passes ----------

  /** A key of another length is none of the round's. */
  lemma NotAKey(key: string)
    requires |key| !in {2, 4, 8, 10}
    ensures key !in ROUND_KEYS
  {
    assert |"id"| == 2 && |"pool"| == 4 && |"kind"| == 4 && |"difficulty"| == 10 && |"answer_set"| == 10 && |"evidence"| == 8;
  }

  lemma Absent(r: Json, key: string)
    requires RoundIs(r) && |key| !in {2, 4, 8, 10}
    ensures Member(r, key) == Null && ListUnder(r, key) == Arr([])
  {
    NotAKey(key);
  }

  lemma AbsentLists(r: Json)
    requires RoundIs(r)
    ensures ListUnder(r, "endpoints") == Arr([]) && ListUnder(r, "distractors") == Arr([]) && ListUnder(r, "clues") == Arr([])
    ensures Bridges(r) == Arr([]) && Member(r, "endpoints") == Null
  {
    assert |"endpoints"| == 9 && |"distractors"| == 11 && |"clues"| == 5 && |"bridge_answer_sets"| == 18;
    Absent(r, "endpoints");
    Absent(r, "distractors");
    Absent(r, "clues");
    Absent(r, "bridge_answer_sets");
  }

  lemma IdsRead(r: Json)
    requires RoundIs(r)
    ensures NonEmpty(ListUnder(r, "answer_set")) && NonEmpty(ListUnder(r, "evidence"))
    ensures ValidIds(r) == [Num(1)] && EvidenceIds(r) == [Num(1)]
  {
    IsThere(r, "answer_set", Arr([]));
    IsThere(r, "evidence", Arr([]));
    AbsentLists(r);
    PartsIds();
    IdsFrom(r, [ANSWER], [EVIDENCE], [Num(1)]);
  }

  lemma PartsIds()
    ensures IdsUnder([ANSWER], "id") == [Num(1)] && IdsUnder([EVIDENCE], "contributor_id") == [Num(1)]
  {
    PartsFit();
    OneId([ANSWER], ANSWER, "id");
    OneId([EVIDENCE], EVIDENCE, "contributor_id");
  }

  lemma OneHopIsNotTwo()
    ensures "one_hop" != "two_hop"
  {
    assert "one_hop"[0] == 'o' && "two_hop"[0] == 't';
  }

  lemma RoundPasses(r: Json)
    requires RoundIs(r)
    ensures AllPass([r], [], []) && Endless(r)
  {
    RoundReads(r);
    PassesWith(r, [Num(1)]);
  }

  lemma RoundReads(r: Json)
    requires RoundIs(r)
    ensures ReadsAs(r, [Num(1)])
  {
    AbsentLists(r);
    IdsRead(r);
    NotTwoHop(r);
  }

  lemma NotTwoHop(r: Json)
    requires RoundIs(r)
    ensures Member(r, "kind") != Str("two_hop")
  {
    OneHopIsNotTwo();
  }

  lemma RoundIsGood(sha: string -> string, r: Json)
    requires RoundIs(r)
    ensures GoodRound(sha, r)
  {
    SampleId();
    AbsentLists(r);
    NothingRecomputed(sha, r);
    GoodFrom(sha, r, "conn-0123456789");
  }

  lemma OneRound(sha: string -> string, r: Json)
    requires RoundIs(r)
    ensures GoodRounds(sha, [r]) && GoodRounds(sha, [])
    ensures EligibleRound([r], "conn-0123456789") == Some(r)
  {
    RoundIsGood(sha, r);
    OneGoodRound(sha, r);
    StringsEqual(Member(r, "pool"), "real-records");
    StringsEqual(Member(r, "kind"), "one_hop");
  }

  // ---------- The sample ----------

  /** The published schedule of one day. `bare` is an artifact without rounds under the same versions
      whenever the snapshot date is no text. */
  datatype Sample = Sample(
    manifest: Json, generation: Json, entry: Json, round: Json,
    provenance: Json, own: Json, universe: Json, bare: Json)

  ghost predicate IsSample(x: Edition, s: Sample) {
    var version := VersionOf(x.setup, [s.round]);
    && RoundIs(s.round) && ProvenanceIs(s.provenance, x.setup, version)
    && ArtifactIs(s.own, x.setup, s.provenance, [s.round]) && ArtifactIs(s.bare, x.setup, s.provenance, [])
    && UniverseIs(s.universe, s.provenance, [])
    && GenerationIs(s.generation, x.setup, version) && EntryIs(s.entry, x, s.round)
    && ManifestIs(s.manifest, x, s.generation, s.entry)
  }

  lemma MakeSample(x: Edition) returns (s: Sample)
    requires Plausible(x.setup)
    ensures IsSample(x, s)
  {
    var round := MakeRound();
    PlainItems([round]);
    assert Fit(Arr([round])) && Fit(Arr([]));
    var p := MakeProvenance(x.setup, [round]);
    var own := MakeArtifact(x.setup, p, [round]);
    var bare := MakeArtifact(x.setup, p, []);
    var universe := MakeUniverse(p, []);
    var g := MakeGeneration(x.setup, VersionOf(x.setup, [round]).s);
    var e := MakeEntry(x, round);
    var m := MakeManifest(x, g, e);
    s := Sample(m, g, e, round, p, own, universe, bare);
  }

  function WorldOf(x: Edition, s: Sample): World {
    World(x.setup.py, x.parseDate, x.parseTime, map["g" := s.own])
  }

  /** The publication around the sample: nothing in it prints as something forbidden, and its artifact is served. */
  ghost predicate Around(x: Edition, s: Sample, fetch: string -> Option<Json>) {
    && Heard(x.setup.py, s.universe, s.own, s.provenance) && Heard(x.setup.py, s.universe, s.bare, s.provenance)
    && Discreet(x.setup.py, s.manifest) && fetch("u") == Some(s.own)
  }

  // ---------- It is valid ----------

  lemma OwnPasses(x: Edition, day: int, s: Sample, fetch: string -> Option<Json>)
    requires Accepted(x, day) && IsSample(x, s) && Around(x, s, fetch)
    ensures Passed(WorldOf(x, s), s.universe, s.own)
  {
    OneRound(x.setup.py.sha, s.round);
    RoundPasses(s.round);
    PairPasses(x.setup, s.universe, s.own, s.provenance, [], [s.round]);
  }

  lemma BarePasses(x: Edition, day: int, s: Sample, fetch: string -> Option<Json>)
    requires Accepted(x, day) && IsSample(x, s) && Around(x, s, fetch) && !x.setup.snapshot.Str?
    ensures Passed(WorldOf(x, s), s.universe, s.bare)
  {
    PairPasses(x.setup, s.universe, s.bare, s.provenance, [], []);
  }

  lemma FingerprintMatches(sha: string -> string, v: Json)
    requires HexDigest(sha)
    ensures Matches("rfp-", 16, Fingerprint(sha, v))
  {
    var t := Fingerprint(sha, v);
    var d := sha(CanonicalJson(v));
    assert |d| == 64;
    assert t == "rfp-" + d[..16];
    forall i | 4 <= i < 20 ensures IsHex(t[i]) { assert t[i] == d[i - 4]; }
    assert t[20..] == "";
  }

  lemma VersionsFit(x: Setup, g: Json, p: Json, version: Json)
    requires ProvenanceIs(p, x, version) && GenerationIs(g, x, version)
    ensures forall k :: k in VERSION_FIELDS ==> VersionFits(g, p, k)
  {
    Reflexive(true, x.catalog);
    Reflexive(true, Str("p"));
    Reflexive(true, version);
    assert VersionFits(g, p, "catalog_version") && VersionFits(g, p, "pool_version") && VersionFits(g, p, "artifact_version");
  }

  lemma GenerationPasses(w: World, x: Setup, g: Json, own: Json, p: Json, version: Json, rounds: seq<Json>)
    requires GenerationIs(g, x, version) && ArtifactIs(own, x, p, rounds) && ProvenanceIs(p, x, version)
    requires Truthy(x.catalog) && Truthy(version) && w.artifacts == map["g" := own]
    ensures GoodGeneration(w, g)
  {
    VersionsFit(x, g, p, version);
    FieldsThere(x, g, version);
  }

  lemma FieldsThere(x: Setup, g: Json, version: Json)
    requires GenerationIs(g, x, version) && Truthy(x.catalog) && Truthy(version)
    ensures forall k :: k in VERSION_FIELDS + ["rounds_url"] ==> Truthy(Member(g, k))
  {
    var names := VERSION_FIELDS + ["rounds_url"];
    assert names[0] == "catalog_version" && names[1] == "pool_version" && names[2] == "artifact_version" && names[3] == "rounds_url";
    forall i | 0 <= i < 4 ensures Truthy(Member(g, names[i])) {
      assert i in {0, 1, 2, 3};
    }
  }

  lemma EntryPasses(x: Edition, day: int, w: World, own: Json, p: Json, e: Json, round: Json)
    requires Accepted(x, day) && w.py == x.setup.py && w.parseDate == x.parseDate && w.artifacts == map["g" := own]
    requires RoundIs(round) && ArtifactIs(own, x.setup, p, [round]) && EntryIs(e, x, round)
    ensures GoodEntry(w, {"g"}, e) && DateOf(w, e) == Some(day)
  {
    OneRound(x.setup.py.sha, round);
    FingerprintMatches(x.setup.py.sha, round);
    assert IsRoundId(Str("conn-0123456789"));
    assert RoundsOf(own) == [round];
  }

  lemma OneEntry(w: World, e: Json)
    requires GoodEntry(w, {"g"}, e)
    ensures GoodSchedule(w, {"g"}, [e])
  {
  }

  lemma OneGeneration(w: World, g: Json)
    requires GoodGeneration(w, g) && Member(g, "generation_id") == Str("g")
    ensures GoodGenerations(w, [g]) && GenerationIds([g]) == {"g"}
  {
    assert [g][0] in [g];
  }

  lemma FieldsPass(x: Edition, day: int, w: World, m: Json, g: Json, e: Json)
    requires Accepted(x, day) && w.parseDate == x.parseDate && w.parseTime == x.parseTime && ManifestIs(m, x, g, e)
    ensures GoodFields(w, m)
  {
    Reflexive(true, Num(2));
  }

  /** The sample manifest is valid. */
  lemma ManifestPasses(x: Edition, day: int, s: Sample)
    requires Accepted(x, day) && IsSample(x, s) && Discreet(x.setup.py, s.manifest)
    ensures ValidManifest(WorldOf(x, s), s.manifest)
    ensures Generations(s.manifest) == [s.generation] && Schedule(s.manifest) == [s.entry]
    ensures StartDay(WorldOf(x, s), s.manifest) == day
  {
    var w := WorldOf(x, s);
    VersionTruthy(x.setup, [s.round]);
    GenerationPasses(w, x.setup, s.generation, s.own, s.provenance, VersionOf(x.setup, [s.round]), [s.round]);
    OneGeneration(w, s.generation);
    EntryPasses(x, day, w, s.own, s.provenance, s.entry, s.round);
    OneEntry(w, s.entry);
    FieldsPass(x, day, w, s.manifest, s.generation, s.entry);
  }

  lemma OnlyPublished(
      w: World, m: Json, g: Json, universes: map<string, Json>, fetch: string -> Option<Json>)
    requires Generations(m) == [g] && IsPublished(w, g, universes, fetch)
    ensures Published(w, m, universes, fetch)
  {
  }

  /** The theorem, for the first day. */
  lemma FirstDayResolves(
      w: World, m: Json, day: int, date: string, universes: map<string, Json>, universe: Json, loaded: Json, fetch: string -> Option<Json>)
    returns (g: Json, own: Json)
    requires ValidManifest(w, m) && 0 < |Schedule(m)| && StartDay(w, m) == day
    requires Published(w, m, universes, fetch)
    requires w.parseDate(date) == Some(day) && w.parseDate("") == None
    requires Trusted(w, m, 0, universe, loaded)
    ensures g in Generations(m) && Member(g, "generation_id").Str? && Member(g, "generation_id").s in w.artifacts
    ensures own == w.artifacts[Member(g, "generation_id").s]
    ensures ResolveDay(w.py.sha, m, loaded, date, fetch).Resolved? <==> Readable(w.py.sha, date, Schedule(m)[0], g, loaded, own)
  {
    var n: nat := 0;
    assert StartDay(w, m) + n == day;
    g := ScheduledDayResolves(w, m, n, date, universes, universe, loaded, fetch);
    own := w.artifacts[Member(g, "generation_id").s];
  }

  /** The theorem, for a manifest of one generation and one entry. */
  lemma OneDay(
      w: World, m: Json, g: Json, e: Json, day: int, date: string, universes: map<string, Json>, universe: Json, own: Json, loaded: Json, fetch: string -> Option<Json>)
    requires ValidManifest(w, m) && Generations(m) == [g] && Schedule(m) == [e] && StartDay(w, m) == day
    requires Published(w, m, universes, fetch)
    requires w.parseDate(date) == Some(day) && w.parseDate("") == None
    requires Trusted(w, m, 0, universe, loaded)
    requires Member(g, "generation_id") == Str("g") && "g" in w.artifacts && w.artifacts["g"] == own
    ensures ResolveDay(w.py.sha, m, loaded, date, fetch).Resolved? <==> Readable(w.py.sha, date, e, g, loaded, own)
  {
    var h, o := FirstDayResolves(w, m, day, date, universes, universe, loaded, fetch);
    assert h == g && o == own && Schedule(m)[0] == e;
  }

  lemma NothingInHand(w: World, m: Json, g: Json, universe: Json)
    requires ValidManifest(w, m) && Schedule(m) != []
    ensures !Carries(Null, g) && Trusted(w, m, 0, universe, Null)
  {
    NothingCarriesNull(m);
    assert !Carries(Null, g);
  }

  lemma NothingCarriesNull(m: Json)
    ensures !IsGameRoundsArtifact(Null) && !CarriesSome(m, Null)
  {
  }

  lemma NoRoundsInHand(w: World, m: Json, universe: Json, loaded: Json)
    requires ValidManifest(w, m) && Schedule(m) != [] && Passed(w, universe, loaded) && RoundsOf(loaded) == []
    ensures Trusted(w, m, 0, universe, loaded)
  {
  }

  lemma SampleIsPublished(x: Edition, day: int, s: Sample, fetch: string -> Option<Json>)
    requires Accepted(x, day) && IsSample(x, s) && Around(x, s, fetch)
    ensures IsPublished(WorldOf(x, s), s.generation, map["g" := s.universe], fetch)
  {
    OwnPasses(x, day, s, fetch);
  }

  /** What the theorem says of the sample, asked for on its day under a text of any spelling, with
      nothing in hand. */
  lemma SampleDay(
      x: Edition, day: int, s: Sample, date: string, fetch: string -> Option<Json>)
    requires Accepted(x, day) && IsSample(x, s) && Around(x, s, fetch) && x.parseDate(date) == Some(day)
    ensures ValidManifest(WorldOf(x, s), s.manifest)
    ensures ResolveDay(x.setup.py.sha, s.manifest, Null, date, fetch).Resolved?
      <==> Readable(x.setup.py.sha, date, s.entry, s.generation, Null, s.own)
    ensures !Carries(Null, s.generation)
  {
    var w := WorldOf(x, s);
    ManifestPasses(x, day, s);
    SampleIsPublished(x, day, s, fetch);
    NothingInHand(w, s.manifest, s.generation, s.universe);
    var universes := map["g" := s.universe];
    OnlyPublished(w, s.manifest, s.generation, universes, fetch);
    OneDay(w, s.manifest, s.generation, s.entry, day, date, universes, s.universe, s.own, Null, fetch);
  }

  /** And with the artifact in hand that holds no rounds. */
  lemma SampleDayInHand(x: Edition, day: int, s: Sample, fetch: string -> Option<Json>)
    requires Accepted(x, day) && IsSample(x, s) && Around(x, s, fetch) && !x.setup.snapshot.Str?
    ensures ValidManifest(WorldOf(x, s), s.manifest) && Passed(WorldOf(x, s), s.universe, s.bare)
    ensures RoundsOf(s.bare) == []
    ensures ResolveDay(x.setup.py.sha, s.manifest, s.bare, x.raw, fetch).Resolved?
      <==> Readable(x.setup.py.sha, x.raw, s.entry, s.generation, s.bare, s.own)
  {
    var w := WorldOf(x, s);
    ManifestPasses(x, day, s);
    SampleIsPublished(x, day, s, fetch);
    BarePasses(x, day, s, fetch);
    NoRoundsInHand(w, s.manifest, s.universe, s.bare);
    var universes := map["g" := s.universe];
    OnlyPublished(w, s.manifest, s.generation, universes, fetch);
    OneDay(w, s.manifest, s.generation, s.entry, day, x.raw, universes, s.universe, s.own, s.bare, fetch);
  }

  // ---------- The four gaps, and no other ----------

  lemma PlainIsReadable(x: Edition, s: Sample)
    requires EntryIs(s.entry, x, s.round) && GenerationIs(s.generation, x.setup, VersionOf(x.setup, [s.round]))
    requires ArtifactIs(s.own, x.setup, s.provenance, [s.round])
    requires IsText(x.setup.catalog) && x.setup.schema == Num(1) && !Carries(Null, s.generation)
    ensures Readable(x.setup.py.sha, x.raw, s.entry, s.generation, Null, s.own)
  {
    VersionTruthy(x.setup, [s.round]);
  }

  /** With texts for its versions, the number 1 for a schema version and its date asked for as it is
      written, the sample's day resolves: what the theorem asks for can be met. */
  lemma PlainDayResolves(x: Edition, day: int, s: Sample, fetch: string -> Option<Json>)
    requires Accepted(x, day) && IsSample(x, s) && Around(x, s, fetch)
    requires IsText(x.setup.catalog) && x.setup.schema == Num(1)
    ensures ValidManifest(WorldOf(x, s), s.manifest)
    ensures ResolveDay(x.setup.py.sha, s.manifest, Null, x.raw, fetch).Resolved?
  {
    SampleDay(x, day, s, x.raw, fetch);
    PlainIsReadable(x, s);
  }

  /** A catalog version that is the number 7 on both sides. */
  lemma NumberedVersionRefused(x: Edition, day: int, s: Sample, fetch: string -> Option<Json>)
    requires Accepted(x, day) && IsSample(x, s) && Around(x, s, fetch) && x.setup.catalog == Num(7)
    ensures ValidManifest(WorldOf(x, s), s.manifest)
    ensures ResolveDay(x.setup.py.sha, s.manifest, Null, x.raw, fetch).Refused?
  {
    SampleDay(x, day, s, x.raw, fetch);
    assert !IsGeneration(s.generation);
  }

  /** A schema version that is the boolean true, which Python takes for 1. */
  lemma TrueSchemaRefused(x: Edition, day: int, s: Sample, fetch: string -> Option<Json>)
    requires Accepted(x, day) && IsSample(x, s) && Around(x, s, fetch) && x.setup.schema == Bool(true)
    ensures ValidManifest(WorldOf(x, s), s.manifest)
    ensures ResolveDay(x.setup.py.sha, s.manifest, Null, x.raw, fetch).Refused?
  {
    SampleDay(x, day, s, x.raw, fetch);
    assert !Member(s.own, "schema_version").Num?;
  }

  /** A date written in another ISO spelling than the calendar's. */
  lemma OtherSpellingRefused(x: Edition, day: int, s: Sample, fetch: string -> Option<Json>)
    requires Accepted(x, day) && IsSample(x, s) && Around(x, s, fetch)
    requires x.raw == "20240101" && x.parseDate("2024-01-01") == Some(day)
    ensures ValidManifest(WorldOf(x, s), s.manifest)
    ensures ResolveDay(x.setup.py.sha, s.manifest, Null, "2024-01-01", fetch).Refused?
  {
    SampleDay(x, day, s, "2024-01-01", fetch);
    assert |x.raw| == 8 && |"2024-01-01"| == 10;
    assert Member(s.entry, "date") != Str("2024-01-01");
  }

  lemma BareCarries(x: Edition, s: Sample)
    requires IsText(x.setup.catalog) && x.setup.schema == Num(1)
    requires GenerationIs(s.generation, x.setup, VersionOf(x.setup, [s.round])) && ProvenanceIs(s.provenance, x.setup, VersionOf(x.setup, [s.round]))
    requires ArtifactIs(s.bare, x.setup, s.provenance, [])
    ensures Carries(s.bare, s.generation)
  {
    VersionTruthy(x.setup, [s.round]);
  }

  /** A snapshot date that is a number: the artifact version is not checked against the rounds, so an
      artifact without rounds passes under the same versions; preloaded, it hides the entry's round. */
  lemma NumberedSnapshotRefused(x: Edition, day: int, s: Sample, fetch: string -> Option<Json>)
    requires Accepted(x, day) && IsSample(x, s) && Around(x, s, fetch)
    requires x.setup.snapshot == Num(7) && IsText(x.setup.catalog) && x.setup.schema == Num(1)
    ensures ValidManifest(WorldOf(x, s), s.manifest) && Passed(WorldOf(x, s), s.universe, s.bare)
    ensures Carries(s.bare, s.generation)
    ensures ResolveDay(x.setup.py.sha, s.manifest, s.bare, x.raw, fetch).Refused?
  {
    SampleDayInHand(x, day, s, fetch);
    BareCarries(x, s);
    assert !HoldsEntry(x.setup.py.sha, s.bare, s.entry);
  }

  // ---------- Such publications exist ----------

  /** Parsers that read two spellings of one day. */
  lemma MakeEdition(catalog: Json, schema: Json, snapshot: Json, py: Python) returns (x: Edition)
    requires HexDigest(py.sha) && Plausible(Setup(py, catalog, schema, snapshot))
    ensures Accepted(x, 19723) && x.setup == Setup(py, catalog, schema, snapshot)
    ensures x.raw == "20240101" && x.parseDate("2024-01-01") == Some(19723)
  {
    var parseDate := (t: string) => if |t| == 8 || |t| == 10 then Some(19723) else None;
    var parseTime := (t: string) => Some(0);
    assert |"20240101"| == 8 && |"2024-01-01"| == 10;
    x := Edition(Setup(py, catalog, schema, snapshot), parseDate, parseTime, "20240101");
  }

  /** For every choice of the variable parts there is a sample, and a publication of it. */
  lemma EverySampleExists(catalog: Json, schema: Json, snapshot: Json)
    returns (x: Edition, s: Sample, fetch: string -> Option<Json>)
    requires Truthy(catalog) && PyEqual(schema, Num(1)) && Truthy(snapshot)
    requires Fit(catalog) && Fit(schema) && Fit(snapshot)
    ensures Accepted(x, 19723) && x.setup.catalog == catalog && x.setup.schema == schema && x.setup.snapshot == snapshot
    ensures x.raw == "20240101" && x.parseDate("2024-01-01") == Some(19723)
    ensures IsSample(x, s) && Around(x, s, fetch)
  {
    var py := SimplePython();
    x := MakeEdition(catalog, schema, snapshot, py);
    s := MakeSample(x);
    var own := s.own;
    fetch := (u: string) => Some(own);
  }
}
