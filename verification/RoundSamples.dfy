/** Small published pairs of a universe and its rounds, varied in one place at a time. */
module RoundSamples {
  import opened Text
  import opened Json
  import opened JsonEquality
  import opened PythonValues
  import opened ContentHashes
  import opened ArtifactScans
  import opened RoundIds
  import opened RoundChecks
  import opened Intersections
  import opened ConnectionRounds

  /** What varies: what the validators call, the catalog version, the artifact's schema version and the
      snapshot date. */
  datatype Setup = Setup(py: Python, catalog: Json, schema: Json, snapshot: Json)

  /** A value the scans pass over. */
  predicate Plain(v: Json) {
    SeedFree(v) && ArtFree(v)
  }

  /** A value that may stand in a published artifact. */
  predicate Fit(v: Json) {
    Plain(v) && Proper(v)
  }

  /** The setups the validator accepts: each variable part is all that Python asks of it. */
  ghost predicate Plausible(x: Setup) {
    Truthy(x.catalog) && PyEqual(x.schema, Num(1)) && Truthy(x.snapshot) && Fit(x.catalog) && Fit(x.schema) && Fit(x.snapshot)
  }

  function VersionOf(x: Setup, rounds: seq<Json>): Json {
    Str(if x.snapshot.Str? then ArtifactVersion(x.py.sha, rounds, x.snapshot.s) else "a")
  }

  function Provenance(x: Setup, rounds: seq<Json>): seq<Field> {
    [Field("source", Str("discogs")), Field("license", Str("cc0")), Field("snapshot_date", x.snapshot),
     Field("generated_by", Str("g")), Field("note", Str("n")), Field("catalog_version", x.catalog),
     Field("pool_version", Str("p")), Field("artifact_version", VersionOf(x, rounds))]
  }

  // ---------- The parts, by what is read of them ----------

  ghost predicate ProvenanceIs(p: Json, x: Setup, version: Json) {
    && p.Obj? && Fit(p) && FullProvenance(p)
    && Member(p, "source") == Str("discogs") && Member(p, "generated_by") == Str("g")
    && Member(p, "snapshot_date") == x.snapshot && Member(p, "catalog_version") == x.catalog
    && Member(p, "pool_version") == Str("p") && Member(p, "artifact_version") == version
  }

  ghost predicate ArtifactIs(a: Json, x: Setup, p: Json, rounds: seq<Json>) {
    && a.Obj? && Fit(a) && Keys(a.fields) == ROUNDS_KEYS
    && Member(a, "schema_version") == x.schema && Member(a, "provenance") == p && Member(a, "rounds") == Arr(rounds)
  }

  ghost predicate UniverseIs(u: Json, p: Json, contributors: seq<Json>) {
    && u.Obj? && Plain(u) && Keys(u.fields) == UNIVERSE_KEYS
    && Member(u, "schema_version") == Num(1) && Member(u, "provenance") == p && Member(u, "contributors") == Arr(contributors)
    && Member(u, "albums") == Arr([]) && Member(u, "releases") == Arr([]) && Member(u, "credits") == Arr([])
  }

  // ---------- Reading small objects ----------

  /** Keys of different lengths are different keys. */
  lemma ByLength(f: seq<Field>, lengths: seq<int>)
    requires |lengths| == |f| && forall i :: 0 <= i < |f| ==> |f[i].key| == lengths[i]
    requires forall i, j :: 0 <= i < j < |f| ==> lengths[i] != lengths[j]
    ensures DistinctKeys(f)
  {
    forall i, j | 0 <= i < j < |f| ensures f[i].key != f[j].key {
      assert lengths[i] != lengths[j];
    }
  }

  lemma KeysAre(f: seq<Field>, keys: set<string>)
    requires forall i :: 0 <= i < |f| ==> f[i].key in keys
    requires forall k :: k in keys ==> exists i :: 0 <= i < |f| && f[i].key == k
    ensures Keys(f) == keys
  {
    forall k | k in keys ensures k in Keys(f) {
      var i :| 0 <= i < |f| && f[i].key == k;
      assert f[i] in f;
    }
  }

  lemma ProperObject(f: seq<Field>)
    requires DistinctKeys(f) && forall i :: 0 <= i < |f| ==> Proper(f[i].value)
    ensures Proper(Obj(f))
  {
  }

  /** A key the scans do not look for. */
  predicate Unremarkable(key: string) {
    key != "" && key[0] != 'u' && !(|key| == 4 && key[0] == 's')
  }

  lemma {:induction false} PlainFields(f: seq<Field>)
    requires forall i :: 0 <= i < |f| ==> Unremarkable(f[i].key) && Plain(f[i].value)
    ensures SeedFreeFields(f) && ArtFreeFields(f)
  {
    if f != [] {
      assert f[0].key != "seed";
      PlainFields(f[1..]);
    }
  }

  lemma PlainObject(f: seq<Field>)
    requires forall i :: 0 <= i < |f| ==> Unremarkable(f[i].key) && Plain(f[i].value)
    requires !PyEqual(Member(Obj(f), "kind"), Str("hotlink"))
    ensures Plain(Obj(f))
  {
    PlainFields(f);
  }

  lemma SimpleArePlain()
    ensures (forall s :: Plain(Str(s))) && (forall n :: Plain(Num(n))) && Plain(Arr([]))
  {
  }

  lemma {:induction false} PlainItems(items: seq<Json>)
    requires forall i :: 0 <= i < |items| ==> Plain(items[i])
    ensures Plain(Arr(items))
  {
    if items != [] { PlainItems(items[1..]); }
  }

  // ---------- A universe and its rounds ----------

  /** Two members with one key length between them, told apart by their first letter. */
  lemma ProvenanceKeys(f: seq<Field>)
    requires |f| == 8
    requires f[0].key == "source" && f[1].key == "license" && f[2].key == "snapshot_date" && f[3].key == "generated_by"
    requires f[4].key == "note" && f[5].key == "catalog_version" && f[6].key == "pool_version" && f[7].key == "artifact_version"
    ensures DistinctKeys(f) && forall i :: 0 <= i < 8 ==> Unremarkable(f[i].key) && f[i].key != "kind"
  {
    var lengths := [6, 7, 13, 12, 4, 15, 12, 16];
    assert forall i :: 0 <= i < 8 ==> |f[i].key| == lengths[i];
    assert f[3].key[0] == 'g' && f[6].key[0] == 'p' && f[4].key[0] == 'n';
    assert f[0].key[0] == 's' && f[1].key[0] == 'l' && f[2].key[0] == 's' && f[5].key[0] == 'c' && f[7].key[0] == 'a';
    assert "kind"[0] == 'k' && |"kind"| == 4;
    forall i, j | 0 <= i < j < 8 ensures f[i].key != f[j].key {
      assert lengths[i] != lengths[j] || (i == 3 && j == 6);
    }
  }

  lemma ReadProvenance(x: Setup, rounds: seq<Json>, f: seq<Field>)
    requires f == Provenance(x, rounds)
    ensures DistinctKeys(f) && forall i :: 0 <= i < 8 ==> Member(Obj(f), f[i].key) == f[i].value
    ensures forall i :: 0 <= i < 8 ==> Unremarkable(f[i].key) && f[i].key != "kind"
  {
    ProvenanceKeys(f);
    MembersRead(f);
  }

  lemma ProvenanceFrom(p: Json, x: Setup, version: Json)
    requires p.Obj? && Truthy(x.snapshot) && Truthy(x.catalog) && Truthy(version)
    requires Member(p, "source") == Str("discogs") && Member(p, "license") == Str("cc0")
    requires Member(p, "generated_by") == Str("g") && Member(p, "note") == Str("n")
    requires Member(p, "snapshot_date") == x.snapshot && Member(p, "catalog_version") == x.catalog
    requires Member(p, "pool_version") == Str("p") && Member(p, "artifact_version") == version
    ensures FullProvenance(p)
  {
    var names := REQUIRED_PROVENANCE;
    assert names[0] == "source" && names[1] == "license" && names[2] == "snapshot_date" && names[3] == "generated_by";
    assert names[4] == "note" && names[5] == "catalog_version" && names[6] == "pool_version" && names[7] == "artifact_version";
    forall i | 0 <= i < 8 ensures Truthy(Member(p, names[i])) {
      assert i in {0, 1, 2, 3, 4, 5, 6, 7};
    }
  }

  lemma NoKind(f: seq<Field>)
    requires forall i :: 0 <= i < |f| ==> f[i].key != "kind"
    ensures Member(Obj(f), "kind") == Null
  {
  }

  lemma EightFit(f: seq<Field>)
    requires |f| == 8 && DistinctKeys(f) && forall i :: 0 <= i < 8 ==> Unremarkable(f[i].key) && f[i].key != "kind"
    requires forall i :: 0 <= i < 8 ==> Fit(f[i].value)
    ensures Fit(Obj(f))
  {
    ProperObject(f);
    NoKind(f);
    PlainObject(f);
  }

  lemma ProvenanceValues(x: Setup, rounds: seq<Json>, f: seq<Field>)
    requires f == Provenance(x, rounds) && Fit(x.snapshot) && Fit(x.catalog)
    ensures forall i :: 0 <= i < 8 ==> Fit(f[i].value)
  {
    SimpleArePlain();
    AllEight(f);
  }

  lemma AllEight(f: seq<Field>)
    requires |f| == 8 && Fit(f[0].value) && Fit(f[1].value) && Fit(f[2].value) && Fit(f[3].value)
    requires Fit(f[4].value) && Fit(f[5].value) && Fit(f[6].value) && Fit(f[7].value)
    ensures forall i :: 0 <= i < 8 ==> Fit(f[i].value)
  {
    forall i | 0 <= i < 8 ensures Fit(f[i].value) { assert i in {0, 1, 2, 3, 4, 5, 6, 7}; }
  }

  lemma VersionTruthy(x: Setup, rounds: seq<Json>)
    ensures Truthy(VersionOf(x, rounds))
  {
    if x.snapshot.Str? { assert ArtifactVersion(x.py.sha, rounds, x.snapshot.s)[0] == 'c'; }
  }

  lemma MakeProvenance(x: Setup, rounds: seq<Json>) returns (p: Json)
    requires Plausible(x)
    ensures ProvenanceIs(p, x, VersionOf(x, rounds))
  {
    var f := Provenance(x, rounds);
    ReadProvenance(x, rounds, f);
    ProvenanceValues(x, rounds, f);
    EightFit(f);
    p := Obj(f);
    assert Member(p, f[0].key) == f[0].value && Member(p, f[1].key) == f[1].value;
    assert Member(p, f[2].key) == f[2].value && Member(p, f[3].key) == f[3].value;
    assert Member(p, f[4].key) == f[4].value && Member(p, f[5].key) == f[5].value;
    assert Member(p, f[6].key) == f[6].value && Member(p, f[7].key) == f[7].value;
    VersionTruthy(x, rounds);
    ProvenanceFrom(p, x, VersionOf(x, rounds));
  }

  lemma ArtifactKeys(f: seq<Field>)
    requires |f| == 3 && f[0].key == "schema_version" && f[1].key == "provenance" && f[2].key == "rounds"
    ensures DistinctKeys(f) && Keys(f) == ROUNDS_KEYS && Member(Obj(f), "kind") == Null
    ensures forall i :: 0 <= i < 3 ==> Unremarkable(f[i].key)
  {
    assert |f[0].key| == 14 && |f[1].key| == 10 && |f[2].key| == 6 && |"kind"| == 4;
    assert f[0].key[0] == 's' && f[1].key[0] == 'p' && f[2].key[0] == 'r';
    ByLength(f, [14, 10, 6]);
    KeysAre(f, ROUNDS_KEYS);
  }

  lemma MakeArtifact(x: Setup, p: Json, rounds: seq<Json>) returns (a: Json)
    requires Fit(x.schema) && Fit(p) && Fit(Arr(rounds))
    ensures ArtifactIs(a, x, p, rounds)
  {
    var f := [Field("schema_version", x.schema), Field("provenance", p), Field("rounds", Arr(rounds))];
    ArtifactKeys(f);
    MembersRead(f);
    ProperObject(f);
    PlainObject(f);
    a := Obj(f);
    assert Member(a, f[0].key) == f[0].value && Member(a, f[1].key) == f[1].value && Member(a, f[2].key) == f[2].value;
  }

  lemma UniverseKeys(f: seq<Field>)
    requires |f| == 6
    requires f[0].key == "schema_version" && f[1].key == "provenance" && f[2].key == "albums"
    requires f[3].key == "contributors" && f[4].key == "releases" && f[5].key == "credits"
    ensures DistinctKeys(f) && Keys(f) == UNIVERSE_KEYS && Member(Obj(f), "kind") == Null
    ensures forall i :: 0 <= i < 6 ==> Unremarkable(f[i].key)
  {
    assert |f[0].key| == 14 && |f[1].key| == 10 && |f[2].key| == 6 && |f[3].key| == 12 && |f[4].key| == 8 && |f[5].key| == 7;
    assert f[0].key[0] == 's' && f[1].key[0] == 'p' && f[2].key[0] == 'a' && f[3].key[0] == 'c' && f[4].key[0] == 'r' && f[5].key[0] == 'c';
    assert |"kind"| == 4;
    ByLength(f, [14, 10, 6, 12, 8, 7]);
    KeysAre(f, UNIVERSE_KEYS);
  }

  function UniverseFields(p: Json, contributors: seq<Json>): seq<Field> {
    [Field("schema_version", Num(1)), Field("provenance", p), Field("albums", Arr([])),
     Field("contributors", Arr(contributors)), Field("releases", Arr([])), Field("credits", Arr([]))]
  }

  lemma UniversePlain(p: Json, contributors: seq<Json>, f: seq<Field>)
    requires Plain(p) && Plain(Arr(contributors)) && f == UniverseFields(p, contributors)
    ensures Plain(Obj(f))
  {
    UniverseKeys(f);
    SimpleArePlain();
    forall i | 0 <= i < 6 ensures Plain(f[i].value) { assert i in {0, 1, 2, 3, 4, 5}; }
    PlainObject(f);
  }

  lemma ReadUniverse(p: Json, contributors: seq<Json>, f: seq<Field>)
    requires f == UniverseFields(p, contributors)
    ensures Keys(f) == UNIVERSE_KEYS && forall i :: 0 <= i < 6 ==> Member(Obj(f), f[i].key) == f[i].value
  {
    UniverseKeys(f);
    MembersRead(f);
  }

  lemma MakeUniverse(p: Json, contributors: seq<Json>) returns (u: Json)
    requires Plain(p) && Plain(Arr(contributors))
    ensures UniverseIs(u, p, contributors)
  {
    var f := UniverseFields(p, contributors);
    ReadUniverse(p, contributors, f);
    UniversePlain(p, contributors, f);
    u := Obj(f);
    assert Member(u, f[0].key) == f[0].value && Member(u, f[1].key) == f[1].value && Member(u, f[2].key) == f[2].value;
    assert Member(u, f[3].key) == f[3].value && Member(u, f[4].key) == f[4].value && Member(u, f[5].key) == f[5].value;
  }

  // ---------- It passes ----------

  /** The printed artifacts hold nothing forbidden, and the source reads as it is written. */
  predicate Heard(py: Python, u: Json, a: Json, p: Json) {
    Discreet(py, u) && Discreet(py, a) && RealSource(py, p)
  }

  /** A member that is there is what `get` with a default finds. */
  lemma IsThere(v: Json, key: string, default: Json)
    requires v.Obj? && Member(v, key) != Null
    ensures GetOr(v, key, default) == Member(v, key)
  {
  }

  lemma UniverseIsRead(u: Json, p: Json, contributors: seq<Json>)
    requires UniverseIs(u, p, contributors) && AllHashable(IdsUnder(contributors, "id"))
    ensures UniverseCollects(u) && CreditsCollect(u) && CreditsKnown(u)
    ensures UniverseIds(u, "albums") == [] && UniverseIds(u, "contributors") == IdsUnder(contributors, "id")
  {
    IsThere(u, "albums", Arr([]));
    IsThere(u, "contributors", Arr([]));
    IsThere(u, "releases", Arr([]));
    IsThere(u, "credits", Arr([]));
  }

  /** A round without endpoints is compared with no credits. */
  predicate Endless(round: Json) {
    ListUnder(round, "endpoints") == Arr([])
  }

  lemma EndlessAgree(u: Json, rounds: seq<Json>)
    requires forall i :: 0 <= i < |rounds| ==> Endless(rounds[i])
    ensures AllMatch(u, rounds)
  {
  }

  lemma Pinned(x: Setup, u: Json, a: Json, p: Json, contributors: seq<Json>, rounds: seq<Json>)
    requires Plausible(x) && UniverseIs(u, p, contributors) && ArtifactIs(a, x, p, rounds)
    requires FullProvenance(p) && SnapshotAgrees(x.py.sha, p, rounds) && GoodRounds(x.py.sha, rounds)
    ensures PinnedRounds(x.py.sha, u, a)
  {
    Reflexive(true, p);
    Reflexive(true, Num(1));
  }

  /** Such a pair passes when its rounds do. */
  lemma PairPasses(x: Setup, u: Json, a: Json, p: Json, contributors: seq<Json>, rounds: seq<Json>)
    requires Plausible(x) && UniverseIs(u, p, contributors) && ArtifactIs(a, x, p, rounds)
    requires FullProvenance(p) && SnapshotAgrees(x.py.sha, p, rounds) && GoodRounds(x.py.sha, rounds)
    requires AllHashable(IdsUnder(contributors, "id")) && AllPass(rounds, IdsUnder(contributors, "id"), [])
    requires forall i :: 0 <= i < |rounds| ==> Endless(rounds[i])
    requires Heard(x.py, u, a, p)
    ensures ValidRounds(x.py, u, a)
  {
    Pinned(x, u, a, p, contributors, rounds);
    UniverseIsRead(u, p, contributors);
    EndlessAgree(u, rounds);
  }

  // ---------- What the validators call ----------

  /** A digest of zeros, and a printer that prints texts as they are and nothing else. */
  lemma SimplePython() returns (py: Python)
    ensures HexDigest(py.sha)
    ensures forall v: Json :: v.Obj? ==> Discreet(py, v)
    ensures forall p: Json :: Member(p, "source") == Str("discogs") && Member(p, "generated_by") == Str("g") ==> RealSource(py, p)
  {
    var sha := (t: string) => seq(64, i => '0');
    py := Python(sha, (v: Json) => if v.Str? then v.s else "", (s: string) => s);
    ZeroDigest(sha);
    forall v: Json | v.Obj? ensures Discreet(py, v) { NothingForbidden(py, v); }
    forall p: Json | Member(p, "source") == Str("discogs") && Member(p, "generated_by") == Str("g") ensures RealSource(py, p) {
      PlainSource(py, p);
    }
  }

  lemma ZeroDigest(sha: string -> string)
    requires forall t :: sha(t) == seq(64, i => '0')
    ensures HexDigest(sha)
  {
  }

  lemma NothingForbidden(py: Python, v: Json)
    requires py.text(v) == "" && py.lower("") == ""
    ensures Discreet(py, v)
  {
    var a, b := FORBIDDEN_SUBSTRINGS, FORBIDDEN_PHRASES;
    assert |a[0]| > 0 && |a[1]| > 0 && |a[2]| > 0 && |a[3]| > 0 && |a[4]| > 0;
    assert |b[0]| > 0 && |b[1]| > 0 && |b[2]| > 0;
    forall p | p in a ensures p != "" { }
    forall p | p in b ensures p != "" { }
  }

  lemma PlainSource(py: Python, p: Json)
    requires Member(p, "source") == Str("discogs") && Member(p, "generated_by") == Str("g")
    requires py.lower(py.text(Str("discogs"))) == "discogs" && py.lower(py.text(Str("g"))) == "g"
    ensures RealSource(py, p)
  {
    IsThere(p, "source", Str(""));
    IsThere(p, "generated_by", Str(""));
    assert StandsAt("discogs", "discogs", 0);
    assert |"synthetic"| == 9 && |"ci placeholder"| == 14 && |"g"| == 1;
  }

  // ---------- A round of one's own ----------

  lemma SampleId()
    ensures IsRoundId(Str("conn-0123456789"))
  {
  }

  lemma NothingRecomputed(sha: string -> string, r: Json)
    requires Member(r, "endpoints") == Null
    ensures RecomputedId(sha, r) == None
  {
  }

  lemma GoodFrom(sha: string -> string, r: Json, id: string)
    requires r.Obj? && Member(r, "id") == Str(id) && IsRoundId(Str(id)) && RecomputedId(sha, r) == None
    requires Member(r, "pool") == Str("real-records") && IsKind(Member(r, "kind")) && Member(r, "difficulty") == Str("easy")
    ensures GoodRound(sha, r)
  {
  }

  lemma OneGoodRound(sha: string -> string, r: Json)
    requires GoodRound(sha, r)
    ensures GoodRounds(sha, [r]) && GoodRounds(sha, [])
  {
  }

  lemma OneId(list: seq<Json>, x: Json, key: string)
    requires list == [x] && x.Obj?
    ensures IdsUnder(list, key) == [Member(x, key)]
  {
    assert list[1..] == [];
  }

  lemma TwoIds(list: seq<Json>, x: Json, y: Json, key: string)
    requires list == [x, y] && x.Obj? && y.Obj?
    ensures IdsUnder(list, key) == [Member(x, key), Member(y, key)]
  {
    assert list[1..] == [y];
    OneId(list[1..], y, key);
  }

  lemma IdsFrom(r: Json, answers: seq<Json>, evidence: seq<Json>, ids: seq<Json>)
    requires ListUnder(r, "answer_set") == Arr(answers) && IdsUnder(answers, "id") == ids && Bridges(r) == Arr([])
    requires ListUnder(r, "evidence") == Arr(evidence) && IdsUnder(evidence, "contributor_id") == ids
    ensures ValidIds(r) == ids && EvidenceIds(r) == ids
  {
    assert GroupIds([]) == [];
  }

  predicate NonEmpty(v: Json) {
    v.Arr? && v.items != []
  }

  /** A one-hop round with these answers and evidence for them, and nothing else. */
  predicate ReadsAs(r: Json, ids: seq<Json>) {
    && Member(r, "kind") != Str("two_hop") && Bridges(r) == Arr([])
    && ListUnder(r, "endpoints") == Arr([]) && ListUnder(r, "distractors") == Arr([]) && ListUnder(r, "clues") == Arr([])
    && NonEmpty(ListUnder(r, "answer_set")) && NonEmpty(ListUnder(r, "evidence"))
    && ValidIds(r) == ids && EvidenceIds(r) == ids && AllHashable(ids)
  }

  lemma PassesWith(r: Json, ids: seq<Json>)
    requires ReadsAs(r, ids)
    ensures AllPass([r], [], []) && Endless(r)
  {
    forall i | 0 <= i < |ids| ensures Within(ids[i], ids) { MemberIsWithin(ids[i], ids); }
    assert PassesRound(r, [], []);
  }

  /** An object with an id, and a row of evidence for one. */
  function Named(id: Json): Json {
    Obj([Field("id", id)])
  }

  function Row(id: Json): Json {
    Obj([Field("contributor_id", id)])
  }

  lemma OneMember(key: string, v: Json)
    requires Unremarkable(key) && key != "kind" && Fit(v)
    ensures Member(Obj([Field(key, v)]), key) == v && Fit(Obj([Field(key, v)]))
  {
    var f := [Field(key, v)];
    MembersRead(f);
    assert f[0] == Field(key, v);
    ProperObject(f);
    NoKind(f);
    PlainObject(f);
  }

  lemma NamedRead(id: Json)
    requires Fit(id)
    ensures Member(Named(id), "id") == id && Fit(Named(id))
    ensures Member(Row(id), "contributor_id") == id && Fit(Row(id))
  {
    assert |"id"| == 2 && "id"[0] == 'i' && |"contributor_id"| == 14 && "contributor_id"[0] == 'c' && |"kind"| == 4;
    OneMember("id", id);
    OneMember("contributor_id", id);
  }

  lemma FitItems(items: seq<Json>)
    requires forall i :: 0 <= i < |items| ==> Fit(items[i])
    ensures Fit(Arr(items))
  {
    PlainItems(items);
  }

  /** A round whose id need not be recomputed and whose credits need not be compared. */
  predicate Publishable(round: Json) {
    && round.Obj? && Endless(round) && Member(round, "id") == Str("conn-0123456789") && Member(round, "endpoints") == Null
    && Member(round, "pool") == Str("real-records") && IsKind(Member(round, "kind")) && Member(round, "difficulty") == Str("easy")
  }

  lemma PublishableIsGood(sha: string -> string, round: Json)
    requires Publishable(round)
    ensures GoodRounds(sha, [round])
  {
    SampleId();
    NothingRecomputed(sha, round);
    GoodFrom(sha, round, "conn-0123456789");
    OneGoodRound(sha, round);
  }

  lemma PlainSetup(py: Python) returns (x: Setup)
    ensures Plausible(x) && x.py == py && x.snapshot.Str?
  {
    SimpleArePlain();
    Reflexive(true, Num(1));
    x := Setup(py, Str("c"), Num(1), Str("d"));
  }

  lemma SnapshotIsRead(x: Setup, p: Json, rounds: seq<Json>)
    requires x.snapshot.Str? && ProvenanceIs(p, x, VersionOf(x, rounds))
    ensures SnapshotAgrees(x.py.sha, p, rounds)
  {
  }

  /** Any one such round that passes can be published. */
  lemma Publish(round: Json, contributors: seq<Json>) returns (py: Python, universe: Json, rounds: Json)
    requires Publishable(round) && Fit(round) && Fit(Arr(contributors))
    requires AllHashable(IdsUnder(contributors, "id")) && AllPass([round], IdsUnder(contributors, "id"), [])
    ensures ValidRounds(py, universe, rounds) && Member(rounds, "rounds") == Arr([round])
  {
    py := SimplePython();
    var x := PlainSetup(py);
    var p;
    p, universe, rounds := MakePair(x, round, contributors);
    PairIsHeard(x, universe, rounds, p);
    PublishableIsGood(py.sha, round);
    PublishedPasses(x, universe, rounds, p, contributors, round);
  }

  lemma MakePair(x: Setup, round: Json, contributors: seq<Json>) returns (p: Json, u: Json, a: Json)
    requires Plausible(x) && Fit(round) && Fit(Arr(contributors))
    ensures ProvenanceIs(p, x, VersionOf(x, [round])) && UniverseIs(u, p, contributors) && ArtifactIs(a, x, p, [round])
  {
    p := MakeProvenance(x, [round]);
    FitItems([round]);
    a := MakeArtifact(x, p, [round]);
    u := MakeUniverse(p, contributors);
  }

  lemma PublishedPasses(x: Setup, u: Json, a: Json, p: Json, contributors: seq<Json>, round: Json)
    requires Plausible(x) && x.snapshot.Str? && Publishable(round) && GoodRounds(x.py.sha, [round])
    requires ProvenanceIs(p, x, VersionOf(x, [round])) && UniverseIs(u, p, contributors) && ArtifactIs(a, x, p, [round])
    requires AllHashable(IdsUnder(contributors, "id")) && AllPass([round], IdsUnder(contributors, "id"), [])
    requires Heard(x.py, u, a, p)
    ensures ValidRounds(x.py, u, a)
  {
    SnapshotIsRead(x, p, [round]);
    PairPasses(x, u, a, p, contributors, [round]);
  }

  lemma PairIsHeard(x: Setup, u: Json, a: Json, p: Json)
    requires u.Obj? && a.Obj? && Member(p, "source") == Str("discogs") && Member(p, "generated_by") == Str("g")
    requires forall v: Json :: v.Obj? ==> Discreet(x.py, v)
    requires forall q: Json :: Member(q, "source") == Str("discogs") && Member(q, "generated_by") == Str("g") ==> RealSource(x.py, q)
    ensures Heard(x.py, u, a, p)
  {
  }
}
