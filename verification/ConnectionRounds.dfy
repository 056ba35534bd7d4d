/** The rounds validator: all of it, and what it ties a rounds artifact to. */
module ConnectionRounds {
  import opened Text
  import opened Json
  import opened JsonEquality
  import opened PythonValues
  import opened ContentHashes
  import opened ArtifactScans
  import opened RoundIds
  import opened RoundChecks
  import opened Intersections

  // ---------- Fingerprints ----------

  function Fingerprint(sha: string -> string, round: Json): string {
    "rfp-" + ContentHash(sha, round, 16)
  }

  function Fingerprints(sha: string -> string, rounds: seq<Json>): seq<Json> {
    if rounds == [] then []
    else (if rounds[0].Obj? then [Str(Fingerprint(sha, rounds[0]))] else []) + Fingerprints(sha, rounds[1..])
  }

  function ArtifactVersion(sha: string -> string, rounds: seq<Json>, snapshot: string): string {
    "connection-artifact-v1-" + snapshot + "-" + ContentHash(sha, Arr(Fingerprints(sha, rounds)), 12)
  }

  // ---------- The validator ----------

  /** The two artifacts of a pair. */
  datatype Side = Universe | Rounds

  datatype Failure =
    | NotAnObject(side: Side)
    | UnexpectedKeys(side: Side)
    | WrongSchemaVersion(side: Side)
    | ProvenanceDiffers
    | RoundsNotAnArray
    | NotARound
    | DuplicateRound(id: Json)
    | BadId(id: Json)
    | OtherContent(id: Json)
    | BadPool(id: Json)
    | BadKind(id: Json)
    | BadDifficulty(id: Json)
    | Flawed(round: Json, flaw: Flaw)
    | Mismatched(mismatch: Mismatch)
    | HasSeed(side: Side, path: string)
    | EmbedsArt(side: Side, path: string)
    | Forbidden(side: Side, text: string)
    | ProvenanceMissing(field: string)
    | WrongArtifactVersion
    | NotFromDiscogs
    | SyntheticFixture

  const UNIVERSE_KEYS := {"schema_version", "provenance", "albums", "contributors", "releases", "credits"}
  const ROUNDS_KEYS := {"schema_version", "provenance", "rounds"}
  const REQUIRED_PROVENANCE :=
    ["source", "license", "snapshot_date", "generated_by", "note", "catalog_version", "pool_version", "artifact_version"]

  predicate IsDifficulty(v: Json) {
    v == Str("easy") || v == Str("medium") || v == Str("hard")
  }

  predicate IsRoundId(v: Json) {
    v.Str? && Matches("conn-", 10, v.s)
  }

  predicate RoundRaises(round: Json) {
    round.Obj?
    && !(Hashable(Member(round, "id")) && Hashable(Member(round, "kind")) && Hashable(Member(round, "difficulty")))
  }

  /** What the loop body appends for one entry, given the ids already seen. */
  function RoundFailures(sha: string -> string, seen: seq<Json>, round: Json): (r: seq<Failure>)
    ensures r == [] ==> round.Obj? && IsRoundId(Member(round, "id"))
    ensures r == [] ==> IsKind(Member(round, "kind")) && IsDifficulty(Member(round, "difficulty"))
  {
    if !round.Obj? then [NotARound] else IdFailuresOf(sha, seen, round) + ShapeFailuresOf(round)
  }

  function IdFailuresOf(sha: string -> string, seen: seq<Json>, round: Json): (r: seq<Failure>)
    ensures r == [] ==> IsRoundId(Member(round, "id"))
  {
    var id := Member(round, "id");
    IdFailures(id, Within(id, seen), !IsRoundId(id),
               IsRoundId(id) && RecomputedId(sha, round).Some? && RecomputedId(sha, round) != Some(id.s))
  }

  function ShapeFailuresOf(round: Json): (r: seq<Failure>)
    ensures r == [] ==> IsKind(Member(round, "kind")) && IsDifficulty(Member(round, "difficulty"))
  {
    ShapeFailures(Member(round, "id"), !PyEqual(Member(round, "pool"), Str("real-records")),
                  !IsKind(Member(round, "kind")), !IsDifficulty(Member(round, "difficulty")))
  }

  function IdFailures(id: Json, repeated: bool, malformed: bool, other: bool): (r: seq<Failure>)
    ensures r == [] <==> !repeated && !malformed && !other
    ensures forall f :: f in r <==>
      (repeated && f == DuplicateRound(id)) || (malformed && f == BadId(id)) || (other && f == OtherContent(id))
  {
    When(repeated, DuplicateRound(id)) + When(malformed, BadId(id)) + When(other, OtherContent(id))
  }

  function ShapeFailures(id: Json, pool: bool, kind: bool, difficulty: bool): (r: seq<Failure>)
    ensures r == [] <==> !pool && !kind && !difficulty
    ensures forall f :: f in r <==>
      (pool && f == BadPool(id)) || (kind && f == BadKind(id)) || (difficulty && f == BadDifficulty(id))
  {
    When(pool, BadPool(id)) + When(kind, BadKind(id)) + When(difficulty, BadDifficulty(id))
  }

  /** What is wrong with one entry, given the ids before it. */
  ghost predicate EntryBlames(sha: string -> string, seen: seq<Json>, round: Json, f: Failure) {
    if round.Obj? then IdBlames(sha, seen, round, f) || ShapeBlames(round, f) else f == NotARound
  }

  ghost predicate IdBlames(sha: string -> string, seen: seq<Json>, round: Json, f: Failure) {
    var id := Member(round, "id");
    match f
    case DuplicateRound(x) => x == id && Within(id, seen)
    case BadId(x) => x == id && !IsRoundId(id)
    case OtherContent(x) => x == id && IsRoundId(id) && RecomputedId(sha, round).Some? && RecomputedId(sha, round).value != id.s
    case _ => false
  }

  ghost predicate ShapeBlames(round: Json, f: Failure) {
    var id := Member(round, "id");
    match f
    case BadPool(x) => x == id && Member(round, "pool") != Str("real-records")
    case BadKind(x) => x == id && Member(round, "kind") !in {Str("one_hop"), Str("two_hop")}
    case BadDifficulty(x) => x == id && Member(round, "difficulty") !in {Str("easy"), Str("medium"), Str("hard")}
    case _ => false
  }

  lemma IdFailuresBlame(sha: string -> string, seen: seq<Json>, round: Json, f: Failure)
    ensures f in IdFailuresOf(sha, seen, round) <==> IdBlames(sha, seen, round, f)
  {
  }

  lemma ShapeFailuresBlame(round: Json, f: Failure)
    ensures f in ShapeFailuresOf(round) <==> ShapeBlames(round, f)
  {
    StringsEqual(Member(round, "pool"), "real-records");
  }

  lemma RoundFailuresBlame(sha: string -> string, seen: seq<Json>, round: Json, f: Failure)
    ensures f in RoundFailures(sha, seen, round) <==> EntryBlames(sha, seen, round, f)
  {
    IdFailuresBlame(sha, seen, round, f);
    ShapeFailuresBlame(round, f);
  }

  /** What a single round must be. */
  predicate GoodRound(sha: string -> string, round: Json) {
    var id := Member(round, "id");
    round.Obj? && IsRoundId(id) && RecomputedId(sha, round) in {None, Some(id.s)}
    && Member(round, "pool") == Str("real-records")
    && IsKind(Member(round, "kind")) && IsDifficulty(Member(round, "difficulty"))
  }

  ghost predicate GoodRounds(sha: string -> string, rounds: seq<Json>) {
    (forall i :: 0 <= i < |rounds| ==> GoodRound(sha, rounds[i]))
    && (forall i, j :: 0 <= i < j < |rounds| ==> Member(rounds[i], "id") != Member(rounds[j], "id"))
  }

  ghost predicate GoodUpTo(sha: string -> string, rounds: seq<Json>, n: nat)
    requires n <= |rounds|
  {
    GoodRounds(sha, rounds[..n])
  }

  predicate SnapshotAgrees(sha: string -> string, provenance: Json, rounds: seq<Json>) {
    var snapshot := Member(provenance, "snapshot_date");
    snapshot.Str? ==> Member(provenance, "artifact_version") == Str(ArtifactVersion(sha, rounds, snapshot.s))
  }

  ghost predicate FullProvenance(provenance: Json) {
    provenance.Obj? && forall k :: k in REQUIRED_PROVENANCE ==> Truthy(Member(provenance, k))
  }

  predicate GoodHeader(universe: Json, rounds: Json)
    requires universe.Obj? && rounds.Obj?
  {
    Keys(universe.fields) == UNIVERSE_KEYS && Keys(rounds.fields) == ROUNDS_KEYS
    && PyEqual(Member(universe, "schema_version"), Num(1)) && PyEqual(Member(rounds, "schema_version"), Num(1))
    && PyEqual(Member(universe, "provenance"), Member(rounds, "provenance"))
  }

  /** The checks that tie the rounds to the pair's versions. */
  ghost predicate PinnedRounds(sha: string -> string, universe: Json, rounds: Json) {
    universe.Obj? && rounds.Obj? && GoodHeader(universe, rounds)
    && Member(rounds, "rounds").Arr?
    && GoodRounds(sha, Member(rounds, "rounds").items)
    && FullProvenance(Member(universe, "provenance"))
    && SnapshotAgrees(sha, Member(universe, "provenance"), Member(rounds, "rounds").items)
  }

  // ---------- Its loops ----------

  lemma RoundFailuresEmpty(sha: string -> string, seen: seq<Json>, round: Json)
    requires forall i :: 0 <= i < |seen| ==> seen[i].Str?
    ensures RoundFailures(sha, seen, round) == []
      <==> GoodRound(sha, round) && Member(round, "id") !in seen
  {
    StringsEqual(Member(round, "pool"), "real-records");
  }

  ghost predicate SeenIds(rounds: seq<Json>, n: nat, seen: seq<Json>)
    requires n <= |rounds|
  {
    |seen| == n && forall i :: 0 <= i < n ==> seen[i] == Member(rounds[i], "id")
  }

  function Note(seen: seq<Json>, round: Json): seq<Json> {
    if round.Obj? then seen + [Member(round, "id")] else seen
  }

  function InRound(round: Json, flaws: seq<Flaw>): (r: seq<Failure>)
    ensures |r| == |flaws|
    ensures forall f :: f in r <==> f.Flawed? && f.round == Member(round, "id") && f.flaw in flaws
  {
    var r := seq(|flaws|, i requires 0 <= i < |flaws| => Flawed(Member(round, "id"), flaws[i]));
    assert forall i :: 0 <= i < |flaws| ==> r[i] == Flawed(Member(round, "id"), flaws[i]);
    assert forall x :: x in flaws ==> exists i :: 0 <= i < |flaws| && flaws[i] == x && r[i] == Flawed(Member(round, "id"), x);
    r
  }

  ghost predicate AllPass(rounds: seq<Json>, contributors: seq<Json>, albums: seq<Json>) {
    forall i :: 0 <= i < |rounds| ==> PassesRound(rounds[i], contributors, albums)
  }

  /** Checking one entry raises. */
  ghost predicate EntryRaises(round: Json) {
    round.Obj? && (RoundRaises(round) || ContentRaises(round))
  }

  ghost predicate ContentBlamed(round: Json, contributors: seq<Json>, albums: seq<Json>, f: Failure) {
    round.Obj? && f.Flawed? && f.round == Member(round, "id") && ContentBlames(round, contributors, albums, f.flaw)
  }

  ghost predicate RaisesBelow(rounds: seq<Json>, n: nat)
    requires n <= |rounds|
  {
    exists k :: 0 <= k < n && EntryRaises(rounds[k])
  }

  /** The failure is one of the `k`-th entry's. */
  ghost predicate RoundBlames(sha: string -> string, rounds: seq<Json>, k: nat, contributors: seq<Json>, albums: seq<Json>, f: Failure)
    requires k < |rounds|
  {
    EntryBlames(sha, IdsUnder(rounds[..k], "id"), rounds[k], f) || ContentBlamed(rounds[k], contributors, albums, f)
  }

  ghost predicate BlamesBelow(sha: string -> string, rounds: seq<Json>, n: nat, contributors: seq<Json>, albums: seq<Json>, f: Failure)
    requires n <= |rounds|
  {
    exists k: nat :: k < n && RoundBlames(sha, rounds, k, contributors, albums, f)
  }

  /** One turn of the loop: it raises on an unhashable id, kind or difficulty, and wherever the content
      checks do. */
  method CheckEntry(sha: string -> string, seen: seq<Json>, round: Json, contributors: seq<Json>, albums: seq<Json>)
    returns (out: Outcome<Failure>)
    ensures out == Failures([]) <==> RoundFailures(sha, seen, round) == [] && PassesRound(round, contributors, albums)
    ensures out.Raised? <==> EntryRaises(round)
    ensures out.Failures? ==> forall f :: f in out.list <==> EntryBlames(sha, seen, round, f) || ContentBlamed(round, contributors, albums, f)
  {
    var found := RoundFailures(sha, seen, round);
    forall f ensures f in found <==> EntryBlames(sha, seen, round, f) { RoundFailuresBlame(sha, seen, round, f); }
    RaisingReports(sha, seen, round);
    if !round.Obj? { return Failures(found); }
    if RoundRaises(round) { return Raised; }
    var content := CheckRound(round, contributors, albums);
    if content.Raised? { return Raised; }
    out := Failures(found + InRound(round, content.list));
    assert out == Failures([]) <==> found == [] && content.list == [];
  }

  lemma RaisingReports(sha: string -> string, seen: seq<Json>, round: Json)
    ensures !round.Obj? || RoundRaises(round) ==> RoundFailures(sha, seen, round) != []
  {
    KindsHash(Member(round, "kind"), Member(round, "difficulty"));
  }

  lemma KindsHash(kind: Json, difficulty: Json)
    ensures IsKind(kind) ==> Hashable(kind)
    ensures IsDifficulty(difficulty) ==> Hashable(difficulty)
  {
  }

  /** `for round_json in round_entries`. */
  method CheckRounds(sha: string -> string, rounds: seq<Json>, contributors: seq<Json>, albums: seq<Json>)
    returns (out: Outcome<Failure>)
    ensures out == Failures([]) <==> GoodRounds(sha, rounds) && AllPass(rounds, contributors, albums)
    ensures out.Raised? <==> RaisesBelow(rounds, |rounds|)
    ensures out.Failures? ==> forall f :: f in out.list <==> BlamesBelow(sha, rounds, |rounds|, contributors, albums, f)
  {
    var failures: seq<Failure> := [];
    var seen: seq<Json> := [];
    for n := 0 to |rounds|
      invariant SoFar(sha, rounds, n, contributors, albums, seen, failures)
      invariant Reported(sha, rounds, n, contributors, albums, seen, failures)
    {
      var found := CheckEntry(sha, seen, rounds[n], contributors, albums);
      NextEntry(sha, rounds, n, contributors, albums, seen, failures, found);
      NextReported(sha, rounds, n, contributors, albums, seen, failures, found);
      if found.Raised? { return Raised; }
      failures := failures + found.list;
      seen := Note(seen, rounds[n]);
    }
    assert rounds[..|rounds|] == rounds;
    return Failures(failures);
  }

  /** After `n` entries: nothing has raised, what is reported is what is wrong with them, and the ids noted are
      those of the objects among them. */
  ghost predicate Reported(
      sha: string -> string, rounds: seq<Json>, n: nat, contributors: seq<Json>, albums: seq<Json>,
      seen: seq<Json>, failures: seq<Failure>)
    requires n <= |rounds|
  {
    && !RaisesBelow(rounds, n) && seen == IdsUnder(rounds[..n], "id")
    && forall f :: f in failures <==> BlamesBelow(sha, rounds, n, contributors, albums, f)
  }

  lemma {:induction false} OneMoreIdUnder(list: seq<Json>, x: Json, key: string)
    ensures IdsUnder(list + [x], key) == IdsUnder(list, key) + (if x.Obj? then [Member(x, key)] else [])
  {
    if list == [] {
      assert [x][1..] == [];
    } else {
      assert (list + [x])[1..] == list[1..] + [x];
      OneMoreIdUnder(list[1..], x, key);
    }
  }

  lemma NextReported(
      sha: string -> string, rounds: seq<Json>, n: nat, contributors: seq<Json>, albums: seq<Json>,
      seen: seq<Json>, failures: seq<Failure>, found: Outcome<Failure>)
    requires n < |rounds| && Reported(sha, rounds, n, contributors, albums, seen, failures)
    requires found.Raised? <==> EntryRaises(rounds[n])
    requires found.Failures? ==>
      forall f :: f in found.list <==> EntryBlames(sha, seen, rounds[n], f) || ContentBlamed(rounds[n], contributors, albums, f)
    ensures found.Raised? ==> RaisesBelow(rounds, |rounds|)
    ensures found.Failures? ==> Reported(sha, rounds, n + 1, contributors, albums, Note(seen, rounds[n]), failures + found.list)
  {
    NextNoted(rounds, n);
    if found.Failures? { NextBlamed(sha, rounds, n, contributors, albums, failures, found.list); }
  }

  lemma NextNoted(rounds: seq<Json>, n: nat)
    requires n < |rounds|
    ensures IdsUnder(rounds[..n + 1], "id") == Note(IdsUnder(rounds[..n], "id"), rounds[n])
  {
    assert rounds[..n + 1] == rounds[..n] + [rounds[n]];
    OneMoreIdUnder(rounds[..n], rounds[n], "id");
  }

  lemma NextBlamed(
      sha: string -> string, rounds: seq<Json>, n: nat, contributors: seq<Json>, albums: seq<Json>,
      failures: seq<Failure>, found: seq<Failure>)
    requires n < |rounds| && forall f :: f in failures <==> BlamesBelow(sha, rounds, n, contributors, albums, f)
    requires forall f :: f in found <==> RoundBlames(sha, rounds, n, contributors, albums, f)
    ensures forall f :: f in failures + found <==> BlamesBelow(sha, rounds, n + 1, contributors, albums, f)
  {
    forall f ensures f in failures + found <==> BlamesBelow(sha, rounds, n + 1, contributors, albums, f) {
      OneMoreBlamed(sha, rounds, n, contributors, albums, f);
    }
  }

  lemma OneMoreBlamed(sha: string -> string, rounds: seq<Json>, n: nat, contributors: seq<Json>, albums: seq<Json>, f: Failure)
    requires n < |rounds|
    ensures BlamesBelow(sha, rounds, n + 1, contributors, albums, f) <==>
      BlamesBelow(sha, rounds, n, contributors, albums, f) || RoundBlames(sha, rounds, n, contributors, albums, f)
  {
  }

  /** After `n` entries: nothing is reported exactly when they are good and pass, and the ids of good
      entries are noted. */
  ghost predicate SoFar(
      sha: string -> string, rounds: seq<Json>, n: nat, contributors: seq<Json>, albums: seq<Json>,
      seen: seq<Json>, failures: seq<Failure>)
    requires n <= |rounds|
  {
    && (failures == [] <==> GoodUpTo(sha, rounds, n) && AllPass(rounds[..n], contributors, albums))
    && (GoodUpTo(sha, rounds, n) ==> SeenIds(rounds, n, seen))
  }

  lemma NextEntry(
      sha: string -> string, rounds: seq<Json>, n: nat, contributors: seq<Json>, albums: seq<Json>,
      seen: seq<Json>, failures: seq<Failure>, found: Outcome<Failure>)
    requires n < |rounds| && SoFar(sha, rounds, n, contributors, albums, seen, failures)
    requires found == Failures([]) <==>
      RoundFailures(sha, seen, rounds[n]) == [] && PassesRound(rounds[n], contributors, albums)
    ensures found.Raised? ==> !(GoodRounds(sha, rounds) && AllPass(rounds, contributors, albums))
    ensures found.Failures? ==> SoFar(sha, rounds, n + 1, contributors, albums, Note(seen, rounds[n]), failures + found.list)
  {
    NextRound(sha, rounds, n, seen);
    NextPass(rounds, n, contributors, albums);
    Whole(sha, rounds, n + 1, contributors, albums);
    if found.Failures? { NoneOfBoth(failures, found); }
  }

  lemma NoneOfBoth<F(!new)>(failures: seq<F>, found: Outcome<F>)
    requires found.Failures?
    ensures failures + found.list == [] <==> failures == [] && found == Failures([])
  {
  }

  /** What holds of all entries holds of the first `n`. */
  lemma Whole(sha: string -> string, rounds: seq<Json>, n: nat, contributors: seq<Json>, albums: seq<Json>)
    requires n <= |rounds|
    ensures GoodRounds(sha, rounds) ==> GoodUpTo(sha, rounds, n)
    ensures AllPass(rounds, contributors, albums) ==> AllPass(rounds[..n], contributors, albums)
  {
    assert forall i :: 0 <= i < n ==> rounds[..n][i] == rounds[i];
  }

  lemma NextPass(rounds: seq<Json>, n: nat, contributors: seq<Json>, albums: seq<Json>)
    requires n < |rounds|
    ensures AllPass(rounds[..n + 1], contributors, albums)
      <==> AllPass(rounds[..n], contributors, albums) && PassesRound(rounds[n], contributors, albums)
  {
    assert rounds[..n + 1] == rounds[..n] + [rounds[n]];
    if AllPass(rounds[..n + 1], contributors, albums) {
      forall i | 0 <= i < n ensures PassesRound(rounds[..n][i], contributors, albums) {
        assert rounds[..n][i] == rounds[..n + 1][i];
      }
      assert rounds[..n + 1][n] == rounds[n];
    }
  }

  lemma NextRound(sha: string -> string, rounds: seq<Json>, n: nat, seen: seq<Json>)
    requires n < |rounds| && (GoodUpTo(sha, rounds, n) ==> SeenIds(rounds, n, seen))
    ensures GoodUpTo(sha, rounds, n + 1) <==> GoodUpTo(sha, rounds, n) && RoundFailures(sha, seen, rounds[n]) == []
    ensures GoodUpTo(sha, rounds, n + 1) ==> SeenIds(rounds, n + 1, Note(seen, rounds[n]))
  {
    if GoodUpTo(sha, rounds, n) {
      AfterGood(sha, rounds, n, seen);
      if RoundFailures(sha, seen, rounds[n]) == [] { NextSeen(rounds, n, seen); }
    } else if GoodUpTo(sha, rounds, n + 1) {
      FewerRounds(sha, rounds, n);
    }
  }

  lemma AfterGood(sha: string -> string, rounds: seq<Json>, n: nat, seen: seq<Json>)
    requires n < |rounds| && GoodUpTo(sha, rounds, n) && SeenIds(rounds, n, seen)
    ensures GoodUpTo(sha, rounds, n + 1) <==> RoundFailures(sha, seen, rounds[n]) == []
  {
    ReportsNothing(sha, rounds, n, seen);
    OneMoreRound(sha, rounds, n, seen);
  }

  lemma ReportsNothing(sha: string -> string, rounds: seq<Json>, n: nat, seen: seq<Json>)
    requires n < |rounds| && GoodUpTo(sha, rounds, n) && SeenIds(rounds, n, seen)
    ensures RoundFailures(sha, seen, rounds[n]) == [] <==> GoodRound(sha, rounds[n]) && Member(rounds[n], "id") !in seen
  {
    SeenStrings(sha, rounds, n, seen);
    RoundFailuresEmpty(sha, seen, rounds[n]);
  }

  lemma NextSeen(rounds: seq<Json>, n: nat, seen: seq<Json>)
    requires n < |rounds| && SeenIds(rounds, n, seen) && rounds[n].Obj?
    ensures SeenIds(rounds, n + 1, Note(seen, rounds[n]))
  {
  }

  lemma SeenStrings(sha: string -> string, rounds: seq<Json>, n: nat, seen: seq<Json>)
    requires n <= |rounds| && GoodUpTo(sha, rounds, n) && SeenIds(rounds, n, seen)
    ensures forall i :: 0 <= i < n ==> seen[i].Str?
  {
    forall i | 0 <= i < n ensures seen[i].Str? {
      assert GoodRound(sha, rounds[..n][i]);
    }
  }

  lemma OneMoreRound(sha: string -> string, rounds: seq<Json>, n: nat, seen: seq<Json>)
    requires n < |rounds| && GoodUpTo(sha, rounds, n)
    requires SeenIds(rounds, n, seen)
    ensures GoodUpTo(sha, rounds, n + 1)
      <==> GoodRound(sha, rounds[n]) && Member(rounds[n], "id") !in seen
  {
    RoundAppended(sha, rounds[..n], rounds[n], rounds[..n + 1]);
    IdIsNew(rounds, n, seen, Member(rounds[n], "id"));
  }

  lemma IdIsNew(rounds: seq<Json>, n: nat, seen: seq<Json>, id: Json)
    requires n <= |rounds| && SeenIds(rounds, n, seen)
    ensures id !in seen <==> forall i :: 0 <= i < |rounds[..n]| ==> Member(rounds[..n][i], "id") != id
  {
    forall i | 0 <= i < n ensures seen[i] == Member(rounds[..n][i], "id") { }
  }

  lemma RoundAppended(sha: string -> string, rounds: seq<Json>, round: Json, more: seq<Json>)
    requires GoodRounds(sha, rounds) && more == rounds + [round]
    ensures GoodRounds(sha, more) <==>
      GoodRound(sha, round) && forall i :: 0 <= i < |rounds| ==> Member(rounds[i], "id") != Member(round, "id")
  {
    assert forall i :: 0 <= i < |rounds| ==> more[i] == rounds[i];
    assert more[|rounds|] == round;
  }

  lemma FewerRounds(sha: string -> string, rounds: seq<Json>, n: nat)
    requires n < |rounds| && GoodUpTo(sha, rounds, n + 1)
    ensures GoodUpTo(sha, rounds, n)
  {
    assert forall i :: 0 <= i < n ==> rounds[..n][i] == rounds[..n + 1][i];
  }

  // ---------- The whole function ----------

  function ProvenanceFailures(provenance: Json, fields: seq<string>): (r: seq<Failure>)
    ensures r == [] <==> forall k :: k in fields ==> Truthy(Member(provenance, k))
    ensures forall f :: f in r <==> f.ProvenanceMissing? && f.field in fields && !Truthy(Member(provenance, f.field))
  {
    if fields == [] then []
    else
      assert fields == [fields[0]] + fields[1..];
      When(!Truthy(Member(provenance, fields[0])), ProvenanceMissing(fields[0])) + ProvenanceFailures(provenance, fields[1..])
  }

  /** The checks before the loop. */
  function HeaderFailures(universe: Json, rounds: Json): (r: seq<Failure>)
    requires universe.Obj? && rounds.Obj?
    ensures r == [] <==> GoodHeader(universe, rounds)
  {
    KeyFailures(Keys(universe.fields) != UNIVERSE_KEYS, Keys(rounds.fields) != ROUNDS_KEYS) + TopFailuresOf(universe, rounds)
  }

  function TopFailuresOf(universe: Json, rounds: Json): (r: seq<Failure>) {
    TopFailures(!PyEqual(Member(universe, "schema_version"), Num(1)), !PyEqual(Member(rounds, "schema_version"), Num(1)),
                !PyEqual(Member(universe, "provenance"), Member(rounds, "provenance")))
  }

  function KeyFailures(ours: bool, theirs: bool): (r: seq<Failure>)
    ensures r == [] <==> !ours && !theirs
    ensures forall f :: f in r <==> (ours && f == UnexpectedKeys(Universe)) || (theirs && f == UnexpectedKeys(Rounds))
  {
    When(ours, UnexpectedKeys(Universe)) + When(theirs, UnexpectedKeys(Rounds))
  }

  function TopFailures(ours: bool, theirs: bool, provenance: bool): (r: seq<Failure>)
    ensures r == [] <==> !ours && !theirs && !provenance
    ensures forall f :: f in r <==>
      (ours && f == WrongSchemaVersion(Universe)) || (theirs && f == WrongSchemaVersion(Rounds)) || (provenance && f == ProvenanceDiffers)
  {
    When(ours, WrongSchemaVersion(Universe)) + When(theirs, WrongSchemaVersion(Rounds)) + When(provenance, ProvenanceDiffers)
  }

  /** What is wrong with the two artifacts' top levels. */
  ghost predicate HeaderBlames(universe: Json, rounds: Json, f: Failure)
    requires universe.Obj? && rounds.Obj?
  {
    KeysBlame(universe, rounds, f) || TopBlames(universe, rounds, f)
  }

  ghost predicate KeysBlame(universe: Json, rounds: Json, f: Failure)
    requires universe.Obj? && rounds.Obj?
  {
    f.UnexpectedKeys? && if f.side == Universe then Keys(universe.fields) != UNIVERSE_KEYS else Keys(rounds.fields) != ROUNDS_KEYS
  }

  ghost predicate TopBlames(universe: Json, rounds: Json, f: Failure) {
    match f
    case WrongSchemaVersion(side) => !PyEqual(Member(if side == Universe then universe else rounds, "schema_version"), Num(1))
    case ProvenanceDiffers => !PyEqual(Member(universe, "provenance"), Member(rounds, "provenance"))
    case _ => false
  }

  lemma KeyFailuresBlame(universe: Json, rounds: Json, f: Failure)
    requires universe.Obj? && rounds.Obj?
    ensures f in KeyFailures(Keys(universe.fields) != UNIVERSE_KEYS, Keys(rounds.fields) != ROUNDS_KEYS)
      <==> KeysBlame(universe, rounds, f)
  {
  }

  lemma TopFailuresBlame(universe: Json, rounds: Json, f: Failure)
    ensures f in TopFailuresOf(universe, rounds) <==> TopBlames(universe, rounds, f)
  {
  }

  lemma HeaderFailuresBlame(universe: Json, rounds: Json, f: Failure)
    requires universe.Obj? && rounds.Obj?
    ensures f in HeaderFailures(universe, rounds) <==> HeaderBlames(universe, rounds, f)
  {
    KeyFailuresBlame(universe, rounds, f);
    TopFailuresBlame(universe, rounds, f);
  }

  /** The checks after the loop. */
  function VersionFailures(sha: string -> string, provenance: Json, rounds: seq<Json>): (r: seq<Failure>)
    requires provenance.Obj?
    ensures r == [] <==> FullProvenance(provenance) && SnapshotAgrees(sha, provenance, rounds)
  {
    ProvenanceFailures(provenance, REQUIRED_PROVENANCE)
    + When(!SnapshotAgrees(sha, provenance, rounds), WrongArtifactVersion)
  }

  /** A required field is missing, or the version is not the one made from the snapshot date and the
      fingerprints; it is looked at when the date is a text. */
  ghost predicate VersionBlames(sha: string -> string, provenance: Json, rounds: seq<Json>, f: Failure) {
    FieldBlames(provenance, f) || (f == WrongArtifactVersion && OtherVersion(sha, provenance, rounds))
  }

  ghost predicate FieldBlames(provenance: Json, f: Failure) {
    f.ProvenanceMissing? && f.field in REQUIRED_PROVENANCE && !Truthy(Member(provenance, f.field))
  }

  ghost predicate OtherVersion(sha: string -> string, provenance: Json, rounds: seq<Json>) {
    var snapshot := Member(provenance, "snapshot_date");
    && snapshot.Str?
    && Member(provenance, "artifact_version") !=
         Str("connection-artifact-v1-" + snapshot.s + "-" + ContentHash(sha, Arr(Fingerprints(sha, rounds)), 12))
  }

  lemma SnapshotDiffers(sha: string -> string, provenance: Json, rounds: seq<Json>)
    ensures OtherVersion(sha, provenance, rounds) <==> !SnapshotAgrees(sha, provenance, rounds)
  {
  }

  lemma FieldFailuresBlame(provenance: Json, f: Failure)
    ensures f in ProvenanceFailures(provenance, REQUIRED_PROVENANCE) <==> FieldBlames(provenance, f)
  {
  }

  lemma VersionFailuresBlame(sha: string -> string, provenance: Json, rounds: seq<Json>, f: Failure)
    requires provenance.Obj?
    ensures f in VersionFailures(sha, provenance, rounds) <==> VersionBlames(sha, provenance, rounds, f)
  {
    FieldFailuresBlame(provenance, f);
    SnapshotDiffers(sha, provenance, rounds);
  }

  function Seeds(side: Side, paths: seq<string>): (r: seq<Failure>)
    ensures r == [] <==> paths == []
    ensures forall f :: f in r <==> f.HasSeed? && f.side == side && f.path in paths
  {
    if paths == [] then [] else [HasSeed(side, paths[0])] + Seeds(side, paths[1..])
  }

  function Covers(side: Side, paths: seq<string>): (r: seq<Failure>)
    ensures r == [] <==> paths == []
    ensures forall f :: f in r <==> f.EmbedsArt? && f.side == side && f.path in paths
  {
    if paths == [] then [] else [EmbedsArt(side, paths[0])] + Covers(side, paths[1..])
  }

  function Texts(side: Side, texts: seq<string>): (r: seq<Failure>)
    ensures r == [] <==> texts == []
    ensures forall f :: f in r <==> f.Forbidden? && f.side == side && f.text in texts
  {
    if texts == [] then [] else [Forbidden(side, texts[0])] + Texts(side, texts[1..])
  }

  /** The scans of one artifact. */
  function ScanFailures(py: Python, side: Side, artifact: Json): (r: seq<Failure>)
    ensures r == [] <==> SeedFree(artifact) && ArtFree(artifact) && Discreet(py, artifact)
  {
    SeedScan(artifact, "");
    ArtScan(artifact, "");
    Seeds(side, SeedPaths(artifact, "")) + Covers(side, ArtPaths(artifact, "")) + Texts(side, PrivacyFindings(py, artifact))
  }

  /** What is wrong with one artifact wherever it stands: seeds, covers, and texts that must not be printed. */
  ghost predicate ScanBlames(py: Python, side: Side, artifact: Json, f: Failure) {
    SeedBlames(side, artifact, f) || CoverBlames(side, artifact, f) || TextBlames(py, side, artifact, f)
  }

  ghost predicate SeedBlames(side: Side, artifact: Json, f: Failure) {
    f.HasSeed? && f.side == side && SeedAt(artifact, "", f.path)
  }

  ghost predicate CoverBlames(side: Side, artifact: Json, f: Failure) {
    f.EmbedsArt? && f.side == side && ArtAt(artifact, "", f.path)
  }

  ghost predicate TextBlames(py: Python, side: Side, artifact: Json, f: Failure) {
    f.Forbidden? && f.side == side && MustNotPrint(py, artifact, f.text)
  }

  lemma SeedsBlame(side: Side, artifact: Json, f: Failure)
    ensures f in Seeds(side, SeedPaths(artifact, "")) <==> SeedBlames(side, artifact, f)
  {
    if f.HasSeed? { SeedPathsExact(artifact, "", f.path); }
  }

  lemma CoversBlame(side: Side, artifact: Json, f: Failure)
    ensures f in Covers(side, ArtPaths(artifact, "")) <==> CoverBlames(side, artifact, f)
  {
    if f.EmbedsArt? { ArtPathsExact(artifact, "", f.path); }
  }

  lemma TextsBlame(py: Python, side: Side, artifact: Json, f: Failure)
    ensures f in Texts(side, PrivacyFindings(py, artifact)) <==> TextBlames(py, side, artifact, f)
  {
  }

  lemma ScanFailuresBlame(py: Python, side: Side, artifact: Json, f: Failure)
    ensures f in ScanFailures(py, side, artifact) <==> ScanBlames(py, side, artifact, f)
  {
    SeedsBlame(side, artifact, f);
    CoversBlame(side, artifact, f);
    TextsBlame(py, side, artifact, f);
  }

  predicate Unmarked(py: Python, artifact: Json) {
    SeedFree(artifact) && ArtFree(artifact) && Discreet(py, artifact)
  }

  /** `str(provenance.get(field, "")).lower()`. */
  function Lowered(py: Python, provenance: Json, field: string): string {
    py.lower(py.text(GetOr(provenance, field, Str(""))))
  }

  predicate RealSource(py: Python, provenance: Json) {
    Contains(Lowered(py, provenance, "source"), "discogs")
    && !Contains(Lowered(py, provenance, "generated_by"), "synthetic")
    && !Contains(Lowered(py, provenance, "generated_by"), "ci placeholder")
  }

  function SourceFailures(py: Python, provenance: Json): (r: seq<Failure>)
    ensures r == [] <==> RealSource(py, provenance)
  {
    var made := Lowered(py, provenance, "generated_by");
    When(!Contains(Lowered(py, provenance, "source"), "discogs"), NotFromDiscogs)
    + When(Contains(made, "synthetic") || Contains(made, "ci placeholder"), SyntheticFixture)
  }

  ghost predicate SourceBlames(py: Python, provenance: Json, f: Failure) {
    var made := Lowered(py, provenance, "generated_by");
    match f
    case NotFromDiscogs => !Contains(Lowered(py, provenance, "source"), "discogs")
    case SyntheticFixture => Contains(made, "synthetic") || Contains(made, "ci placeholder")
    case _ => false
  }

  lemma SourceFailuresBlame(py: Python, provenance: Json, f: Failure)
    ensures f in SourceFailures(py, provenance) <==> SourceBlames(py, provenance, f)
  {
  }

  predicate UniverseCollects(universe: Json) {
    CollectsIds(universe, "albums") && CollectsIds(universe, "contributors") && CollectsIds(universe, "releases")
  }

  ghost predicate AllMatch(universe: Json, rounds: seq<Json>) {
    forall i :: 0 <= i < |rounds| ==> AgreesWithCredits(universe, rounds[i])
  }

  /** The checks on what the two artifacts hold. */
  ghost predicate SoundContent(py: Python, universe: Json, rounds: Json) {
    var list := ListOf(Member(rounds, "rounds"));
    && UniverseCollects(universe) && CreditsCollect(universe)
    && AllPass(list, UniverseIds(universe, "contributors"), UniverseIds(universe, "albums"))
    && AllMatch(universe, list) && CreditsKnown(universe)
    && Unmarked(py, universe) && Unmarked(py, rounds)
    && RealSource(py, Member(universe, "provenance"))
  }

  /** The pair passes: what an empty failure list amounts to. */
  ghost predicate ValidRounds(py: Python, universe: Json, rounds: Json) {
    PinnedRounds(py.sha, universe, rounds) && SoundContent(py, universe, rounds)
  }

  function InMatches(mismatches: seq<Mismatch>): (r: seq<Failure>)
    ensures r == [] <==> mismatches == []
    ensures forall f :: f in r <==> f.Mismatched? && f.mismatch in mismatches
  {
    if mismatches == [] then [] else [Mismatched(mismatches[0])] + InMatches(mismatches[1..])
  }

  /** What is checked after the rounds loop. */
  ghost predicate RestHolds(py: Python, universe: Json, rounds: Json, list: seq<Json>, provenance: Json) {
    && Unmarked(py, universe) && Unmarked(py, rounds)
    && FullProvenance(provenance) && SnapshotAgrees(py.sha, provenance, list)
    && CreditsCollect(universe) && AllMatch(universe, list) && CreditsKnown(universe) && RealSource(py, provenance)
  }

  /** Some credit or some round's match raises. */
  ghost predicate CreditsRaise(universe: Json, list: seq<Json>) {
    !CreditsCollect(universe) || MatchRaisesIn(list) || CreditRaisesIn(Elements(ListUnder(universe, "credits")))
  }

  ghost predicate CreditsBlame(universe: Json, list: seq<Json>, f: Failure) {
    && f.Mismatched?
    && (|| MatchBlamesIn(universe, list, f.mismatch)
        || CreditBlamesIn(Elements(ListUnder(universe, "credits")), UniverseIds(universe, "contributors"),
                          UniverseIds(universe, "releases"), f.mismatch))
  }

  /** The universe's credits against every round's match, and then the credits themselves. */
  method CheckCredits(universe: Json, list: seq<Json>) returns (out: Outcome<Failure>)
    ensures out == Failures([]) <==> CreditsCollect(universe) && AllMatch(universe, list) && CreditsKnown(universe)
    ensures out.Raised? <==> CreditsRaise(universe, list)
    ensures out.Failures? ==> forall f :: f in out.list <==> CreditsBlame(universe, list, f)
  {
    if !CreditsCollect(universe) { return Raised; }
    var matches := CheckMatches(universe, list);
    var known := CheckKnown(Elements(ListUnder(universe, "credits")), UniverseIds(universe, "contributors"), UniverseIds(universe, "releases"));
    var found := Then(matches, known);
    if found.Raised? { return Raised; }
    out := Failures(InMatches(found.list));
  }

  function ScansOfBoth(py: Python, universe: Json, rounds: Json): (r: seq<Failure>)
    ensures r == [] <==> Unmarked(py, universe) && Unmarked(py, rounds)
  {
    ScanFailures(py, Universe, universe) + ScanFailures(py, Rounds, rounds)
  }

  /** What is wrong after the rounds loop. */
  ghost predicate RestBlames(py: Python, universe: Json, rounds: Json, list: seq<Json>, provenance: Json, f: Failure) {
    || ScanBlames(py, Universe, universe, f) || ScanBlames(py, Rounds, rounds, f)
    || VersionBlames(py.sha, provenance, list, f) || CreditsBlame(universe, list, f) || SourceBlames(py, provenance, f)
  }

  method CheckRest(py: Python, universe: Json, rounds: Json, list: seq<Json>, provenance: Json) returns (out: Outcome<Failure>)
    requires provenance.Obj?
    ensures out == Failures([]) <==> RestHolds(py, universe, rounds, list, provenance)
    ensures out.Raised? <==> CreditsRaise(universe, list)
    ensures out.Failures? ==> forall f :: f in out.list <==> RestBlames(py, universe, rounds, list, provenance, f)
  {
    var before := ScansOfBoth(py, universe, rounds) + VersionFailures(py.sha, provenance, list);
    var credits := CheckCredits(universe, list);
    out := Then(Then(Failures(before), credits), Failures(SourceFailures(py, provenance)));
    forall f ensures f in before <==> BeforeBlames(py, universe, rounds, list, provenance, f) {
      BeforeCreditsBlame(py, universe, rounds, list, provenance, f);
    }
    forall f ensures f in SourceFailures(py, provenance) <==> SourceBlames(py, provenance, f) {
      SourceFailuresBlame(py, provenance, f);
    }
  }

  ghost predicate BeforeBlames(py: Python, universe: Json, rounds: Json, list: seq<Json>, provenance: Json, f: Failure) {
    ScanBlames(py, Universe, universe, f) || ScanBlames(py, Rounds, rounds, f) || VersionBlames(py.sha, provenance, list, f)
  }

  lemma BeforeCreditsBlame(py: Python, universe: Json, rounds: Json, list: seq<Json>, provenance: Json, f: Failure)
    requires provenance.Obj?
    ensures f in ScansOfBoth(py, universe, rounds) + VersionFailures(py.sha, provenance, list)
      <==> BeforeBlames(py, universe, rounds, list, provenance, f)
  {
    ScanFailuresBlame(py, Universe, universe, f);
    ScanFailuresBlame(py, Rounds, rounds, f);
    VersionFailuresBlame(py.sha, provenance, list, f);
  }

  /** The validator raises on this pair of dictionaries: on unhashable or unreadable lists of the universe, or,
      once the rounds are a list, on a round, on a provenance that is no dictionary, or on the credits. */
  ghost predicate PairRaises(universe: Json, rounds: Json) {
    var list := ListUnder(rounds, "rounds");
    && universe.Obj? && rounds.Obj?
    && (|| !UniverseCollects(universe)
        || (&& list.Arr?
            && (|| RaisesBelow(list.items, |list.items|)
                || !GetOr(universe, "provenance", Obj([])).Obj?
                || CreditsRaise(universe, list.items))))
  }

  /** The failure is one of the pair's. */
  ghost predicate PairBlames(py: Python, universe: Json, rounds: Json, f: Failure) {
    var list := ListUnder(rounds, "rounds");
    if !universe.Obj? then f == NotAnObject(Universe)
    else if !rounds.Obj? then f == NotAnObject(Rounds)
    else if !list.Arr? then f == RoundsNotAnArray
    else
      || HeaderBlames(universe, rounds, f)
      || BlamesBelow(py.sha, list.items, |list.items|, UniverseIds(universe, "contributors"), UniverseIds(universe, "albums"), f)
      || RestBlames(py, universe, rounds, list.items, GetOr(universe, "provenance", Obj([])), f)
  }

  /** `connection_rounds_failures`. */
  method RoundsFailures(py: Python, universe: Json, rounds: Json) returns (out: Outcome<Failure>)
    ensures out == Failures([]) <==> ValidRounds(py, universe, rounds)
    ensures out.Raised? <==> PairRaises(universe, rounds)
    ensures out.Failures? ==> forall f :: f in out.list <==> PairBlames(py, universe, rounds, f)
  {
    if !universe.Obj? { return Failures([NotAnObject(Universe)]); }
    if !rounds.Obj? { return Failures([NotAnObject(Rounds)]); }
    var header := HeaderFailures(universe, rounds);
    if !UniverseCollects(universe) { return Raised; }
    var entries := ListUnder(rounds, "rounds");
    if !entries.Arr? { return Failures([RoundsNotAnArray]); }
    var found := CheckRounds(py.sha, entries.items, UniverseIds(universe, "contributors"), UniverseIds(universe, "albums"));
    // universe.get("provenance", {}).get(...): a provenance that is no dictionary raises
    var provenance := GetOr(universe, "provenance", Obj([]));
    if !provenance.Obj? { return Raised; }
    var rest := CheckRest(py, universe, rounds, entries.items, provenance);
    out := Then(Then(Failures(header), found), rest);
    RoundsAreThere(universe, rounds);
    Parts(py, universe, rounds, entries.items, provenance);
    forall f ensures f in header <==> HeaderBlames(universe, rounds, f) { HeaderFailuresBlame(universe, rounds, f); }
  }

  /** The parts of the validator make up the whole. */
  lemma Parts(py: Python, universe: Json, rounds: Json, list: seq<Json>, provenance: Json)
    requires universe.Obj? && rounds.Obj? && UniverseCollects(universe) && provenance.Obj?
    requires ListUnder(rounds, "rounds") == Arr(list) && provenance == GetOr(universe, "provenance", Obj([]))
    ensures ValidRounds(py, universe, rounds) <==>
      && GoodHeader(universe, rounds)
      && GoodRounds(py.sha, list) && AllPass(list, UniverseIds(universe, "contributors"), UniverseIds(universe, "albums"))
      && RestHolds(py, universe, rounds, list, provenance)
  {
    RoundsAreThere(universe, rounds);
  }

  /** With the header in order, both members are there. */
  lemma RoundsAreThere(universe: Json, rounds: Json)
    requires universe.Obj? && rounds.Obj?
    ensures GoodHeader(universe, rounds) ==>
      ListUnder(rounds, "rounds") == Member(rounds, "rounds") && GetOr(universe, "provenance", Obj([])) == Member(universe, "provenance")
  {
    if GoodHeader(universe, rounds) {
      assert "rounds" in ROUNDS_KEYS && "provenance" in UNIVERSE_KEYS;
    }
  }

  // ---------- What a version pins down ----------

  /** The rounds artifact's own provenance says what the universe's says. */
  lemma ProvenanceShared(
      sha: string -> string, universe: Json, rounds: Json, field: string)
    requires PinnedRounds(sha, universe, rounds)
    ensures Member(rounds, "provenance").Obj?
    ensures PyEqual(Member(Member(universe, "provenance"), field), Member(Member(rounds, "provenance"), field))
  {
    var p, q := Member(universe, "provenance"), Member(rounds, "provenance");
    assert PyEqual(p, q);
    assert Keys(p.fields) == Keys(q.fields);
  }

  lemma TruthShared(v: Json, w: Json)
    requires PyEqual(v, w)
    ensures Truthy(v) <==> Truthy(w)
  {
    if v.Obj? && w.Obj? {
      KeysEmpty(v.fields);
      KeysEmpty(w.fields);
    }
  }

  lemma KeysEmpty(fields: seq<Field>)
    ensures Keys(fields) == {} <==> fields == []
  {
    if fields != [] { assert fields[0].key in Keys(fields); }
  }

  /** The rounds artifact carries every required provenance field. */
  lemma CarriesProvenance(
      sha: string -> string, universe: Json, rounds: Json, field: string)
    requires PinnedRounds(sha, universe, rounds) && field in REQUIRED_PROVENANCE
    ensures Member(rounds, "provenance").Obj? && Truthy(Member(Member(rounds, "provenance"), field))
  {
    ProvenanceShared(sha, universe, rounds, field);
    TruthShared(Member(Member(universe, "provenance"), field), Member(Member(rounds, "provenance"), field));
  }

  lemma {:induction false} FingerprintsAt(sha: string -> string, rounds: seq<Json>)
    requires GoodRounds(sha, rounds)
    ensures |Fingerprints(sha, rounds)| == |rounds|
    ensures forall i :: 0 <= i < |rounds| ==> Fingerprints(sha, rounds)[i] == Str(Fingerprint(sha, rounds[i]))
  {
    if rounds != [] {
      assert GoodRound(sha, rounds[0]);
      assert forall i :: 0 <= i < |rounds| - 1 ==> rounds[1..][i] == rounds[i + 1];
      FingerprintsAt(sha, rounds[1..]);
    }
  }

  /** The artifact version is a recorded string, checked because the snapshot date is one. */
  predicate VersionChecked(universe: Json) {
    Member(Member(universe, "provenance"), "snapshot_date").Str?
  }

  lemma VersionText(sha: string -> string, universe: Json, rounds: Json)
    requires PinnedRounds(sha, universe, rounds) && VersionChecked(universe)
    ensures exists snapshot :: Member(Member(rounds, "provenance"), "artifact_version")
                 == Str(ArtifactVersion(sha, Member(rounds, "rounds").items, snapshot))
  {
    ProvenanceShared(sha, universe, rounds, "artifact_version");
    var snapshot := Member(Member(universe, "provenance"), "snapshot_date").s;
    StringsEqual(Member(Member(rounds, "provenance"), "artifact_version"),
                 ArtifactVersion(sha, Member(rounds, "rounds").items, snapshot));
    SymmetricText(Member(Member(rounds, "provenance"), "artifact_version"),
                  ArtifactVersion(sha, Member(rounds, "rounds").items, snapshot));
  }

  lemma SymmetricText(v: Json, s: string)
    ensures PyEqual(Str(s), v) <==> v == Str(s)
  {
  }

  /** No two of the texts the versions are built from collide. */
  ghost predicate VersionsDistinguish(sha: string -> string, a: seq<Json>, b: seq<Json>) {
    Distinguished(sha, 12, Arr(Fingerprints(sha, a)), Arr(Fingerprints(sha, b)))
    && forall i :: 0 <= i < |a| && i < |b| ==> Distinguished(sha, 16, a[i], b[i])
  }

  ghost predicate SameTexts(a: seq<Json>, b: seq<Json>) {
    |a| == |b| && forall i :: 0 <= i < |a| ==> CanonicalJson(a[i]) == CanonicalJson(b[i])
  }

  lemma EqualVersions(sha: string -> string, a: seq<Json>, b: seq<Json>, d: string, e: string)
    requires Digest(sha) && ArtifactVersion(sha, a, d) == ArtifactVersion(sha, b, e)
    ensures ContentHash(sha, Arr(Fingerprints(sha, a)), 12) == ContentHash(sha, Arr(Fingerprints(sha, b)), 12)
  {
    var x, y := ContentHash(sha, Arr(Fingerprints(sha, a)), 12), ContentHash(sha, Arr(Fingerprints(sha, b)), 12);
    SameTail("connection-artifact-v1-" + d + "-", "connection-artifact-v1-" + e + "-", x, y);
  }

  lemma FingerprintsProper(sha: string -> string, rounds: seq<Json>)
    ensures Proper(Arr(Fingerprints(sha, rounds)))
  {
    var list := Fingerprints(sha, rounds);
    FingerprintsAreText(sha, rounds);
  }

  lemma {:induction false} FingerprintsAreText(sha: string -> string, rounds: seq<Json>)
    ensures forall i :: 0 <= i < |Fingerprints(sha, rounds)| ==> Fingerprints(sha, rounds)[i].Str?
  {
    if rounds != [] { FingerprintsAreText(sha, rounds[1..]); }
  }

  lemma EqualFingerprint(sha: string -> string, v: Json, w: Json)
    requires Fingerprint(sha, v) == Fingerprint(sha, w) && Distinguished(sha, 16, v, w)
    ensures CanonicalJson(v) == CanonicalJson(w)
  {
    SameTailAfter("rfp-", ContentHash(sha, v, 16), ContentHash(sha, w, 16));
  }

  lemma EqualFingerprints(sha: string -> string, a: seq<Json>, b: seq<Json>)
    requires GoodRounds(sha, a) && GoodRounds(sha, b)
    requires VersionsDistinguish(sha, a, b) && Fingerprints(sha, a) == Fingerprints(sha, b)
    ensures SameTexts(a, b)
  {
    FingerprintsAt(sha, a);
    FingerprintsAt(sha, b);
    forall i | 0 <= i < |a| ensures CanonicalJson(a[i]) == CanonicalJson(b[i]) {
      assert Fingerprints(sha, a)[i] == Fingerprints(sha, b)[i];
      EqualFingerprint(sha, a[i], b[i]);
    }
  }

  lemma TextListsEqual(a: seq<Json>, b: seq<Json>)
    requires Same(Arr(a), Arr(b)) && forall i :: 0 <= i < |a| ==> a[i].Str?
    ensures a == b
  {
    forall i | 0 <= i < |a| ensures a[i] == b[i] {
      assert Alike(false, a[i], b[i]);
    }
  }

  /** Two validated artifacts with the same `artifact_version` hold the same rounds in the same order. */
  lemma VersionPinsRounds(
      sha: string -> string, u: Json, p: Json, w: Json, q: Json)
    requires Digest(sha)
    requires PinnedRounds(sha, u, p) && VersionChecked(u)
    requires PinnedRounds(sha, w, q) && VersionChecked(w)
    requires Member(Member(p, "provenance"), "artifact_version") == Member(Member(q, "provenance"), "artifact_version")
    requires VersionsDistinguish(sha, Member(p, "rounds").items, Member(q, "rounds").items)
    ensures SameTexts(Member(p, "rounds").items, Member(q, "rounds").items)
  {
    var a, b := Member(p, "rounds").items, Member(q, "rounds").items;
    VersionText(sha, u, p);
    VersionText(sha, w, q);
    var d :| Member(Member(p, "provenance"), "artifact_version") == Str(ArtifactVersion(sha, a, d));
    var e :| Member(Member(q, "provenance"), "artifact_version") == Str(ArtifactVersion(sha, b, e));
    EqualVersions(sha, a, b, d, e);
    FingerprintsProper(sha, a);
    FingerprintsProper(sha, b);
    CanonicalIffSame(Arr(Fingerprints(sha, a)), Arr(Fingerprints(sha, b)));
    FingerprintsAreText(sha, a);
    TextListsEqual(Fingerprints(sha, a), Fingerprints(sha, b));
    EqualFingerprints(sha, a, b);
  }
}
