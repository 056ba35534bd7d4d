/** The daily resolver on any inputs at all: what it resolves to, and that each refusal is for the reason it gives. */
module DailyAnswers {
  import opened Text
  import opened Json
  import opened PythonValues
  import opened ContentHashes
  import opened ConnectionRounds
  import opened ManifestValidator
  import opened DailyManifest

  // ---------- What is looked for ----------

  predicate TextAt(v: Json, key: string) {
    Member(v, key).Str? && Member(v, key).s != ""
  }

  /** The place of the first member of a list that is as wanted. */
  ghost predicate FirstAt(list: seq<Json>, n: nat, wanted: Json -> bool) {
    n < |list| && wanted(list[n]) && forall i :: 0 <= i < n ==> !wanted(list[i])
  }

  ghost predicate First(list: seq<Json>, wanted: Json -> bool, v: Json) {
    exists n: nat :: FirstAt(list, n, wanted) && list[n] == v
  }

  ghost predicate NoneOf(list: seq<Json>, wanted: Json -> bool) {
    forall i :: 0 <= i < |list| ==> !wanted(list[i])
  }

  /** An entry with its four texts, for the date asked for. */
  function ForDate(date: string): Json -> bool {
    (e: Json) =>
      TextAt(e, "date") && TextAt(e, "round_id") && TextAt(e, "round_fingerprint") && TextAt(e, "generation")
      && Member(e, "date") == Str(date)
  }

  /** A generation with its five texts, of the name the entry gives. */
  function OfName(e: Json): Json -> bool {
    (g: Json) =>
      TextAt(g, "generation_id") && TextAt(g, "catalog_version") && TextAt(g, "pool_version")
      && TextAt(g, "artifact_version") && TextAt(g, "rounds_url")
      && Member(g, "generation_id") == Member(e, "generation")
  }

  function OfId(e: Json): Json -> bool {
    (r: Json) => Member(r, "id").Str? && Member(r, "id") == Member(e, "round_id")
  }

  /** A rounds artifact: a numbered schema, three versions and a list of rounds. */
  predicate HasRounds(a: Json) {
    var p := Member(a, "provenance");
    Member(a, "schema_version").Num? && Member(a, "rounds").Arr?
    && TextAt(p, "catalog_version") && TextAt(p, "pool_version") && TextAt(p, "artifact_version")
  }

  predicate VersionsMatch(a: Json, g: Json) {
    forall key :: key in {"catalog_version", "pool_version", "artifact_version"} ==>
      Member(Member(a, "provenance"), key) == Member(g, key)
  }

  /** A manifest of the second schema. */
  predicate Supported(m: Json) {
    Member(m, "schema_version") == Num(2) && Member(m, "mode").Str? && Member(m, "schedule").Arr?
    && Member(m, "generations").Arr? && |Member(m, "generations").items| > 0
  }

  /** The entry for the date, and the generation it names. */
  ghost predicate Names(m: Json, date: string, e: Json) {
    Supported(m) && Member(m, "mode") == Str("connection_guesser_one_hop")
    && First(Member(m, "schedule").items, ForDate(date), e)
  }

  ghost predicate Generates(m: Json, date: string, e: Json, g: Json) {
    Names(m, date, e) && First(Member(m, "generations").items, OfName(e), g)
  }

  /** What the generation's rounds are taken from: the artifact in hand when it is the generation's own, and
      otherwise whatever its URL serves. */
  function Source(g: Json, loaded: Json, fetch: string -> Option<Json>): Option<Json>
    requires TextAt(g, "rounds_url")
  {
    if HasRounds(loaded) && VersionsMatch(loaded, g) then Some(loaded) else fetch(Member(g, "rounds_url").s)
  }

  /** That is a rounds artifact of schema 1. */
  predicate Usable(a: Option<Json>) {
    a.Some? && HasRounds(a.value) && Member(a.value, "schema_version") == Num(1)
  }

  ghost predicate Finds(a: Json, e: Json, r: Json) {
    Member(a, "rounds").Arr? && First(Member(a, "rounds").items, OfId(e), r)
  }

  predicate RealOneHop(r: Json) {
    Member(r, "pool") == Str("real-records") && Member(r, "kind") == Str("one_hop")
  }

  // ---------- The answer ----------

  /** The round found under the entry's id in an artifact of the entry's own generation, real, one-hop and of
      the entry's fingerprint. */
  ghost predicate IsRoundOf(sha: string -> string, e: Json, g: Json, a: Json, r: Json) {
    VersionsMatch(a, g) && Finds(a, e, r) && RealOneHop(r) && Str(Fingerprint(sha, r)) == Member(e, "round_fingerprint")
  }

  ghost predicate Resolves(sha: string -> string, m: Json, loaded: Json, date: string, fetch: string -> Option<Json>, r: Json) {
    exists e, g :: Generates(m, date, e, g) && ResolvesFrom(sha, e, g, loaded, fetch, r)
  }

  ghost predicate ResolvesFrom(sha: string -> string, e: Json, g: Json, loaded: Json, fetch: string -> Option<Json>, r: Json) {
    TextAt(g, "rounds_url") && Usable(Source(g, loaded, fetch)) && IsRoundOf(sha, e, g, Source(g, loaded, fetch).value, r)
  }

  /** The reasons that come before an artifact is taken. */
  predicate Early(reason: Reason) {
    reason in {UnsupportedManifest, WrongMode, NotScheduled, GenerationUnknown}
  }

  ghost predicate EarlyTrue(m: Json, date: string, reason: Reason) {
    match reason
    case UnsupportedManifest => !Supported(m)
    case WrongMode => Supported(m) && Member(m, "mode") != Str("connection_guesser_one_hop")
    case NotScheduled => Supported(m) && NoneOf(Member(m, "schedule").items, ForDate(date))
    case GenerationUnknown => exists e :: Names(m, date, e) && NoneOf(Member(m, "generations").items, OfName(e))
    case _ => false
  }

  ghost predicate LaterTrue(sha: string -> string, m: Json, loaded: Json, date: string, fetch: string -> Option<Json>, reason: Reason) {
    exists e, g :: Generates(m, date, e, g) && Fails(sha, e, g, loaded, fetch, reason)
  }

  /** What each reason for refusing claims. */
  ghost predicate IsTrue(sha: string -> string, m: Json, loaded: Json, date: string, fetch: string -> Option<Json>, reason: Reason) {
    if Early(reason) then EarlyTrue(m, date, reason) else LaterTrue(sha, m, loaded, date, fetch, reason)
  }

  ghost predicate Fails(sha: string -> string, e: Json, g: Json, loaded: Json, fetch: string -> Option<Json>, reason: Reason) {
    TextAt(g, "rounds_url")
    && var a := Source(g, loaded, fetch);
      if reason == GenerationRoundsUnavailable then !Usable(a)
      else Usable(a) && FailsIn(sha, e, g, a.value, reason)
  }

  ghost predicate FailsIn(sha: string -> string, e: Json, g: Json, a: Json, reason: Reason) {
    match reason
    case VersionsDiffer => !VersionsMatch(a, g)
    case MissingRound =>
      VersionsMatch(a, g) && Member(a, "rounds").Arr? && NoneOf(Member(a, "rounds").items, OfId(e))
    case IneligibleRound => VersionsMatch(a, g) && exists r :: Finds(a, e, r) && !RealOneHop(r)
    case FingerprintDiffers =>
      VersionsMatch(a, g) && exists r :: Finds(a, e, r) && RealOneHop(r) && Str(Fingerprint(sha, r)) != Member(e, "round_fingerprint")
    case _ => false
  }

  // ---------- The resolver gives it ----------

  lemma {:induction false} FindIsFirst(list: seq<Json>, p: Json -> bool, wanted: Json -> bool)
    requires forall v :: p(v) == wanted(v)
    ensures Find(list, p).None? ==> NoneOf(list, wanted)
    ensures Find(list, p).Some? ==> First(list, wanted, Find(list, p).value)
  {
    if list != [] && !p(list[0]) {
      var rest := list[1..];
      FindIsFirst(rest, p, wanted);
      assert forall i :: 0 < i < |list| ==> list[i] == rest[i - 1];
      if Find(list, p).Some? {
        var n: nat :| FirstAt(rest, n, wanted) && rest[n] == Find(list, p).value;
        assert FirstAt(list, n + 1, wanted) && list[n + 1] == rest[n];
      }
    } else if list != [] {
      assert FirstAt(list, 0, wanted);
    }
  }

  lemma SameTests(e: Json, date: string)
    ensures forall v :: EntryOn(date)(v) == ForDate(date)(v)
    ensures forall v :: GenerationNamed(Member(e, "generation"))(v) == OfName(e)(v)
    ensures forall v :: RoundNamed(Member(e, "round_id"))(v) == OfId(e)(v)
  {
  }

  lemma SameArtifact(a: Json, g: Json)
    ensures IsGameRoundsArtifact(a) == HasRounds(a) && SameVersions(Member(a, "provenance"), g) == VersionsMatch(a, g)
  {
  }

  /** Within the artifact taken. */
  lemma AnswersWith(sha: string -> string, e: Json, g: Json, a: Json)
    ensures var out := ResolveIn(sha, e, g, a);
      && (out == Refused(GenerationRoundsUnavailable) <==> !Usable(Some(a)))
      && (out.Resolved? ==> IsRoundOf(sha, e, g, a, out.round))
      && (out.Refused? && Usable(Some(a)) ==> FailsIn(sha, e, g, a, out.reason))
  {
    SameArtifact(a, g);
    if Usable(Some(a)) && VersionsMatch(a, g) {
      FoundIn(e, a);
      AnswersFound(sha, e, g, a);
    }
  }

  lemma FoundIn(e: Json, a: Json)
    requires Member(a, "rounds").Arr?
    ensures var rounds := Member(a, "rounds").items;
      var found := Find(rounds, RoundNamed(Member(e, "round_id")));
      (found.None? ==> NoneOf(rounds, OfId(e))) && (found.Some? ==> Finds(a, e, found.value))
  {
    SameTests(e, "");
    FindIsFirst(Member(a, "rounds").items, RoundNamed(Member(e, "round_id")), OfId(e));
  }

  lemma AnswersFound(sha: string -> string, e: Json, g: Json, a: Json)
    requires Member(a, "schema_version") == Num(1) && IsGameRoundsArtifact(a) && SameVersions(Member(a, "provenance"), g) && VersionsMatch(a, g)
    requires var rounds := Member(a, "rounds").items;
      var found := Find(rounds, RoundNamed(Member(e, "round_id")));
      (found.None? ==> NoneOf(rounds, OfId(e))) && (found.Some? ==> Finds(a, e, found.value))
    ensures var out := ResolveIn(sha, e, g, a);
      && (out.Resolved? ==> IsRoundOf(sha, e, g, a, out.round))
      && (out.Refused? ==> FailsIn(sha, e, g, a, out.reason) && out.reason != GenerationRoundsUnavailable)
  {
    var found := Find(Member(a, "rounds").items, RoundNamed(Member(e, "round_id")));
    Looked(sha, e, g, a, found);
    if found.Some? { AnswersRound(sha, e, g, a, found.value); }
  }

  lemma Looked(sha: string -> string, e: Json, g: Json, a: Json, found: Option<Json>)
    requires Member(a, "schema_version") == Num(1) && IsGameRoundsArtifact(a) && SameVersions(Member(a, "provenance"), g)
    requires found == Find(Member(a, "rounds").items, RoundNamed(Member(e, "round_id")))
    ensures ResolveIn(sha, e, g, a) == if found.None? then Refused(MissingRound) else OfRound(sha, e, found.value)
  {
  }

  function OfRound(sha: string -> string, e: Json, r: Json): Resolution {
    if !RealOneHop(r) then Refused(IneligibleRound)
    else if Str(Fingerprint(sha, r)) != Member(e, "round_fingerprint") then Refused(FingerprintDiffers)
    else Resolved(r)
  }

  lemma AnswersRound(sha: string -> string, e: Json, g: Json, a: Json, r: Json)
    requires VersionsMatch(a, g) && Finds(a, e, r)
    ensures var out := OfRound(sha, e, r);
      && (out.Resolved? ==> IsRoundOf(sha, e, g, a, out.round))
      && (out.Refused? ==> FailsIn(sha, e, g, a, out.reason))
  {
  }

  lemma AnswersIn(sha: string -> string, e: Json, g: Json, loaded: Json, fetch: string -> Option<Json>, out: Resolution)
    requires TextAt(g, "rounds_url") && IsGeneration(g)
    requires out == match ChooseArtifact(g, loaded, fetch)
      case None => Refused(GenerationRoundsUnavailable)
      case Some(artifact) => ResolveIn(sha, e, g, artifact)
    ensures out.Resolved? ==> ResolvesFrom(sha, e, g, loaded, fetch, out.round)
    ensures out.Refused? ==> Fails(sha, e, g, loaded, fetch, out.reason)
  {
    SameArtifact(loaded, g);
    assert ChooseArtifact(g, loaded, fetch) == Source(g, loaded, fetch);
    if Source(g, loaded, fetch).Some? { AnswersWith(sha, e, g, Source(g, loaded, fetch).value); }
  }

  lemma FailsLater(sha: string -> string, m: Json, e: Json, g: Json, loaded: Json, date: string, fetch: string -> Option<Json>, reason: Reason)
    requires Generates(m, date, e, g) && Fails(sha, e, g, loaded, fetch, reason)
    ensures IsTrue(sha, m, loaded, date, fetch, reason)
  {
    FailsLate(sha, e, g, loaded, fetch, reason);
    assert LaterTrue(sha, m, loaded, date, fetch, reason);
  }

  lemma FailsLate(sha: string -> string, e: Json, g: Json, loaded: Json, fetch: string -> Option<Json>, reason: Reason)
    requires Fails(sha, e, g, loaded, fetch, reason)
    ensures !Early(reason)
  {
  }

  lemma AnswersGeneration(sha: string -> string, m: Json, e: Json, g: Json, loaded: Json, date: string, fetch: string -> Option<Json>)
    requires Generates(m, date, e, g) && IsDailyManifestV2(m) && IsGeneration(g) && TextAt(g, "rounds_url")
    requires Find(Member(m, "generations").items, GenerationNamed(Member(e, "generation"))) == Some(g)
    ensures var out := ResolveEntry(sha, e, m, loaded, fetch);
      (out.Resolved? ==> Resolves(sha, m, loaded, date, fetch, out.round))
      && (out.Refused? ==> IsTrue(sha, m, loaded, date, fetch, out.reason))
  {
    var out := ResolveEntry(sha, e, m, loaded, fetch);
    AnswersIn(sha, e, g, loaded, fetch, out);
    if out.Refused? { FailsLater(sha, m, e, g, loaded, date, fetch, out.reason); }
  }

  lemma AnswersEntry(sha: string -> string, m: Json, e: Json, loaded: Json, date: string, fetch: string -> Option<Json>)
    requires Names(m, date, e) && IsDailyManifestV2(m)
    ensures var out := ResolveEntry(sha, e, m, loaded, fetch);
      (out.Resolved? ==> Resolves(sha, m, loaded, date, fetch, out.round))
      && (out.Refused? ==> IsTrue(sha, m, loaded, date, fetch, out.reason))
  {
    SameTests(e, date);
    var gs := Member(m, "generations").items;
    var found := Find(gs, GenerationNamed(Member(e, "generation")));
    FindIsFirst(gs, GenerationNamed(Member(e, "generation")), OfName(e));
    if found.Some? { AnswersGeneration(sha, m, e, found.value, loaded, date, fetch); }
  }

  /** Whatever the manifest, the artifact in hand, the date and what is served: a resolved round is the one
      described, and a refusal is for the reason it gives. */
  lemma AnswerIsTrue(sha: string -> string, m: Json, loaded: Json, date: string, fetch: string -> Option<Json>)
    ensures var out := ResolveDay(sha, m, loaded, date, fetch);
      (out.Resolved? ==> Resolves(sha, m, loaded, date, fetch, out.round))
      && (out.Refused? ==> IsTrue(sha, m, loaded, date, fetch, out.reason))
  {
    if IsDailyManifestV2(m) && Member(m, "mode") == Str(MODE) {
      var es := Member(m, "schedule").items;
      SameTests(Null, date);
      FindIsFirst(es, EntryOn(date), ForDate(date));
      var found := Find(es, EntryOn(date));
      if found.Some? {
        assert Names(m, date, found.value);
        AnswersEntry(sha, m, found.value, loaded, date, fetch);
      }
    }
  }

  // ---------- And nothing else ----------

  lemma FirstIsOne(list: seq<Json>, wanted: Json -> bool, v: Json, w: Json)
    requires First(list, wanted, v)
    ensures !NoneOf(list, wanted) && (First(list, wanted, w) ==> w == v)
  {
    var n: nat :| FirstAt(list, n, wanted) && list[n] == v;
    if First(list, wanted, w) {
      var k: nat :| FirstAt(list, k, wanted) && list[k] == w;
    }
  }

  lemma OneFound(a: Json, e: Json, r: Json, s: Json)
    requires Finds(a, e, r)
    ensures !NoneOf(Member(a, "rounds").items, OfId(e)) && (Finds(a, e, s) ==> s == r)
  {
    FirstIsOne(Member(a, "rounds").items, OfId(e), r, s);
  }

  lemma ResolvesInOnly(sha: string -> string, e: Json, g: Json, a: Json, r: Json, reason: Reason)
    requires IsRoundOf(sha, e, g, a, r)
    ensures !FailsIn(sha, e, g, a, reason)
  {
    forall s ensures Finds(a, e, s) ==> s == r { OneFound(a, e, r, s); }
    OneFound(a, e, r, r);
  }

  lemma EntryIsOne(m: Json, date: string, e: Json, g: Json, d: Json, f: Json)
    requires Generates(m, date, e, g)
    ensures Names(m, date, d) ==> d == e
    ensures Generates(m, date, d, f) ==> d == e && f == g
    ensures !NoneOf(Member(m, "schedule").items, ForDate(date)) && !NoneOf(Member(m, "generations").items, OfName(e))
  {
    FirstIsOne(Member(m, "schedule").items, ForDate(date), e, d);
    FirstIsOne(Member(m, "generations").items, OfName(e), g, f);
  }

  lemma NotFailing(sha: string -> string, e: Json, g: Json, loaded: Json, fetch: string -> Option<Json>, r: Json, reason: Reason)
    requires ResolvesFrom(sha, e, g, loaded, fetch, r)
    ensures !Fails(sha, e, g, loaded, fetch, reason)
  {
    ResolvesInOnly(sha, e, g, Source(g, loaded, fetch).value, r, reason);
  }

  lemma NotEarly(m: Json, date: string, e: Json, g: Json, reason: Reason)
    requires Generates(m, date, e, g)
    ensures !EarlyTrue(m, date, reason)
  {
    EntryIsOne(m, date, e, g, e, g);
    forall d ensures Names(m, date, d) ==> d == e { EntryIsOne(m, date, e, g, d, g); }
  }

  lemma NotLater(sha: string -> string, m: Json, loaded: Json, date: string, fetch: string -> Option<Json>, e: Json, g: Json, r: Json, reason: Reason)
    requires Generates(m, date, e, g) && ResolvesFrom(sha, e, g, loaded, fetch, r)
    ensures !LaterTrue(sha, m, loaded, date, fetch, reason)
  {
    NotFailing(sha, e, g, loaded, fetch, r, reason);
    forall d, f ensures Generates(m, date, d, f) ==> d == e && f == g { EntryIsOne(m, date, e, g, d, f); }
  }

  lemma NotRefused(sha: string -> string, m: Json, loaded: Json, date: string, fetch: string -> Option<Json>, r: Json, reason: Reason)
    requires Resolves(sha, m, loaded, date, fetch, r)
    ensures !IsTrue(sha, m, loaded, date, fetch, reason)
  {
    var e, g :| Generates(m, date, e, g) && ResolvesFrom(sha, e, g, loaded, fetch, r);
    NotEarly(m, date, e, g, reason);
    NotLater(sha, m, loaded, date, fetch, e, g, r, reason);
  }

  /** On any inputs, the day resolves to a round exactly when that is the round described. */
  lemma ResolvesExactly(sha: string -> string, m: Json, loaded: Json, date: string, fetch: string -> Option<Json>, r: Json)
    ensures ResolveDay(sha, m, loaded, date, fetch) == Resolved(r) <==> Resolves(sha, m, loaded, date, fetch, r)
  {
    var out := ResolveDay(sha, m, loaded, date, fetch);
    AnswerIsTrue(sha, m, loaded, date, fetch);
    if Resolves(sha, m, loaded, date, fetch, r) {
      if out.Refused? { NotRefused(sha, m, loaded, date, fetch, r, out.reason); }
      SameResolution(sha, m, loaded, date, fetch, r, out.round);
    }
  }

  lemma SameResolution(sha: string -> string, m: Json, loaded: Json, date: string, fetch: string -> Option<Json>, r: Json, s: Json)
    requires Resolves(sha, m, loaded, date, fetch, r) && Resolves(sha, m, loaded, date, fetch, s)
    ensures r == s
  {
    var e, g :| Generates(m, date, e, g) && ResolvesFrom(sha, e, g, loaded, fetch, r);
    var d, f :| Generates(m, date, d, f) && ResolvesFrom(sha, d, f, loaded, fetch, s);
    EntryIsOne(m, date, e, g, d, f);
    OneFound(Source(g, loaded, fetch).value, e, r, s);
  }
}
