/** The browser's daily resolver, and why a validated manifest resolves every scheduled day. */
module DailyManifest {
  import opened Text
  import opened Json
  import opened JsonEquality
  import opened PythonValues
  import opened ContentHashes
  import opened ConnectionRounds
  import opened ManifestValidator

  datatype Reason =
    | UnsupportedManifest
    | WrongMode
    | NotScheduled
    | GenerationUnknown
    | GenerationRoundsUnavailable
    | VersionsDiffer
    | MissingRound
    | IneligibleRound
    | FingerprintDiffers

  datatype Resolution = Resolved(round: Json) | Refused(reason: Reason)

  // ---------- The resolver ----------

  /** `list.find(p)`. */
  function Find(s: seq<Json>, p: Json -> bool): (r: Option<Json>)
    ensures r.Some? ==> r.value in s && p(r.value)
    ensures r.None? ==> forall i :: 0 <= i < |s| ==> !p(s[i])
  {
    if s == [] then None else if p(s[0]) then Some(s[0]) else Find(s[1..], p)
  }

  predicate IsGameRoundsArtifact(v: Json) {
    var p := Member(v, "provenance");
    Member(v, "schema_version").Num?
    && IsText(Member(p, "catalog_version")) && IsText(Member(p, "pool_version")) && IsText(Member(p, "artifact_version"))
    && Member(v, "rounds").Arr?
  }

  predicate IsDailyManifestV2(m: Json) {
    Member(m, "schema_version") == Num(2) && Member(m, "mode").Str?
    && Member(m, "generations").Arr? && Member(m, "generations").items != []
    && Member(m, "schedule").Arr?
  }

  predicate IsGeneration(g: Json) {
    IsText(Member(g, "generation_id")) && IsText(Member(g, "catalog_version")) && IsText(Member(g, "pool_version"))
    && IsText(Member(g, "artifact_version")) && IsText(Member(g, "rounds_url"))
  }

  predicate IsScheduleEntryV2(e: Json) {
    IsText(Member(e, "date")) && IsText(Member(e, "round_id")) && IsText(Member(e, "round_fingerprint"))
    && IsText(Member(e, "generation"))
  }

  predicate SameVersions(provenance: Json, g: Json) {
    Member(provenance, "catalog_version") == Member(g, "catalog_version")
    && Member(provenance, "pool_version") == Member(g, "pool_version")
    && Member(provenance, "artifact_version") == Member(g, "artifact_version")
  }

  /** `alreadyLoadedMatches`. */
  predicate Carries(artifact: Json, g: Json) {
    IsGameRoundsArtifact(artifact) && SameVersions(Member(artifact, "provenance"), g)
  }

  function EntryOn(date: string): Json -> bool {
    (e: Json) => IsScheduleEntryV2(e) && Member(e, "date") == Str(date)
  }

  function GenerationNamed(id: Json): Json -> bool {
    (g: Json) => IsGeneration(g) && Member(g, "generation_id") == id
  }

  function RoundNamed(id: Json): Json -> bool {
    (r: Json) => Member(r, "id").Str? && Member(r, "id") == id
  }

  predicate IsEligibleRound(r: Json) {
    Member(r, "pool") == Str("real-records") && Member(r, "kind") == Str("one_hop")
  }

  /** The artifact the generation resolves against: the one in hand when it is this generation's. */
  function ChooseArtifact(g: Json, loaded: Json, fetch: string -> Option<Json>): Option<Json>
    requires IsGeneration(g)
  {
    if Carries(loaded, g) then Some(loaded) else fetch(Member(g, "rounds_url").s)
  }

  function ResolveIn(sha: string -> string, e: Json, g: Json, artifact: Json): Resolution {
    if !IsGameRoundsArtifact(artifact) || Member(artifact, "schema_version") != Num(1) then
      Refused(GenerationRoundsUnavailable)
    else if !SameVersions(Member(artifact, "provenance"), g) then Refused(VersionsDiffer)
    else match Find(Member(artifact, "rounds").items, RoundNamed(Member(e, "round_id")))
      case None => Refused(MissingRound)
      case Some(round) =>
        if !IsEligibleRound(round) then Refused(IneligibleRound)
        else if Str(Fingerprint(sha, round)) != Member(e, "round_fingerprint") then Refused(FingerprintDiffers)
        else Resolved(round)
  }

  function ResolveEntry(
      sha: string -> string, e: Json, m: Json, loaded: Json, fetch: string -> Option<Json>): Resolution
    requires IsDailyManifestV2(m)
  {
    match Find(Member(m, "generations").items, GenerationNamed(Member(e, "generation")))
    case None => Refused(GenerationUnknown)
    case Some(g) =>
      match ChooseArtifact(g, loaded, fetch)
      case None => Refused(GenerationRoundsUnavailable)
      case Some(artifact) => ResolveIn(sha, e, g, artifact)
  }

  /** `resolveDailyRound` on the schema-2 path; a fetch that throws answers `None`. */
  function ResolveDay(
      sha: string -> string, m: Json, loaded: Json, date: string, fetch: string -> Option<Json>): Resolution
  {
    if !IsDailyManifestV2(m) then Refused(UnsupportedManifest)
    else if Member(m, "mode") != Str(MODE) then Refused(WrongMode)
    else match Find(Member(m, "schedule").items, EntryOn(date))
      case None => Refused(NotScheduled)
      case Some(e) => ResolveEntry(sha, e, m, loaded, fetch)
  }

  // ---------- Finding ----------

  lemma {:induction false} FindsFirst(s: seq<Json>, p: Json -> bool, n: nat)
    requires n < |s| && p(s[n])
    requires forall i :: 0 <= i < n ==> !p(s[i])
    ensures Find(s, p) == Some(s[n])
  {
    if n > 0 {
      assert !p(s[0]);
      FindsFirst(s[1..], p, n - 1);
    }
  }

  lemma {:induction false} FindsNone(s: seq<Json>, p: Json -> bool)
    requires forall i :: 0 <= i < |s| ==> !p(s[i])
    ensures Find(s, p) == None
  {
    if s != [] { FindsNone(s[1..], p); }
  }

  // ---------- What validation says about one day ----------

  function Schedule(m: Json): seq<Json> { ListAt(m, "schedule") }

  function Generations(m: Json): seq<Json> { ListAt(m, "generations") }

  function StartDay(w: World, m: Json): int {
    match w.parseDate(TextOf(Member(m, "start_date"))) case Some(d) => d case None => 0
  }

  lemma EntryIsGood(w: World, m: Json, n: nat)
    requires ValidManifest(w, m) && n < |Schedule(m)|
    ensures GoodEntry(w, GenerationIds(Generations(m)), Schedule(m)[n])
  {
  }

  lemma {:induction false} SlotDays(xs: seq<Slot>, n: nat)
    requires Orderly(xs) && n < |xs|
    ensures xs[n].day == xs[0].day + n
  {
    if n > 0 { SlotDays(xs, n - 1); }
  }

  /** What validation says about the dates alone. */
  ghost predicate Dated(w: World, m: Json) {
    var es := Schedule(m);
    Orderly(Slots(w, es)) && (forall i :: 0 <= i < |es| ==> DateOf(w, es[i]).Some?)
    && es != [] && Member(es[0], "date") == Member(m, "start_date")
  }

  lemma ValidIsDated(w: World, m: Json)
    requires ValidManifest(w, m)
    ensures Dated(w, m)
  {
    forall i | 0 <= i < |Schedule(m)| ensures DateOf(w, Schedule(m)[i]).Some? {
      EntryIsGood(w, m, i);
    }
  }

  /** Days are consecutive from the start date. */
  lemma DayOf(w: World, m: Json, n: nat)
    requires Dated(w, m) && n < |Schedule(m)|
    ensures DateOf(w, Schedule(m)[n]) == Some(StartDay(w, m) + n)
  {
    var es := Schedule(m);
    SlotDays(Slots(w, es), n);
    assert Slots(w, es)[0] == SlotOf(w, es[0]) && Slots(w, es)[n] == SlotOf(w, es[n]);
    assert DateOf(w, es[0]).Some?;
  }

  lemma DatesDiffer(w: World, m: Json, i: nat, j: nat)
    requires ValidManifest(w, m) && i < j < |Schedule(m)|
    ensures Member(Schedule(m)[i], "date") != Member(Schedule(m)[j], "date")
    ensures Member(Schedule(m)[i], "round_id") != Member(Schedule(m)[j], "round_id")
  {
    EntryIsGood(w, m, i);
    EntryIsGood(w, m, j);
    var xs := Slots(w, Schedule(m));
    assert xs[i].date != xs[j].date && xs[i].round != xs[j].round;
  }

  lemma EntryReadable(w: World, m: Json, n: nat)
    requires ValidManifest(w, m) && n < |Schedule(m)| && w.parseDate("") == None
    ensures IsScheduleEntryV2(Schedule(m)[n])
  {
    EntryIsGood(w, m, n);
    var e := Schedule(m)[n];
    var gs := Generations(m);
    assert GenerationIds(gs) == set g | g in gs && g.Obj? && Keys(g.fields) == GENERATION_KEYS
        && IsText(Member(g, "generation_id")) :: Member(g, "generation_id").s;
  }

  /** Asking for the n-th day finds the n-th entry, provided its date is spelled as it is asked for. */
  lemma DayFound(w: World, m: Json, date: string, n: nat)
    requires Dated(w, m) && n < |Schedule(m)| && IsScheduleEntryV2(Schedule(m)[n])
    requires w.parseDate(date) == Some(StartDay(w, m) + n)
    ensures Find(Schedule(m), EntryOn(date)) == if Member(Schedule(m)[n], "date") == Str(date) then Some(Schedule(m)[n]) else None
  {
    var es := Schedule(m);
    DayOf(w, m, n);
    forall i | 0 <= i < |es| && i != n ensures !EntryOn(date)(es[i]) {
      DayOf(w, m, i);
    }
    if Member(es[n], "date") == Str(date) {
      FindsFirst(es, EntryOn(date), n);
    } else {
      FindsNone(es, EntryOn(date));
    }
  }

  /** The generation an entry names, by position. */
  lemma GenerationOf(w: World, m: Json, n: nat) returns (k: nat)
    requires ValidManifest(w, m) && n < |Schedule(m)|
    ensures k < |Generations(m)|
    ensures Member(Generations(m)[k], "generation_id") == Member(Schedule(m)[n], "generation")
  {
    EntryIsGood(w, m, n);
    IdsOfPrefix(w, Generations(m), Member(Schedule(m)[n], "generation").s);
    k :| 0 <= k < |Generations(m)| && Member(Generations(m)[k], "generation_id") == Member(Schedule(m)[n], "generation");
  }

  lemma OtherNames(w: World, gs: seq<Json>, k: nat, i: nat)
    requires GoodGenerations(w, gs) && k < |gs| && i < |gs| && i != k
    ensures Member(gs[i], "generation_id") != Member(gs[k], "generation_id")
  {
  }

  /** Only that generation can be found, and it is unless one of its fields is no text. */
  lemma GenerationFound(w: World, m: Json, k: nat)
    requires ValidManifest(w, m) && k < |Generations(m)|
    ensures Find(Generations(m), GenerationNamed(Member(Generations(m)[k], "generation_id")))
         == if IsGeneration(Generations(m)[k]) then Some(Generations(m)[k]) else None
  {
    var gs := Generations(m);
    var p := GenerationNamed(Member(gs[k], "generation_id"));
    forall i | 0 <= i < |gs| && i != k ensures !p(gs[i]) {
      OtherNames(w, gs, k, i);
    }
    if IsGeneration(gs[k]) { FindsFirst(gs, p, k); } else { FindsNone(gs, p); }
  }

  // ---------- Artifacts ----------

  /** A rounds artifact that passed its own validator with this universe. */
  ghost predicate Passed(w: World, universe: Json, artifact: Json) {
    Proper(artifact) && ValidRounds(w.py, universe, artifact)
  }

  /** The supplied artifact has the versions its generation claims. */
  lemma VersionsAgree(w: World, universe: Json, g: Json, field: string)
    requires GoodGeneration(w, g) && IsGeneration(g) && Member(g, "generation_id").s in w.artifacts
    requires Passed(w, universe, w.artifacts[Member(g, "generation_id").s])
    requires field in VERSION_FIELDS
    ensures Member(Member(w.artifacts[Member(g, "generation_id").s], "provenance"), field) == Member(g, field)
  {
    var artifact := w.artifacts[Member(g, "generation_id").s];
    VersionIsRequired(field);
    CarriesProvenance(w.py.sha, universe, artifact, field);
    ClaimAgrees(g, Member(artifact, "provenance"), field);
  }

  lemma VersionIsRequired(field: string)
    requires field in VERSION_FIELDS
    ensures field in REQUIRED_PROVENANCE
  {
    var names := REQUIRED_PROVENANCE;
    assert names[5] == "catalog_version" && names[6] == "pool_version" && names[7] == "artifact_version";
  }

  lemma ClaimAgrees(g: Json, provenance: Json, field: string)
    requires field in VERSION_FIELDS && IsGeneration(g) && VersionFits(g, provenance, field) && Truthy(Member(provenance, field))
    ensures Member(provenance, field) == Member(g, field)
  {
    assert IsText(Member(g, field));
    SymmetricText(Member(provenance, field), Member(g, field).s);
  }

  /** So it is accepted as this generation's, unless its schema version is the boolean `true`. */
  lemma SuppliedAccepted(w: World, universe: Json, g: Json)
    requires GoodGeneration(w, g) && IsGeneration(g) && Member(g, "generation_id").s in w.artifacts
    requires Passed(w, universe, w.artifacts[Member(g, "generation_id").s])
    ensures var artifact := w.artifacts[Member(g, "generation_id").s];
      SameVersions(Member(artifact, "provenance"), g)
      && (IsGameRoundsArtifact(artifact) <==> Member(artifact, "schema_version").Num?)
  {
    VersionsAgree(w, universe, g, "catalog_version");
    VersionsAgree(w, universe, g, "pool_version");
    VersionsAgree(w, universe, g, "artifact_version");
  }

  lemma NumberedOne(v: Json)
    requires PyEqual(v, Num(1)) && v.Num?
    ensures v == Num(1)
  {
  }

  // ---------- Rounds ----------

  lemma SameMember(v: Json, w: Json, key: string)
    requires Proper(v) && Proper(w) && CanonicalJson(v) == CanonicalJson(w) && v.Obj?
    ensures w.Obj? && Same(Member(v, key), Member(w, key))
  {
    CanonicalIffSame(v, w);
    assert Same(Null, Null);
  }

  lemma SameTextMember(v: Json, w: Json, key: string)
    requires Proper(v) && Proper(w) && CanonicalJson(v) == CanonicalJson(w) && v.Obj?
    requires Member(v, key).Str?
    ensures Member(w, key) == Member(v, key)
  {
    SameMember(v, w, key);
  }

  lemma SameFingerprint(sha: string -> string, v: Json, w: Json)
    requires CanonicalJson(v) == CanonicalJson(w)
    ensures Fingerprint(sha, v) == Fingerprint(sha, w)
  {
  }

  ghost predicate AllProper(rounds: seq<Json>) {
    forall i :: 0 <= i < |rounds| ==> Proper(rounds[i])
  }

  lemma RoundsProper(artifact: Json)
    requires Proper(artifact)
    ensures AllProper(RoundsOf(artifact))
  {
    if Member(artifact, "rounds").Arr? { ProperValue(artifact.fields, "rounds"); }
  }

  /** The round an entry was validated against. */
  function Target(w: World, m: Json, n: nat): Json
    requires ValidManifest(w, m) && n < |Schedule(m)|
  {
    EntryIsGood(w, m, n);
    var e := Schedule(m)[n];
    EligibleRound(RoundsOf(w.artifacts[Member(e, "generation").s]), Member(e, "round_id").s).value
  }

  lemma TargetFacts(w: World, m: Json, n: nat)
    requires ValidManifest(w, m) && n < |Schedule(m)|
    ensures var e, r := Schedule(m)[n], Target(w, m, n);
      && r.Obj? && Member(r, "id") == Member(e, "round_id") && Member(e, "round_id").Str?
      && Member(r, "pool") == Str("real-records") && Member(r, "kind") == Str("one_hop")
      && Str(Fingerprint(w.py.sha, r)) == Member(e, "round_fingerprint")
      && Member(e, "generation").Str? && Member(e, "generation").s in w.artifacts
      && r in RoundsOf(w.artifacts[Member(e, "generation").s])
  {
    EntryIsGood(w, m, n);
    StringsEqual(Member(Target(w, m, n), "pool"), "real-records");
    StringsEqual(Member(Target(w, m, n), "kind"), "one_hop");
  }

  /** The artifact holds a round with the entry's id and fingerprint. */
  predicate HoldsEntry(sha: string -> string, artifact: Json, e: Json) {
    exists i :: 0 <= i < |RoundsOf(artifact)| && IsEntryRound(sha, RoundsOf(artifact)[i], e)
  }

  predicate IsEntryRound(sha: string -> string, round: Json, e: Json) {
    Member(round, "id") == Member(e, "round_id") && Str(Fingerprint(sha, round)) == Member(e, "round_fingerprint")
  }

  /** The rounds of the artifact do not collide with the entry's own. */
  ghost predicate TellsApart(w: World, m: Json, n: nat, rounds: seq<Json>)
    requires ValidManifest(w, m) && n < |Schedule(m)|
  {
    forall i :: 0 <= i < |rounds| && Member(rounds[i], "id") == Member(Schedule(m)[n], "round_id") ==>
      Distinguished(w.py.sha, 16, rounds[i], Target(w, m, n))
  }

  /** A round with the entry's id and fingerprint is the entry's round, and eligible. */
  lemma EntryRoundIsTarget(w: World, m: Json, n: nat, round: Json)
    requires ValidManifest(w, m) && n < |Schedule(m)| && Proper(round) && Proper(Target(w, m, n))
    requires IsEntryRound(w.py.sha, round, Schedule(m)[n]) && Distinguished(w.py.sha, 16, round, Target(w, m, n))
    ensures CanonicalJson(round) == CanonicalJson(Target(w, m, n)) && IsEligibleRound(round)
  {
    TargetFacts(w, m, n);
    EqualFingerprint(w.py.sha, round, Target(w, m, n));
    SameTextMember(Target(w, m, n), round, "pool");
    SameTextMember(Target(w, m, n), round, "kind");
  }

  /** Ids are distinct, so a round is found by its id. */
  lemma RoundFound(sha: string -> string, rounds: seq<Json>, t: nat)
    requires GoodRounds(sha, rounds) && t < |rounds|
    ensures Find(rounds, RoundNamed(Member(rounds[t], "id"))) == Some(rounds[t])
  {
    var p := RoundNamed(Member(rounds[t], "id"));
    assert GoodRound(sha, rounds[t]);
    forall i | 0 <= i < t ensures !p(rounds[i]) {
      assert Member(rounds[i], "id") != Member(rounds[t], "id");
    }
    FindsFirst(rounds, p, t);
  }

  lemma AcceptedArtifact(sha: string -> string, e: Json, g: Json, artifact: Json)
    requires IsGameRoundsArtifact(artifact) && Member(artifact, "schema_version") == Num(1)
    requires SameVersions(Member(artifact, "provenance"), g)
    ensures var found := Find(RoundsOf(artifact), RoundNamed(Member(e, "round_id")));
      var out := ResolveIn(sha, e, g, artifact);
      (out.Resolved? <==> found.Some? && IsEligibleRound(found.value) && IsEntryRound(sha, found.value, e))
      && (out.Resolved? ==> out.round == found.value)
  {
  }

  /** An accepted artifact resolves the entry exactly when it holds the entry's round. */
  lemma ResolvesIn(w: World, m: Json, n: nat, universe: Json, g: Json, artifact: Json)
    requires ValidManifest(w, m) && n < |Schedule(m)| && Proper(Target(w, m, n))
    requires Passed(w, universe, artifact) && TellsApart(w, m, n, RoundsOf(artifact))
    requires IsGameRoundsArtifact(artifact) && Member(artifact, "schema_version") == Num(1)
    requires SameVersions(Member(artifact, "provenance"), g)
    ensures var out := ResolveIn(w.py.sha, Schedule(m)[n], g, artifact);
      (out.Resolved? <==> HoldsEntry(w.py.sha, artifact, Schedule(m)[n]))
      && (out.Resolved? ==> CanonicalJson(out.round) == CanonicalJson(Target(w, m, n)))
  {
    var e, rounds := Schedule(m)[n], RoundsOf(artifact);
    RoundsProper(artifact);
    EntryRoundFound(w.py.sha, artifact, e);
    AcceptedArtifact(w.py.sha, e, g, artifact);
    var found := Find(rounds, RoundNamed(Member(e, "round_id")));
    if found.Some? && IsEntryRound(w.py.sha, found.value, e) {
      var t :| 0 <= t < |rounds| && rounds[t] == found.value;
      EntryRoundIsTarget(w, m, n, found.value);
    }
  }

  /** The artifact holds the entry's round exactly when the round found under its id is it. */
  lemma EntryRoundFound(sha: string -> string, artifact: Json, e: Json)
    requires GoodRounds(sha, RoundsOf(artifact))
    ensures var found := Find(RoundsOf(artifact), RoundNamed(Member(e, "round_id")));
      HoldsEntry(sha, artifact, e) <==> found.Some? && IsEntryRound(sha, found.value, e)
  {
    var rounds := RoundsOf(artifact);
    if HoldsEntry(sha, artifact, e) {
      var t :| 0 <= t < |rounds| && IsEntryRound(sha, rounds[t], e);
      RoundFound(sha, rounds, t);
    }
    var found := Find(rounds, RoundNamed(Member(e, "round_id")));
    if found.Some? && IsEntryRound(sha, found.value, e) {
      var t :| 0 <= t < |rounds| && rounds[t] == found.value;
    }
  }

  /** The entry's own artifact holds its round, and no other under its id. */
  lemma OwnHoldsEntry(w: World, m: Json, n: nat, universe: Json, own: Json)
    requires ValidManifest(w, m) && n < |Schedule(m)| && Passed(w, universe, own)
    requires Member(Schedule(m)[n], "generation").Str? && Member(Schedule(m)[n], "generation").s in w.artifacts
    requires own == w.artifacts[Member(Schedule(m)[n], "generation").s]
    ensures HoldsEntry(w.py.sha, own, Schedule(m)[n]) && TellsApart(w, m, n, RoundsOf(own)) && Proper(Target(w, m, n))
  {
    var rounds := RoundsOf(own);
    TargetFacts(w, m, n);
    HoldsTarget(w.py.sha, own, Schedule(m)[n], Target(w, m, n));
    var t :| 0 <= t < |rounds| && rounds[t] == Target(w, m, n);
    OwnApart(w, m, n, rounds, t);
  }

  lemma HoldsTarget(sha: string -> string, own: Json, e: Json, r: Json)
    requires Proper(own) && r in RoundsOf(own) && IsEntryRound(sha, r, e)
    ensures HoldsEntry(sha, own, e) && Proper(r)
  {
    RoundsProper(own);
    var t :| 0 <= t < |RoundsOf(own)| && RoundsOf(own)[t] == r;
    assert IsEntryRound(sha, RoundsOf(own)[t], e);
  }

  lemma OwnApart(w: World, m: Json, n: nat, rounds: seq<Json>, t: nat)
    requires ValidManifest(w, m) && n < |Schedule(m)| && GoodRounds(w.py.sha, rounds)
    requires t < |rounds| && rounds[t] == Target(w, m, n) && Member(rounds[t], "id") == Member(Schedule(m)[n], "round_id")
    ensures TellsApart(w, m, n, rounds)
  {
    forall i | 0 <= i < |rounds| && Member(rounds[i], "id") == Member(rounds[t], "id") ensures i == t {
      OneById(w.py.sha, rounds, i, t);
    }
  }

  lemma OneById(sha: string -> string, rounds: seq<Json>, i: nat, t: nat)
    requires GoodRounds(sha, rounds) && i < |rounds| && t < |rounds| && Member(rounds[i], "id") == Member(rounds[t], "id")
    ensures i == t
  {
  }

  // ---------- Every scheduled day resolves ----------

  /** What publication provides: each generation's artifact passed the rounds validator with a
      universe of its own, and is what the generation's URL serves. */
  ghost predicate Published(
      w: World, m: Json, universes: map<string, Json>, fetch: string -> Option<Json>)
  {
    forall g :: g in Generations(m) ==> g in PublishedGenerations(w, universes, fetch)
  }

  ghost function PublishedGenerations(
      w: World, universes: map<string, Json>, fetch: string -> Option<Json>): iset<Json>
  {
    iset g: Json | IsPublished(w, g, universes, fetch)
  }

  ghost predicate IsPublished(
      w: World, g: Json, universes: map<string, Json>, fetch: string -> Option<Json>)
  {
    var id, url := Member(g, "generation_id"), Member(g, "rounds_url");
    && id.Str? && id.s in w.artifacts && id.s in universes
    && Passed(w, universes[id.s], w.artifacts[id.s])
    && (url.Str? ==> fetch(url.s) == Some(w.artifacts[id.s]))
  }

  ghost predicate CarriesSome(m: Json, loaded: Json) {
    exists g :: g in Generations(m) && Carries(loaded, g)
  }

  /** The artifact in hand, if it claims some generation's versions, passed the rounds validator too, and
      does not collide with the entry's round. */
  ghost predicate Trusted(
      w: World, m: Json, n: nat, loadedUniverse: Json, loaded: Json)
    requires ValidManifest(w, m) && n < |Schedule(m)|
  {
    CarriesSome(m, loaded) ==> Passed(w, loadedUniverse, loaded) && TellsApart(w, m, n, RoundsOf(loaded))
  }

  /** What the browser asks and the validators do not: the date as the calendar spells it, texts for the
      generation's fields, the entry's round in an artifact already in hand, and a number for the schema
      version of one it has to fetch. */
  predicate Readable(sha: string -> string, date: string, e: Json, g: Json, loaded: Json, own: Json) {
    Member(e, "date") == Str(date) && IsGeneration(g)
    && if Carries(loaded, g) then HoldsEntry(sha, loaded, e) else Member(own, "schema_version").Num?
  }

  /** An artifact in hand holds the round whenever both snapshot dates are texts, so that both versions
      were checked against the rounds. */
  lemma CheckedVersionHolds(
      w: World, m: Json, n: nat, g: Json, universe: Json, own: Json,
      loadedUniverse: Json, loaded: Json)
    requires Digest(w.py.sha) && ValidManifest(w, m) && n < |Schedule(m)|
    requires GoodGeneration(w, g) && IsGeneration(g) && Member(g, "generation_id") == Member(Schedule(m)[n], "generation")
    requires Member(g, "generation_id").s in w.artifacts && own == w.artifacts[Member(g, "generation_id").s]
    requires Passed(w, universe, own) && Passed(w, loadedUniverse, loaded) && Carries(loaded, g)
    requires VersionChecked(universe) && VersionChecked(loadedUniverse)
    requires VersionsDistinguish(w.py.sha, RoundsOf(own), RoundsOf(loaded))
    ensures HoldsEntry(w.py.sha, loaded, Schedule(m)[n])
  {
    VersionsAgree(w, universe, g, "artifact_version");
    VersionPinsRounds(w.py.sha, universe, own, loadedUniverse, loaded);
    TargetFacts(w, m, n);
    var a, p := RoundsOf(own), RoundsOf(loaded);
    var t :| 0 <= t < |a| && a[t] == Target(w, m, n);
    RoundsProper(own);
    RoundsProper(loaded);
    SameTextMember(a[t], p[t], "id");
    SameFingerprint(w.py.sha, a[t], p[t]);
    assert IsEntryRound(w.py.sha, p[t], Schedule(m)[n]);
  }

  /** It resolves exactly under this condition, and then to this round. */
  predicate ResolvesTo(out: Resolution, holds: bool, round: Json) {
    (out.Resolved? <==> holds) && (out.Resolved? ==> CanonicalJson(out.round) == CanonicalJson(round))
  }

  /** The entry resolves to its own round, from whichever artifact is chosen. */
  lemma EntryResolves(
      w: World, m: Json, n: nat, g: Json, universes: map<string, Json>,
      loadedUniverse: Json, loaded: Json, fetch: string -> Option<Json>)
    requires ValidManifest(w, m) && n < |Schedule(m)|
    requires IsPublished(w, g, universes, fetch) && GoodGeneration(w, g) && IsGeneration(g)
    requires Member(g, "generation_id") == Member(Schedule(m)[n], "generation")
    requires g in Generations(m) && Trusted(w, m, n, loadedUniverse, loaded)
    ensures var own, chosen := w.artifacts[Member(g, "generation_id").s], ChooseArtifact(g, loaded, fetch);
      && chosen.Some?
      && ResolvesTo(ResolveIn(w.py.sha, Schedule(m)[n], g, chosen.value),
                    if Carries(loaded, g) then HoldsEntry(w.py.sha, loaded, Schedule(m)[n]) else Member(own, "schema_version").Num?,
                    Target(w, m, n))
  {
    var id := Member(g, "generation_id").s;
    OwnResolves(w, m, n, g, universes[id], w.artifacts[id]);
    if Carries(loaded, g) {
      assert CarriesSome(m, loaded);
      LoadedResolves(w, m, n, g, loadedUniverse, loaded);
    }
  }

  /** From the artifact in hand, when it carries the generation's versions. */
  lemma LoadedResolves(w: World, m: Json, n: nat, g: Json, universe: Json, loaded: Json)
    requires ValidManifest(w, m) && n < |Schedule(m)| && Proper(Target(w, m, n)) && Carries(loaded, g)
    requires Passed(w, universe, loaded) && TellsApart(w, m, n, RoundsOf(loaded))
    ensures ResolvesTo(ResolveIn(w.py.sha, Schedule(m)[n], g, loaded), HoldsEntry(w.py.sha, loaded, Schedule(m)[n]), Target(w, m, n))
  {
    NumberedOne(Member(loaded, "schema_version"));
    ResolvesIn(w, m, n, universe, g, loaded);
  }

  /** From the artifact its URL serves. */
  lemma OwnResolves(w: World, m: Json, n: nat, g: Json, universe: Json, own: Json)
    requires ValidManifest(w, m) && n < |Schedule(m)| && GoodGeneration(w, g) && IsGeneration(g)
    requires Member(g, "generation_id").s in w.artifacts && own == w.artifacts[Member(g, "generation_id").s]
    requires Passed(w, universe, own) && Member(g, "generation_id") == Member(Schedule(m)[n], "generation")
    ensures Proper(Target(w, m, n))
    ensures ResolvesTo(ResolveIn(w.py.sha, Schedule(m)[n], g, own), Member(own, "schema_version").Num?, Target(w, m, n))
  {
    OwnHoldsEntry(w, m, n, universe, own);
    SuppliedAccepted(w, universe, g);
    if Member(own, "schema_version").Num? {
      NumberedOne(Member(own, "schema_version"));
      ResolvesIn(w, m, n, universe, g, own);
    }
  }

  lemma NumberedTwo(v: Json)
    requires PyEqual(v, Num(2))
    ensures v == Num(2)
  {
  }

  lemma FieldsReadable(w: World, m: Json)
    requires m.Obj? && GoodFields(w, m)
    ensures Member(m, "schema_version") == Num(2) && Member(m, "mode") == Str(MODE)
  {
    NumberedTwo(Member(m, "schema_version"));
  }

  lemma ListIsThere(m: Json, key: string)
    requires ListAt(m, key) != []
    ensures Member(m, key).Arr? && Member(m, key).items == ListAt(m, key)
  {
  }

  lemma ValidIsReadable(w: World, m: Json)
    requires ValidManifest(w, m)
    ensures IsDailyManifestV2(m) && Member(m, "mode") == Str(MODE)
    ensures Member(m, "schedule").items == Schedule(m) && Member(m, "generations").items == Generations(m)
  {
    FieldsReadable(w, m);
    ListIsThere(m, "generations");
    ListIsThere(m, "schedule");
  }

  lemma DayAnswer(w: World, m: Json, loaded: Json, date: string, fetch: string -> Option<Json>)
    requires ValidManifest(w, m)
    ensures IsDailyManifestV2(m)
    ensures ResolveDay(w.py.sha, m, loaded, date, fetch)
         == match Find(Schedule(m), EntryOn(date))
            case None => Refused(NotScheduled)
            case Some(e) => ResolveEntry(w.py.sha, e, m, loaded, fetch)
  {
    ValidIsReadable(w, m);
  }

  lemma LookupIs(sha: string -> string, e: Json, m: Json, g: Json, loaded: Json, fetch: string -> Option<Json>)
    requires IsDailyManifestV2(m) && Member(g, "generation_id") == Member(e, "generation")
    requires Find(Generations(m), GenerationNamed(Member(g, "generation_id"))) == if IsGeneration(g) then Some(g) else None
    ensures ResolveEntry(sha, e, m, loaded, fetch)
         == if !IsGeneration(g) then Refused(GenerationUnknown)
            else match ChooseArtifact(g, loaded, fetch)
              case None => Refused(GenerationRoundsUnavailable)
              case Some(artifact) => ResolveIn(sha, e, g, artifact)
  {
  }

  lemma EntryLookup(w: World, m: Json, n: nat, g: Json, loaded: Json, fetch: string -> Option<Json>)
    requires ValidManifest(w, m) && n < |Schedule(m)| && IsDailyManifestV2(m)
    requires g in Generations(m) && Member(g, "generation_id") == Member(Schedule(m)[n], "generation")
    ensures GoodGeneration(w, g)
    ensures ResolveEntry(w.py.sha, Schedule(m)[n], m, loaded, fetch)
         == if !IsGeneration(g) then Refused(GenerationUnknown)
            else match ChooseArtifact(g, loaded, fetch)
              case None => Refused(GenerationRoundsUnavailable)
              case Some(artifact) => ResolveIn(w.py.sha, Schedule(m)[n], g, artifact)
  {
    var k :| 0 <= k < |Generations(m)| && Generations(m)[k] == g;
    GenerationFound(w, m, k);
    LookupIs(w.py.sha, Schedule(m)[n], m, g, loaded, fetch);
  }

  /** What the resolver does with the n-th day of a valid manifest. */
  lemma DayIs(w: World, m: Json, n: nat, date: string, g: Json, loaded: Json, fetch: string -> Option<Json>)
    requires ValidManifest(w, m) && n < |Schedule(m)|
    requires w.parseDate(date) == Some(StartDay(w, m) + n) && w.parseDate("") == None
    requires g in Generations(m) && Member(g, "generation_id") == Member(Schedule(m)[n], "generation")
    ensures GoodGeneration(w, g)
    ensures ResolveDay(w.py.sha, m, loaded, date, fetch)
         == if Member(Schedule(m)[n], "date") != Str(date) then Refused(NotScheduled)
            else if !IsGeneration(g) then Refused(GenerationUnknown)
            else match ChooseArtifact(g, loaded, fetch)
              case None => Refused(GenerationRoundsUnavailable)
              case Some(artifact) => ResolveIn(w.py.sha, Schedule(m)[n], g, artifact)
  {
    ValidIsDated(w, m);
    EntryReadable(w, m, n);
    DayFound(w, m, date, n);
    DayAnswer(w, m, loaded, date, fetch);
    EntryLookup(w, m, n, g, loaded, fetch);
  }

  /** A validated manifest over validated artifacts resolves its n-th day exactly when that entry is
      readable, and then to the very round the entry was validated against, up to key order. */
  lemma ScheduledDayResolves(
      w: World, m: Json, n: nat, date: string, universes: map<string, Json>,
      loadedUniverse: Json, loaded: Json, fetch: string -> Option<Json>)
    returns (g: Json)
    requires ValidManifest(w, m) && n < |Schedule(m)| && Published(w, m, universes, fetch)
    requires w.parseDate(date) == Some(StartDay(w, m) + n) && w.parseDate("") == None
    requires Trusted(w, m, n, loadedUniverse, loaded)
    ensures g in Generations(m) && Member(g, "generation_id") == Member(Schedule(m)[n], "generation")
    ensures Member(g, "generation_id").Str? && Member(g, "generation_id").s in w.artifacts
    ensures var own := w.artifacts[Member(g, "generation_id").s];
      var out := ResolveDay(w.py.sha, m, loaded, date, fetch);
      (out.Resolved? <==> Readable(w.py.sha, date, Schedule(m)[n], g, loaded, own))
      && (out.Resolved? ==> CanonicalJson(out.round) == CanonicalJson(Target(w, m, n)))
  {
    var k := GenerationOf(w, m, n);
    g := Generations(m)[k];
    assert g in PublishedGenerations(w, universes, fetch);
    DayIs(w, m, n, date, g, loaded, fetch);
    if IsGeneration(g) {
      EntryResolves(w, m, n, g, universes, loadedUniverse, loaded, fetch);
    }
  }

  /** Two scheduled days never resolve to the same round. */
  lemma DaysGetDifferentRounds(w: World, m: Json, i: nat, j: nat, r: Json, s: Json)
    requires ValidManifest(w, m) && i < j < |Schedule(m)|
    requires Proper(r) && Proper(s) && Proper(Target(w, m, i)) && Proper(Target(w, m, j))
    requires CanonicalJson(r) == CanonicalJson(Target(w, m, i))
    requires CanonicalJson(s) == CanonicalJson(Target(w, m, j))
    ensures Member(r, "id") != Member(s, "id")
  {
    DatesDiffer(w, m, i, j);
    EntryIsGood(w, m, i);
    EntryIsGood(w, m, j);
    SameTextMember(Target(w, m, i), r, "id");
    SameTextMember(Target(w, m, j), s, "id");
  }

  /** Whatever artifact is in hand and whatever a URL serves, no date resolves to anything but the
      round its entry was validated against. */
  lemma NeverAnotherRound(
      w: World, m: Json, loaded: Json, fetch: string -> Option<Json>, date: string)
    returns (n: nat)
    requires ValidManifest(w, m) && ResolveDay(w.py.sha, m, loaded, date, fetch).Resolved?
    requires forall i :: 0 <= i < |Schedule(m)| ==>
      Distinguished(w.py.sha, 16, ResolveDay(w.py.sha, m, loaded, date, fetch).round, Target(w, m, i))
    ensures n < |Schedule(m)| && Member(Schedule(m)[n], "date") == Str(date)
    ensures CanonicalJson(ResolveDay(w.py.sha, m, loaded, date, fetch).round) == CanonicalJson(Target(w, m, n))
  {
    var round := ResolveDay(w.py.sha, m, loaded, date, fetch).round;
    ValidIsReadable(w, m);
    var e := Find(Schedule(m), EntryOn(date)).value;
    n :| 0 <= n < |Schedule(m)| && Schedule(m)[n] == e;
    EntryIsGood(w, m, n);
    ResolvedFingerprint(w.py.sha, m, e, loaded, fetch);
    EqualFingerprint(w.py.sha, round, Target(w, m, n));
  }

  lemma ResolvedInFingerprint(sha: string -> string, e: Json, g: Json, artifact: Json)
    requires ResolveIn(sha, e, g, artifact).Resolved?
    ensures Str(Fingerprint(sha, ResolveIn(sha, e, g, artifact).round)) == Member(e, "round_fingerprint")
  {
  }

  lemma ResolvedFingerprint(
      sha: string -> string, m: Json, e: Json, loaded: Json, fetch: string -> Option<Json>)
    requires IsDailyManifestV2(m) && ResolveEntry(sha, e, m, loaded, fetch).Resolved?
    ensures Str(Fingerprint(sha, ResolveEntry(sha, e, m, loaded, fetch).round)) == Member(e, "round_fingerprint")
  {
    var g := Find(Member(m, "generations").items, GenerationNamed(Member(e, "generation"))).value;
    ResolvedInFingerprint(sha, e, g, ChooseArtifact(g, loaded, fetch).value);
  }
}
