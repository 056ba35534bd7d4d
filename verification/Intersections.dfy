/** The rounds validator's second pass: a round's answers against the universe's own credits. */
module Intersections {
  import opened Json
  import opened PythonValues
  import opened RoundChecks

  datatype Mismatch =
    | AnswersDiffer(round: Json) | FirstBridgeDiffers(round: Json) | SecondBridgeDiffers(round: Json) | EndpointsShare(round: Json)
    | UnknownContributor(contributor: Json) | UnknownRelease(release: Json)

  // ---------- Who is credited on what ----------

  /** The ids of a universe's albums, contributors or releases. */
  function UniverseIds(universe: Json, key: string): seq<Json> {
    IdsUnder(Elements(ListUnder(universe, key)), "id")
  }

  /** Building a set of them does not raise. */
  predicate CollectsIds(universe: Json, key: string) {
    Iterable(ListUnder(universe, key)) && AllHashable(UniverseIds(universe, key))
  }

  predicate CreditCollects(credit: Json, albums: seq<Json>) {
    credit.Obj? ==>
      Hashable(Member(credit, "release_id"))
      && (Within(Member(credit, "release_id"), albums) ==> Hashable(Member(credit, "contributor_id")))
  }

  /** Indexing the credits by album does not raise. */
  predicate CreditsCollect(universe: Json) {
    var credits := Elements(ListUnder(universe, "credits"));
    Iterable(ListUnder(universe, "credits"))
    && forall i :: 0 <= i < |credits| ==> CreditCollects(credits[i], UniverseIds(universe, "albums"))
  }

  /** The contributors of the credits for one album. */
  function CreditedOn(credits: seq<Json>, album: Json): (r: seq<Json>)
    ensures forall x :: x in r <==>
      exists i :: 0 <= i < |credits| && credits[i].Obj? && PyEqual(Member(credits[i], "release_id"), album)
                  && Member(credits[i], "contributor_id") == x
  {
    if credits == [] then []
    else
      var rest := CreditedOn(credits[1..], album);
      assert forall i :: 0 < i < |credits| ==> credits[i] == credits[1..][i - 1];
      assert forall i :: 0 <= i < |credits| - 1 ==> credits[1..][i] == credits[i + 1];
      if credits[0].Obj? && PyEqual(Member(credits[0], "release_id"), album)
      then [Member(credits[0], "contributor_id")] + rest else rest
  }

  /** `performers_by_album.get(album, set())`. */
  function Performers(universe: Json, album: Json): seq<Json> {
    if Within(album, UniverseIds(universe, "albums")) then CreditedOn(Elements(ListUnder(universe, "credits")), album) else []
  }

  // ---------- Sets of ids ----------

  /** The intersection of two sets. */
  function Shared(a: seq<Json>, b: seq<Json>): (r: seq<Json>)
    ensures forall x :: x in r <==> x in a && Within(x, b)
  {
    if a == [] then []
    else if Within(a[0], b) then [a[0]] + Shared(a[1..], b) else Shared(a[1..], b)
  }

  predicate SameSet(a: seq<Json>, b: seq<Json>) {
    (forall i :: 0 <= i < |a| ==> Within(a[i], b)) && (forall i :: 0 <= i < |b| ==> Within(b[i], a))
  }

  lemma EqualsTransfer(x: Json, y: Json, z: Json)
    requires Hashable(x) && Hashable(y) && Hashable(z) && PyEqual(x, y)
    ensures PyEqual(y, x) && (PyEqual(z, x) <==> PyEqual(z, y))
  {
  }

  lemma WithinTransfers(x: Json, y: Json, ids: seq<Json>)
    requires Hashable(x) && Hashable(y) && AllHashable(ids) && PyEqual(x, y)
    ensures Within(x, ids) <==> Within(y, ids)
  {
    if Within(x, ids) {
      var i :| 0 <= i < |ids| && PyEqual(ids[i], x);
      EqualsTransfer(x, y, ids[i]);
    }
    if Within(y, ids) {
      var i :| 0 <= i < |ids| && PyEqual(ids[i], y);
      EqualsTransfer(x, y, ids[i]);
    }
  }

  /** Equal sets have the same members. */
  lemma SameSetMembers(a: seq<Json>, b: seq<Json>, x: Json)
    requires SameSet(a, b) && AllHashable(a) && AllHashable(b) && Hashable(x)
    ensures Within(x, a) <==> Within(x, b)
  {
    if Within(x, a) {
      var i :| 0 <= i < |a| && PyEqual(a[i], x);
      WithinTransfers(a[i], x, b);
    }
    if Within(x, b) {
      var i :| 0 <= i < |b| && PyEqual(b[i], x);
      WithinTransfers(b[i], x, a);
    }
  }

  /** And sets with the same members are equal. */
  lemma SameMembersSameSet(a: seq<Json>, b: seq<Json>)
    requires AllHashable(a) && AllHashable(b)
    ensures SameSet(a, b) <==> forall x :: Hashable(x) ==> (Within(x, a) <==> Within(x, b))
  {
    if SameSet(a, b) {
      forall x | Hashable(x) ensures Within(x, a) <==> Within(x, b) { SameSetMembers(a, b, x); }
    }
    if forall x :: Hashable(x) ==> (Within(x, a) <==> Within(x, b)) {
      forall i | 0 <= i < |a| ensures Within(a[i], b) { MemberIsWithin(a[i], a); }
      forall i | 0 <= i < |b| ensures Within(b[i], a) { MemberIsWithin(b[i], b); }
    }
  }

  /** The intersection has the members both have. */
  lemma SharedMembers(a: seq<Json>, b: seq<Json>, x: Json)
    requires AllHashable(a) && AllHashable(b) && Hashable(x)
    ensures Within(x, Shared(a, b)) <==> Within(x, a) && Within(x, b)
  {
    var both := Shared(a, b);
    if Within(x, both) {
      var i :| 0 <= i < |both| && PyEqual(both[i], x);
      assert both[i] in both;
      MemberIsWithin(both[i], a);
      WithinTransfers(both[i], x, a);
      WithinTransfers(both[i], x, b);
    }
    if Within(x, a) && Within(x, b) {
      var i :| 0 <= i < |a| && PyEqual(a[i], x);
      WithinTransfers(a[i], x, b);
      assert a[i] in both;
      var k :| 0 <= k < |both| && both[k] == a[i];
    }
  }

  // ---------- One round ----------

  /** `{a.get("id") for a in list}`: every member must be an object. */
  predicate CollectsAnswers(list: Json) {
    Iterable(list) && (forall i :: 0 <= i < |Elements(list)| ==> Elements(list)[i].Obj?) && AllHashable(IdsUnder(Elements(list), "id"))
  }

  function Endpoints(round: Json): seq<Json> {
    Elements(ListUnder(round, "endpoints"))
  }

  /** Both endpoints can be read. */
  predicate EndpointsRead(round: Json)
    requires |Endpoints(round)| == 2
  {
    ListUnder(round, "endpoints").Arr? && Endpoints(round)[0].Obj? && Endpoints(round)[1].Obj?
  }

  /** And looked up. */
  predicate EndpointsLookedUp(round: Json)
    requires |Endpoints(round)| == 2
  {
    Hashable(Member(Endpoints(round)[0], "id")) && Hashable(Member(Endpoints(round)[1], "id"))
  }

  function PerformersAt(universe: Json, round: Json, end: nat): seq<Json>
    requires end < 2 && |Endpoints(round)| == 2
  {
    Performers(universe, Member(Endpoints(round)[end], "id"))
  }

  /** A one-hop round's answers are exactly the performers its two endpoints share. */
  predicate AnswersMatch(universe: Json, round: Json)
    requires |Endpoints(round)| == 2
  {
    EndpointsLookedUp(round) && CollectsAnswers(ListUnder(round, "answer_set"))
    && SameSet(Shared(PerformersAt(universe, round, 0), PerformersAt(universe, round, 1)), AnswerIds(round))
  }

  function HiddenMiddle(round: Json): Json {
    Or(Member(round, "middle"), Obj([]))
  }

  function HiddenAlbum(round: Json): Json {
    Or(Member(HiddenMiddle(round), "album"), Obj([]))
  }

  function HiddenId(round: Json): Json {
    Member(HiddenAlbum(round), "id")
  }

  function BridgePair(round: Json): Json {
    Or(Member(round, "bridge_answer_sets"), Arr([Arr([]), Arr([])]))
  }

  /** The hidden record and both bridges can be read and looked up. */
  predicate BridgesRead(round: Json) {
    && HiddenMiddle(round).Obj? && HiddenAlbum(round).Obj? && Hashable(HiddenId(round))
    && BridgePair(round).Arr? && |BridgePair(round).items| >= 2
    && CollectsAnswers(BridgePair(round).items[0]) && CollectsAnswers(BridgePair(round).items[1])
  }

  function BridgeIds(round: Json, side: nat): seq<Json>
    requires side < 2 && BridgesRead(round)
  {
    IdsUnder(Elements(BridgePair(round).items[side]), "id")
  }

  /** A two-hop round's bridges are exactly the performers each endpoint shares with the hidden record, and
      the endpoints share none. */
  predicate BridgesMatch(universe: Json, round: Json)
    requires |Endpoints(round)| == 2
  {
    EndpointsLookedUp(round) && BridgesRead(round)
    && FirstMatches(universe, round) && SecondMatches(universe, round) && NothingShared(universe, round)
  }

  predicate FirstMatches(universe: Json, round: Json)
    requires |Endpoints(round)| == 2 && BridgesRead(round)
  {
    SameSet(Shared(PerformersAt(universe, round, 0), Performers(universe, HiddenId(round))), BridgeIds(round, 0))
  }

  predicate SecondMatches(universe: Json, round: Json)
    requires |Endpoints(round)| == 2 && BridgesRead(round)
  {
    SameSet(Shared(Performers(universe, HiddenId(round)), PerformersAt(universe, round, 1)), BridgeIds(round, 1))
  }

  predicate NothingShared(universe: Json, round: Json)
    requires |Endpoints(round)| == 2
  {
    Shared(PerformersAt(universe, round, 0), PerformersAt(universe, round, 1)) == []
  }

  /** What the second pass asks of one entry of the list. */
  predicate AgreesWithCredits(universe: Json, round: Json) {
    round.Obj? ==>
      Iterable(ListUnder(round, "endpoints"))
      && (|Endpoints(round)| == 2 ==>
            && EndpointsRead(round)
            && (Member(round, "kind") == Str("one_hop") ==> AnswersMatch(universe, round))
            && (Member(round, "kind") == Str("two_hop") ==> BridgesMatch(universe, round)))
  }

  /** Comparing the round with the credits raises. */
  predicate MatchRaises(round: Json) {
    round.Obj?
    && (|| !Iterable(ListUnder(round, "endpoints"))
        || (|Endpoints(round)| == 2
            && (|| !EndpointsRead(round)
                || (Member(round, "kind") == Str("one_hop")
                    && (!EndpointsLookedUp(round) || !CollectsAnswers(ListUnder(round, "answer_set"))))
                || (Member(round, "kind") == Str("two_hop") && (!EndpointsLookedUp(round) || !BridgesRead(round))))))
  }

  ghost predicate BridgesBlame(universe: Json, round: Json, f: Mismatch)
    requires |Endpoints(round)| == 2 && BridgesRead(round)
  {
    match f
    case FirstBridgeDiffers(id) => id == Member(round, "id") && !FirstMatches(universe, round)
    case SecondBridgeDiffers(id) => id == Member(round, "id") && !SecondMatches(universe, round)
    case EndpointsShare(id) => id == Member(round, "id") && !NothingShared(universe, round)
    case _ => false
  }

  /** The mismatch is one of the round's. */
  ghost predicate MatchBlames(universe: Json, round: Json, f: Mismatch) {
    && round.Obj? && |Endpoints(round)| == 2 && !MatchRaises(round)
    && if Member(round, "kind") == Str("one_hop")
       then f == AnswersDiffer(Member(round, "id"))
            && !SameSet(Shared(PerformersAt(universe, round, 0), PerformersAt(universe, round, 1)), AnswerIds(round))
       else Member(round, "kind") == Str("two_hop") && BridgesBlame(universe, round, f)
  }

  method CheckMatch(universe: Json, round: Json) returns (out: Outcome<Mismatch>)
    ensures out == Failures([]) <==> AgreesWithCredits(universe, round)
    ensures out.Raised? <==> MatchRaises(round)
    ensures out.Failures? ==> forall f :: f in out.list <==> MatchBlames(universe, round, f)
  {
    if !round.Obj? { return Failures([]); }
    if !Iterable(ListUnder(round, "endpoints")) { return Raised; }
    if |Endpoints(round)| != 2 { return Failures([]); }
    if !EndpointsRead(round) { return Raised; }
    if Member(round, "kind") == Str("one_hop") {
      if !EndpointsLookedUp(round) || !CollectsAnswers(ListUnder(round, "answer_set")) { return Raised; }
      var derived := Shared(PerformersAt(universe, round, 0), PerformersAt(universe, round, 1));
      out := Failures(When(!SameSet(derived, AnswerIds(round)), AnswersDiffer(Member(round, "id"))));
    } else if Member(round, "kind") == Str("two_hop") {
      out := CheckBridges(universe, round);
    } else {
      out := Failures([]);
    }
  }

  function BridgeFlaws(id: Json, first: bool, second: bool, share: bool): (r: seq<Mismatch>)
    ensures r == [] <==> !first && !second && !share
    ensures forall f :: f in r <==>
      (first && f == FirstBridgeDiffers(id)) || (second && f == SecondBridgeDiffers(id)) || (share && f == EndpointsShare(id))
  {
    When(first, FirstBridgeDiffers(id)) + When(second, SecondBridgeDiffers(id)) + When(share, EndpointsShare(id))
  }

  function BridgeFlawsOf(universe: Json, round: Json): (r: seq<Mismatch>)
    requires |Endpoints(round)| == 2 && BridgesRead(round)
    ensures r == [] <==> FirstMatches(universe, round) && SecondMatches(universe, round) && NothingShared(universe, round)
  {
    BridgeFlaws(Member(round, "id"), !FirstMatches(universe, round), !SecondMatches(universe, round), !NothingShared(universe, round))
  }

  lemma BridgeFlawsBlame(universe: Json, round: Json, f: Mismatch)
    requires |Endpoints(round)| == 2 && BridgesRead(round)
    ensures f in BridgeFlawsOf(universe, round) <==> BridgesBlame(universe, round, f)
  {
  }

  method CheckBridges(universe: Json, round: Json) returns (out: Outcome<Mismatch>)
    requires |Endpoints(round)| == 2
    ensures out == Failures([]) <==> BridgesMatch(universe, round)
    ensures out.Raised? <==> !EndpointsLookedUp(round) || !BridgesRead(round)
    ensures out.Failures? ==> forall f :: f in out.list <==> BridgesBlame(universe, round, f)
  {
    if !EndpointsLookedUp(round) || !BridgesRead(round) { return Raised; }
    forall f ensures f in BridgeFlawsOf(universe, round) <==> BridgesBlame(universe, round, f) {
      BridgeFlawsBlame(universe, round, f);
    }
    out := Failures(BridgeFlawsOf(universe, round));
  }

  /** The second loop over the rounds. */
  method CheckMatches(universe: Json, rounds: seq<Json>) returns (out: Outcome<Mismatch>)
    ensures out == Failures([]) <==> forall i :: 0 <= i < |rounds| ==> AgreesWithCredits(universe, rounds[i])
    ensures out.Raised? <==> MatchRaisesIn(rounds)
    ensures out.Failures? ==> forall f :: f in out.list <==> MatchBlamesIn(universe, rounds, f)
  {
    out := Failures([]);
    NoMatches(universe);
    assert rounds[..0] == [];
    for n := 0 to |rounds|
      invariant MatchesSoFar(universe, rounds[..n], out)
    {
      assert rounds[..n + 1] == rounds[..n] + [rounds[n]];
      var found := CheckMatch(universe, rounds[n]);
      NextMatch(universe, rounds[..n], rounds[n], out, found);
      out := Then(out, found);
    }
    assert rounds[..|rounds|] == rounds;
  }

  ghost predicate MatchRaisesIn(rounds: seq<Json>) {
    exists i :: 0 <= i < |rounds| && MatchRaises(rounds[i])
  }

  ghost predicate MatchBlamesIn(universe: Json, rounds: seq<Json>, f: Mismatch) {
    exists i :: 0 <= i < |rounds| && MatchBlames(universe, rounds[i], f)
  }

  ghost predicate AllAgree(universe: Json, rounds: seq<Json>) {
    forall i :: 0 <= i < |rounds| ==> AgreesWithCredits(universe, rounds[i])
  }

  /** What the loop over the rounds has come to. */
  ghost predicate MatchesSoFar(universe: Json, rounds: seq<Json>, out: Outcome<Mismatch>) {
    && (out == Failures([]) <==> AllAgree(universe, rounds))
    && (out.Raised? <==> MatchRaisesIn(rounds))
    && (out.Failures? ==> forall f :: f in out.list <==> MatchBlamesIn(universe, rounds, f))
  }

  lemma NoMatches(universe: Json)
    ensures MatchesSoFar(universe, [], Failures([]))
  {
  }

  lemma OneMoreAgrees(universe: Json, rounds: seq<Json>, round: Json)
    ensures AllAgree(universe, rounds + [round]) <==> AllAgree(universe, rounds) && AgreesWithCredits(universe, round)
  {
    var more := rounds + [round];
    assert more[|rounds|] == round && forall i :: 0 <= i < |rounds| ==> more[i] == rounds[i];
  }

  lemma OneMoreRaises(rounds: seq<Json>, round: Json)
    ensures MatchRaisesIn(rounds + [round]) <==> MatchRaisesIn(rounds) || MatchRaises(round)
  {
    var more := rounds + [round];
    assert more[|rounds|] == round && forall i :: 0 <= i < |rounds| ==> more[i] == rounds[i];
  }

  lemma OneMoreBlames(universe: Json, rounds: seq<Json>, round: Json, f: Mismatch)
    ensures MatchBlamesIn(universe, rounds + [round], f) <==>
      MatchBlamesIn(universe, rounds, f) || MatchBlames(universe, round, f)
  {
    var more := rounds + [round];
    assert more[|rounds|] == round && forall i :: 0 <= i < |rounds| ==> more[i] == rounds[i];
  }

  lemma NextMatch(universe: Json, rounds: seq<Json>, round: Json, out: Outcome<Mismatch>, found: Outcome<Mismatch>)
    requires MatchesSoFar(universe, rounds, out)
    requires found == Failures([]) <==> AgreesWithCredits(universe, round)
    requires found.Raised? <==> MatchRaises(round)
    requires found.Failures? ==> forall f :: f in found.list <==> MatchBlames(universe, round, f)
    ensures MatchesSoFar(universe, rounds + [round], Then(out, found))
  {
    OneMoreAgrees(universe, rounds, round);
    OneMoreRaises(rounds, round);
    forall f ensures MatchBlamesIn(universe, rounds + [round], f) <==>
      MatchBlamesIn(universe, rounds, f) || MatchBlames(universe, round, f)
    {
      OneMoreBlames(universe, rounds, round, f);
    }
  }

  // ---------- The credits themselves ----------

  /** A credit names a known contributor and a known release. */
  predicate KnownCredit(credit: Json, contributors: seq<Json>, releases: seq<Json>) {
    var who, what := Member(credit, "contributor_id"), Member(credit, "release_id");
    credit.Obj? ==> Hashable(who) && Hashable(what) && Within(who, contributors) && Within(what, releases)
  }

  predicate CreditsKnown(universe: Json) {
    var credits := Elements(ListUnder(universe, "credits"));
    forall i :: 0 <= i < |credits| ==> KnownCredit(credits[i], UniverseIds(universe, "contributors"), UniverseIds(universe, "releases"))
  }

  predicate CreditRaises(credit: Json) {
    credit.Obj? && !(Hashable(Member(credit, "contributor_id")) && Hashable(Member(credit, "release_id")))
  }

  ghost predicate CreditBlames(credit: Json, contributors: seq<Json>, releases: seq<Json>, f: Mismatch) {
    match f
    case UnknownContributor(who) => credit.Obj? && who == Member(credit, "contributor_id") && !Within(who, contributors)
    case UnknownRelease(what) => credit.Obj? && what == Member(credit, "release_id") && !Within(what, releases)
    case _ => false
  }

  ghost predicate CreditRaisesIn(credits: seq<Json>) {
    exists i :: 0 <= i < |credits| && CreditRaises(credits[i])
  }

  ghost predicate CreditBlamesIn(credits: seq<Json>, contributors: seq<Json>, releases: seq<Json>, f: Mismatch) {
    exists i :: 0 <= i < |credits| && CreditBlames(credits[i], contributors, releases, f)
  }

  ghost predicate AllKnown(credits: seq<Json>, contributors: seq<Json>, releases: seq<Json>) {
    forall i :: 0 <= i < |credits| ==> KnownCredit(credits[i], contributors, releases)
  }

  lemma OneMoreCredit(credits: seq<Json>, credit: Json, contributors: seq<Json>, releases: seq<Json>)
    ensures AllKnown(credits + [credit], contributors, releases) <==>
      AllKnown(credits, contributors, releases) && KnownCredit(credit, contributors, releases)
    ensures CreditRaisesIn(credits + [credit]) <==> CreditRaisesIn(credits) || CreditRaises(credit)
    ensures forall f :: CreditBlamesIn(credits + [credit], contributors, releases, f) <==>
      CreditBlamesIn(credits, contributors, releases, f) || CreditBlames(credit, contributors, releases, f)
  {
    var more := credits + [credit];
    assert more[|credits|] == credit && forall i :: 0 <= i < |credits| ==> more[i] == credits[i];
  }

  /** What the loop body comes to for one credit. */
  function CheckCredit(credit: Json, contributors: seq<Json>, releases: seq<Json>): (out: Outcome<Mismatch>)
    ensures out == Failures([]) <==> KnownCredit(credit, contributors, releases)
    ensures out.Raised? <==> CreditRaises(credit)
    ensures out.Failures? ==> forall f :: f in out.list <==> CreditBlames(credit, contributors, releases, f)
  {
    var who, what := Member(credit, "contributor_id"), Member(credit, "release_id");
    if !credit.Obj? then Failures([])
    else if !Hashable(who) || !Hashable(what) then Raised
    else
      var unknown := When(!Within(who, contributors), UnknownContributor(who)) + When(!Within(what, releases), UnknownRelease(what));
      assert unknown == [] <==> Within(who, contributors) && Within(what, releases);
      Failures(unknown)
  }

  /** What the loop over the credits has come to. */
  ghost predicate CreditsSoFar(credits: seq<Json>, contributors: seq<Json>, releases: seq<Json>, out: Outcome<Mismatch>) {
    && (out == Failures([]) <==> AllKnown(credits, contributors, releases))
    && (out.Raised? <==> CreditRaisesIn(credits))
    && (out.Failures? ==> forall f :: f in out.list <==> CreditBlamesIn(credits, contributors, releases, f))
  }

  lemma NextCredit(credits: seq<Json>, credit: Json, contributors: seq<Json>, releases: seq<Json>, out: Outcome<Mismatch>)
    requires CreditsSoFar(credits, contributors, releases, out)
    ensures CreditsSoFar(credits + [credit], contributors, releases, Then(out, CheckCredit(credit, contributors, releases)))
  {
    OneMoreCredit(credits, credit, contributors, releases);
  }

  /** The last loop, over the credits. */
  method CheckKnown(credits: seq<Json>, contributors: seq<Json>, releases: seq<Json>) returns (out: Outcome<Mismatch>)
    ensures out == Failures([]) <==> AllKnown(credits, contributors, releases)
    ensures out.Raised? <==> CreditRaisesIn(credits)
    ensures out.Failures? ==> forall f :: f in out.list <==> CreditBlamesIn(credits, contributors, releases, f)
  {
    out := Failures([]);
    assert credits[..0] == [];
    for n := 0 to |credits|
      invariant CreditsSoFar(credits[..n], contributors, releases, out)
    {
      assert credits[..n + 1] == credits[..n] + [credits[n]];
      NextCredit(credits[..n], credits[n], contributors, releases, out);
      out := Then(out, CheckCredit(credits[n], contributors, releases));
    }
    assert credits[..|credits|] == credits;
  }

  // ---------- What the second pass guarantees ----------

  lemma PerformersHashable(universe: Json, album: Json)
    requires CollectsIds(universe, "albums") && CreditsCollect(universe) && Hashable(album)
    ensures AllHashable(Performers(universe, album))
  {
    var credits, albums := Elements(ListUnder(universe, "credits")), UniverseIds(universe, "albums");
    var found := Performers(universe, album);
    forall k | 0 <= k < |found| ensures Hashable(found[k]) {
      assert found[k] in found;
      var i :| 0 <= i < |credits| && credits[i].Obj? && PyEqual(Member(credits[i], "release_id"), album)
               && Member(credits[i], "contributor_id") == found[k];
      assert CreditCollects(credits[i], albums);
      WithinTransfers(Member(credits[i], "release_id"), album, albums);
    }
  }

  /** A contributor answers a one-hop round exactly when credited on both of its records. */
  lemma AnswersAreShared(universe: Json, round: Json, x: Json)
    requires CollectsIds(universe, "albums") && CreditsCollect(universe) && round.Obj? && AgreesWithCredits(universe, round)
    requires |Endpoints(round)| == 2 && Member(round, "kind") == Str("one_hop") && Hashable(x)
    ensures Within(x, AnswerIds(round)) <==> Within(x, PerformersAt(universe, round, 0)) && Within(x, PerformersAt(universe, round, 1))
  {
    var a, b := PerformersAt(universe, round, 0), PerformersAt(universe, round, 1);
    PerformersHashable(universe, Member(Endpoints(round)[0], "id"));
    PerformersHashable(universe, Member(Endpoints(round)[1], "id"));
    SharedHashable(a, b);
    SharedMembers(a, b, x);
    SameSetMembers(Shared(a, b), AnswerIds(round), x);
  }

  lemma SharedHashable(a: seq<Json>, b: seq<Json>)
    requires AllHashable(a)
    ensures AllHashable(Shared(a, b))
  {
    var both := Shared(a, b);
    forall i | 0 <= i < |both| ensures Hashable(both[i]) {
      assert both[i] in both;
    }
  }

  /** Credited on one endpoint and on the hidden record. */
  predicate CreditedToo(universe: Json, round: Json, side: nat, x: Json)
    requires side < 2 && |Endpoints(round)| == 2
  {
    Within(x, PerformersAt(universe, round, side)) && Within(x, Performers(universe, HiddenId(round)))
  }

  /** In a two-hop round nobody is credited on both endpoints, and a contributor answers a bridge exactly
      when credited on its endpoint and on the hidden record. */
  lemma BridgesAreShared(universe: Json, round: Json, x: Json)
    requires CollectsIds(universe, "albums") && CreditsCollect(universe) && round.Obj? && AgreesWithCredits(universe, round)
    requires |Endpoints(round)| == 2 && Member(round, "kind") == Str("two_hop") && Hashable(x)
    ensures !(Within(x, PerformersAt(universe, round, 0)) && Within(x, PerformersAt(universe, round, 1)))
    ensures BridgesRead(round)
    ensures forall side: nat {:trigger BridgeIds(round, side)} :: side < 2 ==>
      (Within(x, BridgeIds(round, side)) <==> CreditedToo(universe, round, side, x))
  {
    var a, b, hidden := PerformersAt(universe, round, 0), PerformersAt(universe, round, 1), Performers(universe, HiddenId(round));
    PerformersHashable(universe, Member(Endpoints(round)[0], "id"));
    PerformersHashable(universe, Member(Endpoints(round)[1], "id"));
    PerformersHashable(universe, HiddenId(round));
    SharedMembers(a, b, x);
    SharedHashable(a, hidden);
    SharedMembers(a, hidden, x);
    SameSetMembers(Shared(a, hidden), BridgeIds(round, 0), x);
    SharedHashable(hidden, b);
    SharedMembers(hidden, b, x);
    SameSetMembers(Shared(hidden, b), BridgeIds(round, 1), x);
  }
}
