/** The rounds validator's checks on the content of one round. */
module RoundChecks {
  import opened Text
  import opened Json
  import opened PythonValues

  datatype Flaw =
    | EmptyAnswerSet
    | NoEvidence
    | LacksEvidence(answer: Json)
    | DistractorIsAnswer(distractor: Json)
    | DistractorUnknown(distractor: Json)
    | ClueTargetsAnswer(eliminated: Json)
    | EndpointUnknown
    | NoMiddleOrBridges
    | MiddleNotAChoice
    | EmptyBridge

  // ---------- What is read of a round ----------

  /** `round.get(key, [])`. */
  function ListUnder(round: Json, key: string): Json {
    GetOr(round, key, Arr([]))
  }

  /** `answer_ids`. */
  function AnswerIds(round: Json): seq<Json> {
    IdsUnder(Elements(ListUnder(round, "answer_set")), "id")
  }

  function Bridges(round: Json): Json {
    Or(Member(round, "bridge_answer_sets"), Arr([]))
  }

  function GroupIds(groups: seq<Json>): (r: seq<Json>)
    ensures forall x :: x in r <==> exists g :: 0 <= g < |groups| && x in IdsUnder(Elements(groups[g]), "id")
  {
    if groups == [] then []
    else
      var first, rest := IdsUnder(Elements(groups[0]), "id"), GroupIds(groups[1..]);
      assert forall g :: 0 <= g < |groups| - 1 ==> groups[1..][g] == groups[g + 1];
      assert forall x :: x in first + rest ==> x in first || x in rest;
      assert forall g :: 0 < g < |groups| ==> groups[g] == groups[1..][g - 1];
      first + rest
  }

  /** `all_valid_ids`. */
  function ValidIds(round: Json): seq<Json> {
    AnswerIds(round) + GroupIds(Elements(Bridges(round)))
  }

  function EvidenceIds(round: Json): seq<Json> {
    IdsUnder(Elements(ListUnder(round, "evidence")), "contributor_id")
  }

  /** Building the three sets raises nowhere. */
  predicate Collects(round: Json) {
    var groups := Elements(Bridges(round));
    && Iterable(ListUnder(round, "answer_set")) && Iterable(Bridges(round)) && Iterable(ListUnder(round, "evidence"))
    && (forall g :: 0 <= g < |groups| ==> Iterable(groups[g]))
    && AllHashable(ValidIds(round)) && AllHashable(EvidenceIds(round))
  }

  // ---------- What passing means ----------

  predicate IsKind(v: Json) {
    v == Str("one_hop") || v == Str("two_hop")
  }

  predicate HasAnswers(round: Json) {
    Member(round, "kind") == Str("one_hop") ==> Truthy(ListUnder(round, "answer_set"))
  }

  predicate HasEvidence(round: Json) {
    Truthy(ListUnder(round, "evidence")) && forall i :: 0 <= i < |ValidIds(round)| ==> Within(ValidIds(round)[i], EvidenceIds(round))
  }

  /** A distractor is a known contributor and no answer; a list member that is no object is skipped. */
  predicate FairDistractor(d: Json, valid: seq<Json>, contributors: seq<Json>) {
    d.Obj? ==> Hashable(Member(d, "id")) && !Within(Member(d, "id"), valid) && Within(Member(d, "id"), contributors)
  }

  predicate Eliminates(clue: Json) {
    clue.Obj? && Member(clue, "kind") == Str("eliminate")
  }

  function Eliminated(clue: Json): Json {
    Or(Member(clue, "eliminate_ids"), Arr([]))
  }

  /** An eliminate clue hits no answer. */
  predicate FairClue(clue: Json, valid: seq<Json>) {
    Eliminates(clue) ==>
      Iterable(Eliminated(clue))
      && forall i :: 0 <= i < |Elements(Eliminated(clue))| ==>
           Hashable(Elements(Eliminated(clue))[i]) && !Within(Elements(Eliminated(clue))[i], valid)
  }

  predicate KnownEndpoint(e: Json, albums: seq<Json>) {
    e.Obj? && Hashable(Member(e, "id")) && Within(Member(e, "id"), albums)
  }

  predicate FairDistractors(round: Json, contributors: seq<Json>) {
    var list := Elements(ListUnder(round, "distractors"));
    Iterable(ListUnder(round, "distractors"))
    && forall i :: 0 <= i < |list| ==> FairDistractor(list[i], ValidIds(round), contributors)
  }

  predicate FairClues(round: Json) {
    var list := Elements(ListUnder(round, "clues"));
    Iterable(ListUnder(round, "clues")) && forall i :: 0 <= i < |list| ==> FairClue(list[i], ValidIds(round))
  }

  predicate KnownEndpoints(round: Json, albums: seq<Json>) {
    var list := Elements(ListUnder(round, "endpoints"));
    Iterable(ListUnder(round, "endpoints")) && forall i :: 0 <= i < |list| ==> KnownEndpoint(list[i], albums)
  }

  /** Choices up to the first with the wanted id are objects, and there is one. */
  predicate Chosen(choices: seq<Json>, id: Json) {
    exists i :: 0 <= i < |choices| && PyEqual(Member(choices[i], "id"), id) && forall j :: 0 <= j <= i ==> choices[j].Obj?
  }

  function Choices(middle: Json): Json {
    GetOr(middle, "choices", Arr([]))
  }

  function MiddleAlbum(middle: Json): Json {
    GetOr(middle, "album", Obj([]))
  }

  /** A two-hop round has its middle among the choices, and an answer on each side. */
  predicate BothBridges(round: Json) {
    var middle, bridges := Member(round, "middle"), Bridges(round);
    && middle.Obj? && middle.fields != [] && MiddleAlbum(middle).Obj?
    && Iterable(Choices(middle)) && Chosen(Elements(Choices(middle)), Member(MiddleAlbum(middle), "id"))
    && !bridges.Obj? && |Elements(bridges)| == 2 && Truthy(Elements(bridges)[0]) && Truthy(Elements(bridges)[1])
  }

  /** The round passes: nothing raises and nothing is reported. */
  predicate PassesRound(round: Json, contributors: seq<Json>, albums: seq<Json>) {
    && Collects(round) && HasAnswers(round) && HasEvidence(round)
    && FairDistractors(round, contributors) && FairClues(round) && KnownEndpoints(round, albums)
    && (Member(round, "kind") == Str("two_hop") ==> BothBridges(round))
  }

  // ---------- What raises, and what is reported ----------

  /** Looking some object's id up raises. */
  ghost predicate IdRaises(list: seq<Json>) {
    exists i :: 0 <= i < |list| && list[i].Obj? && !Hashable(Member(list[i], "id"))
  }

  /** Some object of the list has this id. */
  ghost predicate HasId(list: seq<Json>, id: Json) {
    exists i :: 0 <= i < |list| && list[i].Obj? && Member(list[i], "id") == id
  }

  ghost predicate EvidenceBlames(round: Json, f: Flaw) {
    match f
    case NoEvidence => !Truthy(ListUnder(round, "evidence"))
    case LacksEvidence(answer) => answer in ValidIds(round) && !Within(answer, EvidenceIds(round))
    case _ => false
  }

  ghost predicate DistractorBlames(list: seq<Json>, valid: seq<Json>, contributors: seq<Json>, f: Flaw) {
    match f
    case DistractorIsAnswer(id) => HasId(list, id) && Within(id, valid)
    case DistractorUnknown(id) => HasId(list, id) && !Within(id, contributors)
    case _ => false
  }

  /** Reading an eliminate clue's ids raises. */
  ghost predicate ClueRaises(clue: Json) {
    Eliminates(clue) && (!Iterable(Eliminated(clue)) || !AllHashable(Elements(Eliminated(clue))))
  }

  ghost predicate ClueRaisesIn(list: seq<Json>) {
    exists i :: 0 <= i < |list| && ClueRaises(list[i])
  }

  ghost predicate ClueBlames(clue: Json, valid: seq<Json>, f: Flaw) {
    f.ClueTargetsAnswer? && Eliminates(clue) && f.eliminated in Elements(Eliminated(clue)) && Within(f.eliminated, valid)
  }

  ghost predicate ClueBlamesIn(list: seq<Json>, valid: seq<Json>, f: Flaw) {
    exists i :: 0 <= i < |list| && ClueBlames(list[i], valid, f)
  }

  /** An endpoint that is no object, or is no album of the universe. */
  ghost predicate StrangeEndpoint(list: seq<Json>, albums: seq<Json>) {
    exists i :: 0 <= i < |list| && (!list[i].Obj? || !Within(Member(list[i], "id"), albums))
  }

  /** The choices hold one that is no object, and none before it is the one looked for. */
  ghost predicate ChoiceRaises(choices: seq<Json>, id: Json) {
    exists i :: 0 <= i < |choices| && !choices[i].Obj?
      && forall j :: 0 <= j < i ==> choices[j].Obj? && !PyEqual(Member(choices[j], "id"), id)
  }

  ghost predicate NoChoice(choices: seq<Json>, id: Json) {
    forall i :: 0 <= i < |choices| ==> !PyEqual(Member(choices[i], "id"), id)
  }

  predicate LacksParts(round: Json) {
    !Truthy(Member(round, "middle")) || !Truthy(Bridges(round)) || |Elements(Bridges(round))| != 2
  }

  ghost predicate TwoHopRaises(round: Json) {
    var middle := Member(round, "middle");
    !LacksParts(round)
    && (|| !middle.Obj? || !MiddleAlbum(middle).Obj? || !Iterable(Choices(middle)) || Bridges(round).Obj?
        || ChoiceRaises(Elements(Choices(middle)), Member(MiddleAlbum(middle), "id")))
  }

  ghost predicate TwoHopBlames(round: Json, f: Flaw) {
    var middle := Member(round, "middle");
    match f
    case NoMiddleOrBridges => LacksParts(round)
    case MiddleNotAChoice => !LacksParts(round) && NoChoice(Elements(Choices(middle)), Member(MiddleAlbum(middle), "id"))
    case EmptyBridge => !LacksParts(round) && (!Truthy(Elements(Bridges(round))[0]) || !Truthy(Elements(Bridges(round))[1]))
    case _ => false
  }

  /** Reading the distractors, the clues or the endpoints raises. */
  ghost predicate ListsRaise(round: Json) {
    || !Iterable(ListUnder(round, "distractors")) || IdRaises(Elements(ListUnder(round, "distractors")))
    || !Iterable(ListUnder(round, "clues")) || ClueRaisesIn(Elements(ListUnder(round, "clues")))
    || !Iterable(ListUnder(round, "endpoints")) || IdRaises(Elements(ListUnder(round, "endpoints")))
  }

  ghost predicate ListsBlame(round: Json, contributors: seq<Json>, albums: seq<Json>, f: Flaw) {
    || DistractorBlames(Elements(ListUnder(round, "distractors")), ValidIds(round), contributors, f)
    || ClueBlamesIn(Elements(ListUnder(round, "clues")), ValidIds(round), f)
    || (f == EndpointUnknown && StrangeEndpoint(Elements(ListUnder(round, "endpoints")), albums))
  }

  /** Checking the content of the round raises. */
  ghost predicate ContentRaises(round: Json) {
    !Collects(round) || ListsRaise(round) || (Member(round, "kind") == Str("two_hop") && TwoHopRaises(round))
  }

  /** The flaw is one of the round's. */
  ghost predicate ContentBlames(round: Json, contributors: seq<Json>, albums: seq<Json>, f: Flaw) {
    || (f == EmptyAnswerSet && Member(round, "kind") == Str("one_hop") && !Truthy(ListUnder(round, "answer_set")))
    || EvidenceBlames(round, f) || ListsBlame(round, contributors, albums, f)
    || (Member(round, "kind") == Str("two_hop") && TwoHopBlames(round, f))
  }

  // ---------- The checks ----------

  method CheckEvidence(round: Json) returns (flaws: seq<Flaw>)
    ensures flaws == [] <==> HasEvidence(round)
    ensures forall f :: f in flaws <==> EvidenceBlames(round, f)
  {
    var lacking := CheckCovered(ValidIds(round), EvidenceIds(round));
    flaws := When(!Truthy(ListUnder(round, "evidence")), NoEvidence) + lacking;
  }

  method CheckCovered(ids: seq<Json>, evidence: seq<Json>) returns (flaws: seq<Flaw>)
    ensures flaws == [] <==> forall i :: 0 <= i < |ids| ==> Within(ids[i], evidence)
    ensures forall f :: f in flaws <==> f.LacksEvidence? && f.answer in ids && !Within(f.answer, evidence)
  {
    flaws := [];
    for n := 0 to |ids|
      invariant flaws == [] <==> forall i :: 0 <= i < n ==> Within(ids[i], evidence)
      invariant forall f :: f in flaws <==> f.LacksEvidence? && f.answer in ids[..n] && !Within(f.answer, evidence)
    {
      assert ids[..n + 1] == ids[..n] + [ids[n]];
      if !Within(ids[n], evidence) { flaws := flaws + [LacksEvidence(ids[n])]; }
    }
    assert ids[..|ids|] == ids;
  }

  function DistractorFlaws(d: Json, valid: seq<Json>, contributors: seq<Json>): (r: seq<Flaw>)
    requires d.Obj? && Hashable(Member(d, "id"))
    ensures r == [] <==> FairDistractor(d, valid, contributors)
    ensures forall f :: f in r <==> DistractorBlames([d], valid, contributors, f)
  {
    var id := Member(d, "id");
    assert [d][0] == d;
    When(Within(id, valid), DistractorIsAnswer(id)) + When(!Within(id, contributors), DistractorUnknown(id))
  }

  method CheckDistractors(round: Json, contributors: seq<Json>) returns (out: Outcome<Flaw>)
    ensures out == Failures([]) <==> FairDistractors(round, contributors)
    ensures out.Raised? <==> !Iterable(ListUnder(round, "distractors")) || IdRaises(Elements(ListUnder(round, "distractors")))
    ensures out.Failures? ==> forall f :: f in out.list <==>
      DistractorBlames(Elements(ListUnder(round, "distractors")), ValidIds(round), contributors, f)
  {
    if !Iterable(ListUnder(round, "distractors")) { return Raised; }
    out := CheckEach(Elements(ListUnder(round, "distractors")), ValidIds(round), contributors);
  }

  lemma OneMoreId(list: seq<Json>, d: Json)
    ensures IdRaises(list + [d]) <==> IdRaises(list) || (d.Obj? && !Hashable(Member(d, "id")))
    ensures forall id :: HasId(list + [d], id) <==> HasId(list, id) || HasId([d], id)
  {
    var more := list + [d];
    assert more[|list|] == d && forall i :: 0 <= i < |list| ==> more[i] == list[i];
    assert [d][0] == d;
  }

  lemma OneMoreDistractor(list: seq<Json>, d: Json, valid: seq<Json>, contributors: seq<Json>)
    ensures forall f :: DistractorBlames(list + [d], valid, contributors, f) <==>
      DistractorBlames(list, valid, contributors, f) || DistractorBlames([d], valid, contributors, f)
  {
    OneMoreId(list, d);
  }

  method CheckEach(list: seq<Json>, valid: seq<Json>, contributors: seq<Json>) returns (out: Outcome<Flaw>)
    ensures out == Failures([]) <==> forall i :: 0 <= i < |list| ==> FairDistractor(list[i], valid, contributors)
    ensures out.Raised? <==> IdRaises(list)
    ensures out.Failures? ==> forall f :: f in out.list <==> DistractorBlames(list, valid, contributors, f)
  {
    var flaws: seq<Flaw> := [];
    for n := 0 to |list|
      invariant flaws == [] <==> forall i :: 0 <= i < n ==> FairDistractor(list[i], valid, contributors)
      invariant !IdRaises(list[..n]) && forall f :: f in flaws <==> DistractorBlames(list[..n], valid, contributors, f)
    {
      assert list[..n + 1] == list[..n] + [list[n]];
      OneMoreId(list[..n], list[n]);
      OneMoreDistractor(list[..n], list[n], valid, contributors);
      if list[n].Obj? {
        if !Hashable(Member(list[n], "id")) {
          assert !FairDistractor(list[n], valid, contributors);
          return Raised;
        }
        flaws := flaws + DistractorFlaws(list[n], valid, contributors);
      }
    }
    assert list[..|list|] == list;
    out := Failures(flaws);
  }

  method CheckClue(clue: Json, valid: seq<Json>) returns (out: Outcome<Flaw>)
    ensures out == Failures([]) <==> FairClue(clue, valid)
    ensures out.Raised? <==> ClueRaises(clue)
    ensures out.Failures? ==> forall f :: f in out.list <==> ClueBlames(clue, valid, f)
  {
    if !Eliminates(clue) { return Failures([]); }
    if !Iterable(Eliminated(clue)) { return Raised; }
    var ids := Elements(Eliminated(clue));
    var flaws: seq<Flaw> := [];
    for n := 0 to |ids|
      invariant flaws == [] <==> forall i :: 0 <= i < n ==> Hashable(ids[i]) && !Within(ids[i], valid)
      invariant AllHashable(ids[..n])
      invariant forall f :: f in flaws <==> f.ClueTargetsAnswer? && f.eliminated in ids[..n] && Within(f.eliminated, valid)
    {
      assert ids[..n + 1] == ids[..n] + [ids[n]];
      if !Hashable(ids[n]) { return Raised; }
      if Within(ids[n], valid) { flaws := flaws + [ClueTargetsAnswer(ids[n])]; }
    }
    assert ids[..|ids|] == ids;
    out := Failures(flaws);
  }

  method CheckClues(round: Json) returns (out: Outcome<Flaw>)
    ensures out == Failures([]) <==> FairClues(round)
    ensures out.Raised? <==> !Iterable(ListUnder(round, "clues")) || ClueRaisesIn(Elements(ListUnder(round, "clues")))
    ensures out.Failures? ==> forall f :: f in out.list <==> ClueBlamesIn(Elements(ListUnder(round, "clues")), ValidIds(round), f)
  {
    if !Iterable(ListUnder(round, "clues")) { return Raised; }
    out := CheckEachClue(Elements(ListUnder(round, "clues")), ValidIds(round));
  }

  lemma OneMoreClue(list: seq<Json>, clue: Json, valid: seq<Json>)
    ensures ClueRaisesIn(list + [clue]) <==> ClueRaisesIn(list) || ClueRaises(clue)
    ensures forall f :: ClueBlamesIn(list + [clue], valid, f) <==> ClueBlamesIn(list, valid, f) || ClueBlames(clue, valid, f)
  {
    var more := list + [clue];
    assert more[|list|] == clue && forall i :: 0 <= i < |list| ==> more[i] == list[i];
  }

  method CheckEachClue(list: seq<Json>, valid: seq<Json>) returns (out: Outcome<Flaw>)
    ensures out == Failures([]) <==> forall i :: 0 <= i < |list| ==> FairClue(list[i], valid)
    ensures out.Raised? <==> ClueRaisesIn(list)
    ensures out.Failures? ==> forall f :: f in out.list <==> ClueBlamesIn(list, valid, f)
  {
    out := Failures([]);
    NoClues(valid);
    assert list[..0] == [];
    for n := 0 to |list|
      invariant CluesSoFar(list[..n], valid, out)
    {
      assert list[..n + 1] == list[..n] + [list[n]];
      var found := CheckClue(list[n], valid);
      NextClue(list[..n], list[n], valid, out, found);
      out := Then(out, found);
    }
    assert list[..|list|] == list;
  }

  /** What the loop over the clues has come to. */
  ghost predicate CluesSoFar(list: seq<Json>, valid: seq<Json>, out: Outcome<Flaw>) {
    && (out == Failures([]) <==> forall i :: 0 <= i < |list| ==> FairClue(list[i], valid))
    && (out.Raised? <==> ClueRaisesIn(list))
    && (out.Failures? ==> forall f :: f in out.list <==> ClueBlamesIn(list, valid, f))
  }

  lemma NoClues(valid: seq<Json>)
    ensures CluesSoFar([], valid, Failures([]))
  {
  }

  lemma FairMore(list: seq<Json>, clue: Json, valid: seq<Json>)
    ensures (forall i :: 0 <= i < |list + [clue]| ==> FairClue((list + [clue])[i], valid))
      <==> (forall i :: 0 <= i < |list| ==> FairClue(list[i], valid)) && FairClue(clue, valid)
  {
    var more := list + [clue];
    assert more[|list|] == clue && forall i :: 0 <= i < |list| ==> more[i] == list[i];
  }

  lemma NextClue(list: seq<Json>, clue: Json, valid: seq<Json>, out: Outcome<Flaw>, found: Outcome<Flaw>)
    requires CluesSoFar(list, valid, out)
    requires found == Failures([]) <==> FairClue(clue, valid)
    requires found.Raised? <==> ClueRaises(clue)
    requires found.Failures? ==> forall f :: f in found.list <==> ClueBlames(clue, valid, f)
    ensures CluesSoFar(list + [clue], valid, Then(out, found))
  {
    OneMoreClue(list, clue, valid);
    FairMore(list, clue, valid);
  }

  lemma OneMoreEndpoint(list: seq<Json>, e: Json, albums: seq<Json>)
    ensures StrangeEndpoint(list + [e], albums) <==> StrangeEndpoint(list, albums) || !e.Obj? || !Within(Member(e, "id"), albums)
  {
    var more := list + [e];
    assert more[|list|] == e && forall i :: 0 <= i < |list| ==> more[i] == list[i];
  }

  method CheckEndpoints(round: Json, albums: seq<Json>) returns (out: Outcome<Flaw>)
    ensures out == Failures([]) <==> KnownEndpoints(round, albums)
    ensures out.Raised? <==> !Iterable(ListUnder(round, "endpoints")) || IdRaises(Elements(ListUnder(round, "endpoints")))
    ensures out.Failures? ==> forall f :: f in out.list <==>
      f == EndpointUnknown && StrangeEndpoint(Elements(ListUnder(round, "endpoints")), albums)
  {
    if !Iterable(ListUnder(round, "endpoints")) { return Raised; }
    out := CheckEachEndpoint(Elements(ListUnder(round, "endpoints")), albums);
  }

  method CheckEachEndpoint(list: seq<Json>, albums: seq<Json>) returns (out: Outcome<Flaw>)
    ensures out == Failures([]) <==> forall i :: 0 <= i < |list| ==> KnownEndpoint(list[i], albums)
    ensures out.Raised? <==> IdRaises(list)
    ensures out.Failures? ==> forall f :: f in out.list <==> f == EndpointUnknown && StrangeEndpoint(list, albums)
  {
    var flaws: seq<Flaw> := [];
    for n := 0 to |list|
      invariant flaws == [] <==> forall i :: 0 <= i < n ==> KnownEndpoint(list[i], albums)
      invariant !IdRaises(list[..n])
      invariant forall f :: f in flaws <==> f == EndpointUnknown && StrangeEndpoint(list[..n], albums)
    {
      assert list[..n + 1] == list[..n] + [list[n]];
      OneMoreId(list[..n], list[n]);
      OneMoreEndpoint(list[..n], list[n], albums);
      if list[n].Obj? && !Hashable(Member(list[n], "id")) {
        assert !KnownEndpoint(list[n], albums);
        return Raised;
      }
      if !list[n].Obj? || !Within(Member(list[n], "id"), albums) { flaws := flaws + [EndpointUnknown]; }
    }
    assert list[..|list|] == list;
    out := Failures(flaws);
  }

  /** `any(c.get("id") == id for c in choices)`: stops at the first, and raises on a choice that is no object. */
  method FindChoice(choices: seq<Json>, id: Json) returns (found: Option<bool>)
    ensures found == Some(true) <==> Chosen(choices, id)
    ensures found == None <==> ChoiceRaises(choices, id)
    ensures found == Some(false) ==> NoChoice(choices, id)
  {
    for n := 0 to |choices|
      invariant forall i :: 0 <= i < n ==> choices[i].Obj? && !PyEqual(Member(choices[i], "id"), id)
    {
      if !choices[n].Obj? { return None; }
      if PyEqual(Member(choices[n], "id"), id) { return Some(true); }
    }
    found := Some(false);
  }

  method CheckTwoHop(round: Json) returns (out: Outcome<Flaw>)
    requires Iterable(Bridges(round))
    ensures out == Failures([]) <==> BothBridges(round)
    ensures out.Raised? <==> TwoHopRaises(round)
    ensures out.Failures? ==> forall f :: f in out.list <==> TwoHopBlames(round, f)
  {
    var middle, bridges := Member(round, "middle"), Bridges(round);
    if !Truthy(middle) || !Truthy(bridges) || |Elements(bridges)| != 2 { return Failures([NoMiddleOrBridges]); }
    if !middle.Obj? || !MiddleAlbum(middle).Obj? || !Iterable(Choices(middle)) { return Raised; }
    out := CheckBothSides(Elements(Choices(middle)), Member(MiddleAlbum(middle), "id"), bridges);
  }

  method CheckBothSides(choices: seq<Json>, id: Json, bridges: Json) returns (out: Outcome<Flaw>)
    requires |Elements(bridges)| == 2
    ensures out == Failures([]) <==>
      Chosen(choices, id) && !bridges.Obj? && Truthy(Elements(bridges)[0]) && Truthy(Elements(bridges)[1])
    ensures out.Raised? <==> ChoiceRaises(choices, id) || bridges.Obj?
    ensures out.Failures? ==> forall f :: f in out.list <==>
      || (f == MiddleNotAChoice && NoChoice(choices, id))
      || (f == EmptyBridge && (!Truthy(Elements(bridges)[0]) || !Truthy(Elements(bridges)[1])))
  {
    var found := FindChoice(choices, id);
    if found.None? || bridges.Obj? { return Raised; }
    out := Failures(
      When(!found.value, MiddleNotAChoice)
      + When(!Truthy(Elements(bridges)[0]) || !Truthy(Elements(bridges)[1]), EmptyBridge));
  }

  method CheckLists(round: Json, contributors: seq<Json>, albums: seq<Json>) returns (out: Outcome<Flaw>)
    ensures out == Failures([]) <==> FairDistractors(round, contributors) && FairClues(round) && KnownEndpoints(round, albums)
    ensures out.Raised? <==> ListsRaise(round)
    ensures out.Failures? ==> forall f :: f in out.list <==> ListsBlame(round, contributors, albums, f)
  {
    var distractors := CheckDistractors(round, contributors);
    var clues := CheckClues(round);
    var endpoints := CheckEndpoints(round, albums);
    out := Then(Then(distractors, clues), endpoints);
  }

  /** The checks on the content of one round, in one pass of the rounds loop. */
  method CheckRound(round: Json, contributors: seq<Json>, albums: seq<Json>) returns (out: Outcome<Flaw>)
    ensures out == Failures([]) <==> PassesRound(round, contributors, albums)
    ensures out.Raised? <==> ContentRaises(round)
    ensures out.Failures? ==> forall f :: f in out.list <==> ContentBlames(round, contributors, albums, f)
  {
    if !Collects(round) { return Raised; }
    var evidence := CheckEvidence(round);
    out := Failures(When(!HasAnswers(round), EmptyAnswerSet) + evidence);
    var lists := CheckLists(round, contributors, albums);
    out := Then(out, lists);
    if Member(round, "kind") == Str("two_hop") {
      var twoHop := CheckTwoHop(round);
      out := Then(out, twoHop);
    }
  }
}
