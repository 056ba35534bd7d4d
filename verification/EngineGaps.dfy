/** Published rounds, passed by the whole rounds validator, that the page cannot always let a player win. */
module EngineGaps {
  import opened Text
  import opened Json
  import opened JsonEquality
  import opened PythonValues
  import opened RoundChecks
  import opened ConnectionRounds
  import opened RoundSamples
  import opened DailyGaps
  import opened Engine

  // ---------- A two-hop round with one answer on each side ----------

  const ONE := [Num(1)]
  const TWO := [Num(2)]

  /** What the engine reads of it, with one distractor. */
  function Lockable(d: Json): Round {
    Round(TwoHop, [], [ONE, TWO], Some(MiddleRecord(Str("m"), [Str("m")])), [d], [])
  }

  /** The objects it is made of: who answers each side, the distractor, the rows of evidence, and the record
      in the middle, which is its own only choice. */
  datatype Parts = Parts(one: Json, two: Json, other: Json, seen: Json, heard: Json, record: Json, middle: Json)

  predicate IsNamed(v: Json, id: Json) {
    v.Obj? && Member(v, "id") == id
  }

  predicate IsRow(v: Json, id: Json) {
    v.Obj? && Member(v, "contributor_id") == id
  }

  predicate IsMiddle(v: Json, record: Json) {
    v.Obj? && v.fields != [] && Member(v, "album") == record && Member(v, "choices") == Arr([record])
  }

  ghost predicate PartsAre(p: Parts, d: Json) {
    && IsNamed(p.one, Num(1)) && IsNamed(p.two, Num(2)) && IsNamed(p.other, d) && IsNamed(p.record, Str("m"))
    && IsRow(p.seen, Num(1)) && IsRow(p.heard, Num(2)) && IsMiddle(p.middle, p.record)
  }

  ghost predicate PartsFit(p: Parts) {
    Fit(p.one) && Fit(p.two) && Fit(p.other) && Fit(p.seen) && Fit(p.heard) && Fit(p.record) && Fit(p.middle)
  }

  lemma MakeMiddle(record: Json) returns (v: Json)
    requires Fit(record)
    ensures IsMiddle(v, record) && Fit(v)
  {
    var f := [Field("album", record), Field("choices", Arr([record]))];
    assert |f[0].key| == 5 && |f[1].key| == 7 && f[0].key[0] == 'a' && f[1].key[0] == 'c' && |"kind"| == 4;
    ByLength(f, [5, 7]);
    MembersRead(f);
    v := Obj(f);
    assert Member(v, f[0].key) == f[0].value && Member(v, f[1].key) == f[1].value;
    FitItems([record]);
    ProperObject(f);
    NoKind(f);
    PlainObject(f);
  }

  lemma MakeParts(d: Json) returns (p: Parts)
    requires Fit(d)
    ensures PartsAre(p, d) && PartsFit(p)
  {
    SimpleArePlain();
    NamedRead(Num(1));
    NamedRead(Num(2));
    NamedRead(Str("m"));
    NamedRead(d);
    var middle := MakeMiddle(Named(Str("m")));
    p := Parts(Named(Num(1)), Named(Num(2)), Named(d), Row(Num(1)), Row(Num(2)), Named(Str("m")), middle);
  }

  function Sides(p: Parts): seq<Json> {
    [Arr([p.one]), Arr([p.two])]
  }

  function LockableFields(p: Parts): seq<Field> {
    [Field("id", Str("conn-0123456789")), Field("pool", Str("real-records")), Field("kind", Str("two_hop")),
     Field("difficulty", Str("easy")), Field("bridge_answer_sets", Arr(Sides(p))), Field("middle", p.middle),
     Field("distractors", Arr([p.other])), Field("evidence", Arr([p.seen, p.heard])), Field("clues", Arr([]))]
  }

  /** The round, by what is read of it. */
  ghost predicate Reads(j: Json, p: Parts) {
    && j.Obj?
    && Member(j, "id") == Str("conn-0123456789") && Member(j, "pool") == Str("real-records")
    && Member(j, "kind") == Str("two_hop") && Member(j, "difficulty") == Str("easy")
    && Member(j, "bridge_answer_sets") == Arr(Sides(p)) && Member(j, "middle") == p.middle
    && Member(j, "distractors") == Arr([p.other]) && Member(j, "evidence") == Arr([p.seen, p.heard]) && Member(j, "clues") == Arr([])
    && Member(j, "endpoints") == Null && ListUnder(j, "endpoints") == Arr([])
    && Member(j, "answer_set") == Null && ListUnder(j, "answer_set") == Arr([])
  }

  lemma LockableKeys(f: seq<Field>)
    requires |f| == 9
    requires f[0].key == "id" && f[1].key == "pool" && f[2].key == "kind" && f[3].key == "difficulty"
    requires f[4].key == "bridge_answer_sets" && f[5].key == "middle" && f[6].key == "distractors"
    requires f[7].key == "evidence" && f[8].key == "clues"
    ensures DistinctKeys(f) && forall i :: 0 <= i < 9 ==> Unremarkable(f[i].key)
    ensures forall i :: 0 <= i < 9 ==> f[i].key != "endpoints" && f[i].key != "answer_set"
  {
    var lengths := [2, 4, 4, 10, 18, 6, 11, 8, 5];
    assert forall i :: 0 <= i < 9 ==> |f[i].key| == lengths[i];
    assert f[0].key[0] == 'i' && f[1].key[0] == 'p' && f[2].key[0] == 'k' && f[3].key[0] == 'd' && f[4].key[0] == 'b';
    assert f[5].key[0] == 'm' && f[6].key[0] == 'd' && f[7].key[0] == 'e' && f[8].key[0] == 'c';
    forall i, j | 0 <= i < j < 9 ensures f[i].key != f[j].key {
      assert lengths[i] != lengths[j] || (i == 1 && j == 2);
    }
    assert |"endpoints"| == 9 && |"answer_set"| == 10 && "answer_set"[0] == 'a';
  }

  lemma Lacking(f: seq<Field>, key: string)
    requires forall i :: 0 <= i < |f| ==> f[i].key != key
    ensures Member(Obj(f), key) == Null && ListUnder(Obj(f), key) == Arr([])
  {
  }

  lemma ReadLockable(f: seq<Field>, p: Parts)
    requires f == LockableFields(p)
    ensures DistinctKeys(f) && (forall i :: 0 <= i < 9 ==> Unremarkable(f[i].key)) && Reads(Obj(f), p)
  {
    LockableKeys(f);
    MembersRead(f);
    Lacking(f, "endpoints");
    Lacking(f, "answer_set");
    var j := Obj(f);
    assert Member(j, f[0].key) == f[0].value && Member(j, f[1].key) == f[1].value && Member(j, f[2].key) == f[2].value;
    assert Member(j, f[3].key) == f[3].value && Member(j, f[4].key) == f[4].value && Member(j, f[5].key) == f[5].value;
    assert Member(j, f[6].key) == f[6].value && Member(j, f[7].key) == f[7].value && Member(j, f[8].key) == f[8].value;
  }

  lemma ListsFit(p: Parts)
    requires PartsFit(p)
    ensures Fit(Arr(Sides(p))) && Fit(Arr([p.other])) && Fit(Arr([p.seen, p.heard]))
  {
    FitItems([p.one]);
    FitItems([p.two]);
    FitItems(Sides(p));
    FitItems([p.other]);
    FitItems([p.seen, p.heard]);
  }

  /** A value other than `hotlink` under `kind` marks nothing. */
  lemma NotHotlink(s: string)
    requires s != "" && s[0] != 'h'
    ensures !PyEqual(Str(s), Str("hotlink"))
  {
    StringsEqual(Str(s), "hotlink");
    assert "hotlink"[0] == 'h';
  }

  lemma FitObject(f: seq<Field>, kind: string)
    requires DistinctKeys(f) && (forall i :: 0 <= i < |f| ==> Unremarkable(f[i].key) && Fit(f[i].value))
    requires Member(Obj(f), "kind") == Str(kind) && kind != "" && kind[0] != 'h'
    ensures Fit(Obj(f))
  {
    ProperObject(f);
    NotHotlink(kind);
    PlainObject(f);
  }

  lemma LockableFit(f: seq<Field>, p: Parts)
    requires PartsFit(p) && f == LockableFields(p) && DistinctKeys(f) && forall i :: 0 <= i < 9 ==> Unremarkable(f[i].key)
    requires Member(Obj(f), "kind") == Str("two_hop")
    ensures Fit(Obj(f))
  {
    SimpleArePlain();
    ListsFit(p);
    assert Fit(f[8].value);
    AllEight(f[..8]);
    forall i | 0 <= i < 9 ensures Fit(f[i].value) { assert i < 8 ==> f[..8][i] == f[i]; }
    assert "two_hop"[0] == 't' && |"two_hop"| == 7;
    FitObject(f, "two_hop");
  }

  lemma MakeLockable(p: Parts) returns (j: Json)
    requires PartsFit(p)
    ensures Reads(j, p) && Fit(j)
  {
    var f := LockableFields(p);
    ReadLockable(f, p);
    LockableFit(f, p);
    j := Obj(f);
  }

  // ---------- It passes ----------

  lemma SideIds(p: Parts)
    requires IsNamed(p.one, Num(1)) && IsNamed(p.two, Num(2))
    ensures GroupIds(Sides(p)) == [Num(1), Num(2)]
  {
    var groups := Sides(p);
    OneId([p.one], p.one, "id");
    OneId([p.two], p.two, "id");
    assert groups[1..] == [groups[1]] && groups[1..][1..] == [];
    assert GroupIds(groups[1..]) == [Num(2)];
  }

  /** What the validator loops over. */
  ghost predicate Listed(j: Json, p: Parts) {
    && Bridges(j) == Arr(Sides(p)) && ListUnder(j, "evidence") == Arr([p.seen, p.heard]) && ListUnder(j, "answer_set") == Arr([])
    && ListUnder(j, "distractors") == Arr([p.other]) && ListUnder(j, "clues") == Arr([]) && ListUnder(j, "endpoints") == Arr([])
    && Member(j, "middle") == p.middle && Member(j, "kind") != Str("one_hop")
  }

  lemma LockableLists(j: Json, p: Parts)
    requires Reads(j, p)
    ensures Listed(j, p)
  {
    IsThere(j, "evidence", Arr([]));
    IsThere(j, "distractors", Arr([]));
    IsThere(j, "clues", Arr([]));
    assert "one_hop"[0] == 'o' && "two_hop"[0] == 't';
  }

  lemma LockableIds(j: Json, p: Parts)
    requires Bridges(j) == Arr(Sides(p)) && ListUnder(j, "evidence") == Arr([p.seen, p.heard]) && ListUnder(j, "answer_set") == Arr([])
    requires IsNamed(p.one, Num(1)) && IsNamed(p.two, Num(2)) && IsRow(p.seen, Num(1)) && IsRow(p.heard, Num(2))
    ensures ValidIds(j) == [Num(1), Num(2)] && EvidenceIds(j) == [Num(1), Num(2)]
  {
    SideIds(p);
    TwoIds([p.seen, p.heard], p.seen, p.heard, "contributor_id");
  }

  lemma LockableCollects(j: Json, p: Parts, ids: seq<Json>)
    requires Bridges(j) == Arr(Sides(p)) && ListUnder(j, "evidence") == Arr([p.seen, p.heard]) && ListUnder(j, "answer_set") == Arr([])
    requires ValidIds(j) == ids && EvidenceIds(j) == ids && AllHashable(ids)
    ensures Collects(j) && HasEvidence(j)
  {
    forall i | 0 <= i < |ids| ensures Within(ids[i], ids) { MemberIsWithin(ids[i], ids); }
    assert Sides(p)[0].Arr? && Sides(p)[1].Arr?;
  }

  lemma LockableBridges(j: Json, p: Parts)
    requires Bridges(j) == Arr(Sides(p)) && Member(j, "middle") == p.middle
    requires IsMiddle(p.middle, p.record) && IsNamed(p.record, Str("m"))
    ensures BothBridges(j)
  {
    IsThere(p.middle, "album", Obj([]));
    IsThere(p.middle, "choices", Arr([]));
    Reflexive(true, Str("m"));
    var choices := Elements(Choices(p.middle));
    assert choices[0] == p.record;
  }

  /** A distractor Python does not take for 1 or 2. */
  predicate Other(d: Json) {
    Hashable(d) && !PyEqual(Num(1), d) && !PyEqual(Num(2), d)
  }

  lemma LockableFair(j: Json, p: Parts, d: Json, valid: seq<Json>)
    requires ListUnder(j, "distractors") == Arr([p.other]) && ListUnder(j, "clues") == Arr([]) && ListUnder(j, "endpoints") == Arr([])
    requires ValidIds(j) == valid && FairDistractor(p.other, valid, [d])
    ensures FairDistractors(j, [d]) && FairClues(j) && KnownEndpoints(j, [])
  {
  }

  lemma OtherIsFair(v: Json, d: Json, valid: seq<Json>)
    requires IsNamed(v, d) && Other(d) && valid == [Num(1), Num(2)]
    ensures FairDistractor(v, valid, [d])
  {
    MemberIsWithin(d, [d]);
    assert valid[0] == Num(1) && valid[1] == Num(2);
  }

  lemma PassesFrom(j: Json, contributors: seq<Json>)
    requires Collects(j) && HasEvidence(j) && Member(j, "kind") != Str("one_hop") && BothBridges(j)
    requires FairDistractors(j, contributors) && FairClues(j) && KnownEndpoints(j, [])
    ensures AllPass([j], contributors, [])
  {
  }

  lemma LockableChecks(j: Json, p: Parts)
    requires Bridges(j) == Arr(Sides(p)) && ListUnder(j, "evidence") == Arr([p.seen, p.heard]) && ListUnder(j, "answer_set") == Arr([])
    requires IsNamed(p.one, Num(1)) && IsNamed(p.two, Num(2)) && IsRow(p.seen, Num(1)) && IsRow(p.heard, Num(2))
    ensures Collects(j) && HasEvidence(j)
  {
    LockableIds(j, p);
    var ids := [Num(1), Num(2)];
    LockableCollects(j, p, ids);
  }

  lemma LockableIsFair(j: Json, p: Parts, d: Json)
    requires Listed(j, p) && PartsAre(p, d) && Other(d)
    ensures FairDistractors(j, [d]) && FairClues(j) && KnownEndpoints(j, [])
  {
    LockableIds(j, p);
    OtherIsFair(p.other, d, ValidIds(j));
    LockableFair(j, p, d, ValidIds(j));
  }

  lemma LockablePasses(j: Json, p: Parts, d: Json)
    requires Listed(j, p) && PartsAre(p, d) && Other(d)
    ensures AllPass([j], [d], [])
  {
    LockableChecks(j, p);
    LockableIsFair(j, p, d);
    LockableBridges(j, p);
    PassesFrom(j, [d]);
  }

  lemma PartsReadAs(p: Parts, d: Json)
    requires PartsAre(p, d)
    ensures BridgesOf(Sides(p)) == [ONE, TWO] && Ids([p.other]) == [d]
    ensures MiddleOf(p.middle) == Some(MiddleRecord(Str("m"), [Str("m")]))
  {
    assert Ids([p.one]) == ONE && Ids([p.two]) == TWO && Ids([p.record]) == [Str("m")];
  }

  lemma LockableReadable(j: Json, p: Parts)
    requires Reads(j, p) && p.one.Obj? && p.two.Obj? && p.other.Obj? && p.record.Obj? && IsMiddle(p.middle, p.record)
    ensures Readable(j)
  {
    LockableSteps(j, p);
    assert ReadableList(Member(j, "distractors"));
  }

  lemma LockableSteps(j: Json, p: Parts)
    requires Member(j, "kind") == Str("two_hop") && Member(j, "bridge_answer_sets") == Arr(Sides(p)) && Member(j, "middle") == p.middle
    requires p.one.Obj? && p.two.Obj? && p.record.Obj? && IsMiddle(p.middle, p.record)
    ensures ReadableSteps(j)
  {
    assert "one_hop"[0] == 'o' && "two_hop"[0] == 't';
  }

  lemma TwoHopReadAs(j: Json, sides: seq<Json>, middle: Json, others: seq<Json>)
    requires Member(j, "kind") == Str("two_hop") && Member(j, "answer_set") == Null && Member(j, "bridge_answer_sets") == Arr(sides)
    requires Member(j, "middle") == middle && Member(j, "distractors") == Arr(others) && Member(j, "clues") == Arr([])
    ensures FromJson(j) == Round(TwoHop, [], BridgesOf(sides), MiddleOf(middle), Ids(others), [])
  {
    assert "one_hop"[0] == 'o' && "two_hop"[0] == 't';
    assert Ids([]) == [];
  }

  lemma LockableFromJson(j: Json, p: Parts, d: Json)
    requires Reads(j, p) && PartsAre(p, d)
    ensures FromJson(j) == Lockable(d) && Readable(j)
  {
    TwoHopReadAs(j, Sides(p), p.middle, [p.other]);
    PartsReadAs(p, d);
    LockableReadable(j, p);
  }

  /** A round ready to be published, and what the engine reads of it. */
  ghost predicate Ready(j: Json, d: Json) {
    Publishable(j) && Fit(j) && AllPass([j], [d], []) && Readable(j) && FromJson(j) == Lockable(d)
  }

  lemma MakeReady(d: Json) returns (j: Json)
    requires Fit(d) && Other(d)
    ensures Ready(j, d)
  {
    var p := MakeParts(d);
    j := MakeLockable(p);
    LockableLists(j, p);
    LockablePasses(j, p, d);
    LockableFromJson(j, p, d);
  }

  lemma NamedFits(d: Json)
    requires Fit(d) && Hashable(d)
    ensures Fit(Arr([Named(d)])) && IdsUnder([Named(d)], "id") == [d] && AllHashable([d])
  {
    NamedRead(d);
    FitItems([Named(d)]);
    OneId([Named(d)], Named(d), "id");
  }

  /** The round with any such distractor, published. */
  lemma PublishLockable(d: Json) returns (py: Python, universe: Json, rounds: Json, j: Json)
    requires Fit(d) && Other(d)
    ensures ValidRounds(py, universe, rounds) && Member(rounds, "rounds") == Arr([j])
    ensures Readable(j) && FromJson(j) == Lockable(d)
  {
    j := MakeReady(d);
    NamedFits(d);
    py, universe, rounds := Publish(j, [Named(d)]);
  }

  // ---------- It can be locked ----------

  /** A guess of 2 at the first bridge, and then the right one. */
  const STRIKING := [Deal, Present, Choose(Person(Number(2))), Choose(Person(Number(1)))]

  lemma StrikesTwo(r: Round)
    requires r.kind == TwoHop && r.bridges == [ONE, TWO]
    ensures Play(r, STRIKING[..3]) == Initial(r).(phase := Guessing, struck := [Number(2)], wrongAttempts := 1, attemptsLeft := 1)
  {
    var a1, a2, a3 := [Deal], [Deal, Present], [Deal, Present, Choose(Person(Number(2)))];
    assert STRIKING[..3] == a3 && a3[..2] == a2 && a2[..1] == a1 && a1[..0] == [];
    assert Play(r, a1) == Initial(r).(phase := Dealing);
    assert Play(r, a2) == Initial(r).(phase := Guessing);
  }

  /** Striking 2 during the first step shuts the second one. */
  lemma StrikingTwoLocks(r: Round)
    requires r.kind == TwoHop && r.bridges == [ONE, TWO]
    ensures Locked(r, Play(r, STRIKING))
  {
    StrikesTwo(r);
    var s := Play(r, STRIKING);
    assert STRIKING[..|STRIKING| - 1] == STRIKING[..3];
    assert s.step == BridgeB && s.phase == Guessing && s.struck == [Number(2)];
    LockedIffAllStruck(r, s);
  }

  /** Off the tray: guessing the second bridge's only answer during the first step strikes it for good. */
  lemma OffTrayCanLockTheRound() returns (py: Python, universe: Json, rounds: Json, j: Json)
    ensures ValidRounds(py, universe, rounds) && Member(rounds, "rounds") == Arr([j]) && Readable(j)
    ensures PlainIds(FromJson(j)) && Locked(FromJson(j), Play(FromJson(j), STRIKING))
  {
    ThreeIsOther();
    py, universe, rounds, j := PublishLockable(Num(3));
    StrikingTwoLocks(Lockable(Num(3)));
  }

  lemma ThreeIsOther()
    ensures Fit(Num(3)) && Other(Num(3)) && PlainIds(Lockable(Num(3)))
  {
  }

  lemma TwoIsOther()
    ensures Fit(Str("2")) && Other(Str("2"))
  {
  }

  /** On the tray: a distractor whose id is the text of an answer's number passes the validator, and its
      chip strikes that answer. */
  lemma LookalikeLocksTheRound(b: Browser) returns (py: Python, universe: Json, rounds: Json, j: Json)
    requires Faithful(b) && b.number(Str("2")) == Number(2)
    ensures ValidRounds(py, universe, rounds) && Member(rounds, "rounds") == Arr([j]) && Readable(j)
    ensures TrayOnly(b, FromJson(j), STRIKING) && Locked(FromJson(j), Play(FromJson(j), STRIKING))
  {
    TwoIsOther();
    py, universe, rounds, j := PublishLockable(Str("2"));
    StrikingTwoLocks(Lockable(Str("2")));
    LookalikeIsOnTray(b, Lockable(Str("2")));
  }

  lemma LookalikeIsOnTray(b: Browser, r: Round)
    requires Faithful(b) && b.number(Str("2")) == Number(2) && r == Lockable(Str("2"))
    ensures TrayOnly(b, r, STRIKING)
  {
    var a2, a3 := [Deal, Present], [Deal, Present, Choose(Person(Number(2)))];
    assert STRIKING[..3] == a3 && STRIKING[..2] == a2;
    assert a3[..2] == a2 && a2[..1] == [Deal] && [Deal][..0] == [];
    assert Play(r, [Deal]) == Initial(r).(phase := Dealing);
    assert Play(r, a2) == Initial(r).(phase := Guessing);
    assert Play(r, a3).step == BridgeA;
    assert b.number(r.distractors[0]) == Number(2) && b.number(AnswersFor(r, BridgeA)[0]) == Number(1);
  }

  // ---------- A one-hop round whose answer has a text for its id ----------

  const TEXTUAL := Round(OneHop, [Str("12")], [], None, [], [])

  function TextualFields(who: Json, row: Json): seq<Field> {
    [Field("id", Str("conn-0123456789")), Field("pool", Str("real-records")), Field("kind", Str("one_hop")),
     Field("difficulty", Str("easy")), Field("answer_set", Arr([who])), Field("distractors", Arr([])),
     Field("evidence", Arr([row])), Field("clues", Arr([]))]
  }

  /** The round, by what is read of it. */
  ghost predicate TextualReads(j: Json, who: Json, row: Json) {
    && j.Obj?
    && Member(j, "id") == Str("conn-0123456789") && Member(j, "pool") == Str("real-records")
    && Member(j, "kind") == Str("one_hop") && Member(j, "difficulty") == Str("easy")
    && Member(j, "answer_set") == Arr([who]) && Member(j, "distractors") == Arr([])
    && Member(j, "evidence") == Arr([row]) && Member(j, "clues") == Arr([])
    && Member(j, "endpoints") == Null && ListUnder(j, "endpoints") == Arr([])
    && Member(j, "bridge_answer_sets") == Null && Member(j, "middle") == Null
  }

  lemma TextualKeys(f: seq<Field>)
    requires |f| == 8
    requires f[0].key == "id" && f[1].key == "pool" && f[2].key == "kind" && f[3].key == "difficulty"
    requires f[4].key == "answer_set" && f[5].key == "distractors" && f[6].key == "evidence" && f[7].key == "clues"
    ensures DistinctKeys(f) && forall i :: 0 <= i < 8 ==> Unremarkable(f[i].key)
    ensures forall i :: 0 <= i < 8 ==> |f[i].key| !in {6, 9, 18}
  {
    var lengths := [2, 4, 4, 10, 10, 11, 8, 5];
    assert forall i :: 0 <= i < 8 ==> |f[i].key| == lengths[i];
    assert f[0].key[0] == 'i' && f[1].key[0] == 'p' && f[2].key[0] == 'k' && f[3].key[0] == 'd' && f[4].key[0] == 'a';
    assert f[5].key[0] == 'd' && f[6].key[0] == 'e' && f[7].key[0] == 'c';
    forall i, j | 0 <= i < j < 8 ensures f[i].key != f[j].key {
      assert lengths[i] != lengths[j] || (i == 1 && j == 2) || (i == 3 && j == 4);
    }
  }

  lemma ReadTextual(f: seq<Field>, who: Json, row: Json)
    requires f == TextualFields(who, row)
    ensures DistinctKeys(f) && (forall i :: 0 <= i < 8 ==> Unremarkable(f[i].key)) && TextualReads(Obj(f), who, row)
  {
    TextualKeys(f);
    MembersRead(f);
    assert |"endpoints"| == 9 && |"bridge_answer_sets"| == 18 && |"middle"| == 6;
    Lacking(f, "endpoints");
    Lacking(f, "bridge_answer_sets");
    Lacking(f, "middle");
    var j := Obj(f);
    assert Member(j, f[0].key) == f[0].value && Member(j, f[1].key) == f[1].value && Member(j, f[2].key) == f[2].value;
    assert Member(j, f[3].key) == f[3].value && Member(j, f[4].key) == f[4].value && Member(j, f[5].key) == f[5].value;
    assert Member(j, f[6].key) == f[6].value && Member(j, f[7].key) == f[7].value;
  }

  lemma TextualFit(f: seq<Field>, who: Json, row: Json)
    requires Fit(who) && Fit(row) && f == TextualFields(who, row) && DistinctKeys(f)
    requires (forall i :: 0 <= i < 8 ==> Unremarkable(f[i].key)) && Member(Obj(f), "kind") == Str("one_hop")
    ensures Fit(Obj(f))
  {
    TextualValues(f, who, row);
    assert "one_hop"[0] == 'o' && |"one_hop"| == 7;
    FitObject(f, "one_hop");
  }

  lemma TextualValues(f: seq<Field>, who: Json, row: Json)
    requires Fit(who) && Fit(row) && f == TextualFields(who, row)
    ensures forall i :: 0 <= i < 8 ==> Fit(f[i].value)
  {
    SimpleArePlain();
    FitItems([who]);
    FitItems([row]);
    AllEight(f);
  }

  lemma MakeTextual(who: Json, row: Json) returns (j: Json)
    requires Fit(who) && Fit(row)
    ensures TextualReads(j, who, row) && Fit(j)
  {
    var f := TextualFields(who, row);
    ReadTextual(f, who, row);
    TextualFit(f, who, row);
    j := Obj(f);
  }

  lemma TextualLists(j: Json, who: Json, row: Json, ids: seq<Json>)
    requires TextualReads(j, who, row) && IdsUnder([who], "id") == ids && IdsUnder([row], "contributor_id") == ids && AllHashable(ids)
    ensures ReadsAs(j, ids)
  {
    IsThere(j, "answer_set", Arr([]));
    IsThere(j, "evidence", Arr([]));
    IsThere(j, "distractors", Arr([]));
    IsThere(j, "clues", Arr([]));
    IdsFrom(j, [who], [row], ids);
    assert "one_hop"[0] == 'o' && "two_hop"[0] == 't';
  }

  lemma OneHopReadAs(j: Json, answers: seq<Json>)
    requires Member(j, "kind") == Str("one_hop") && Member(j, "answer_set") == Arr(answers) && Member(j, "bridge_answer_sets") == Null
    requires Member(j, "middle") == Null && Member(j, "distractors") == Arr([]) && Member(j, "clues") == Arr([])
    ensures FromJson(j) == Round(OneHop, Ids(answers), [], None, [], [])
  {
    assert Ids([]) == [] && BridgesOf([]) == [];
  }

  lemma OneHopReadable(j: Json, who: Json)
    requires Member(j, "kind") == Str("one_hop") && Member(j, "answer_set") == Arr([who]) && who.Obj?
    requires Member(j, "distractors") == Arr([]) && Member(j, "clues") == Arr([])
    ensures Readable(j)
  {
  }

  lemma TextualFromJson(j: Json, who: Json, row: Json)
    requires TextualReads(j, who, row) && IsNamed(who, Str("12"))
    ensures FromJson(j) == TEXTUAL && Readable(j)
  {
    assert Ids([who]) == [Str("12")];
    OneHopReadAs(j, [who]);
    OneHopReadable(j, who);
  }

  lemma TextualPasses(j: Json, who: Json, row: Json, id: Json)
    requires TextualReads(j, who, row) && IsNamed(who, id) && IsRow(row, id) && Hashable(id)
    ensures AllPass([j], [], []) && Publishable(j)
  {
    OneId([who], who, "id");
    OneId([row], row, "contributor_id");
    TextualLists(j, who, row, [id]);
    PassesWith(j, [id]);
  }

  lemma MakeTextualRound() returns (j: Json)
    ensures Publishable(j) && Fit(j) && AllPass([j], [], []) && Readable(j) && FromJson(j) == TEXTUAL
  {
    var id := Str("12");
    TextFits("12");
    NamedRead(id);
    j := MakeTextual(Named(id), Row(id));
    TextualPasses(j, Named(id), Row(id), id);
    TextualFromJson(j, Named(id), Row(id));
  }

  lemma TextFits(s: string)
    ensures Fit(Str(s))
  {
  }

  /** With texts for ids throughout, the validator passes and no play ever solves the round. */
  lemma TextIdsCannotBeWon() returns (py: Python, universe: Json, rounds: Json, j: Json)
    ensures ValidRounds(py, universe, rounds) && Member(rounds, "rounds") == Arr([j]) && Readable(j)
    ensures forall actions :: !Play(FromJson(j), actions).solved
  {
    j := MakeTextualRound();
    NobodyFits();
    py, universe, rounds := Publish(j, []);
    forall actions ensures !Play(TEXTUAL, actions).solved {
      EveryRunConsistent(TEXTUAL, actions);
      NothingSolved(actions);
    }
  }

  lemma NobodyFits()
    ensures Fit(Arr([])) && IdsUnder([], "id") == []
  {
    SimpleArePlain();
  }

  lemma {:induction false} NothingSolved(actions: seq<Action>)
    ensures Play(TEXTUAL, actions).solvedSteps == [] && Play(TEXTUAL, actions).step == Single
  {
    if actions != [] {
      NothingSolved(actions[..|actions| - 1]);
    }
  }

  // ---------- A round that lists no distractors ----------

  /** Leaving a list out passes the validator, which reads it as empty; the page reads it and throws. */
  lemma MissingListPasses() returns (py: Python, universe: Json, rounds: Json, j: Json)
    ensures ValidRounds(py, universe, rounds) && Member(rounds, "rounds") == Arr([j]) && !Readable(j)
  {
    j := MakeRound();
    RoundPasses(j);
    AbsentLists(j);
    LacksDistractors(j);
    NobodyFits();
    py, universe, rounds := Publish(j, []);
  }

  lemma LacksDistractors(j: Json)
    requires RoundIs(j)
    ensures !Readable(j)
  {
    assert |"distractors"| == 11;
    Absent(j, "distractors");
  }
}
