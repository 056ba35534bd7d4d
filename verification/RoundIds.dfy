/** A round's id, recomputed from its own content. */
module RoundIds {
  import opened Text
  import opened Json
  import opened PythonValues
  import Sorting

  /** The first ten digits of the digest of the parts, joined by bars. */
  function StableDigest(sha: string -> string, parts: seq<string>): string {
    var d := sha(Join(parts, '|'));
    if |d| <= 10 then d else d[..10]
  }

  /** The ids of a list of objects with text ids; none when it is anything else. */
  function TextIds(v: Json): Option<seq<string>> {
    if v.Arr? && forall i :: 0 <= i < |v.items| ==> v.items[i].Obj? && Member(v.items[i], "id").Str?
    then Some(seq(|v.items|, i requires 0 <= i < |v.items| => TextOf(Member(v.items[i], "id"))))
    else None
  }

  function TextOf(v: Json): string {
    if v.Str? then v.s else ""
  }

  /** An integer in Python, where a boolean is one. */
  predicate IsInt(v: Json) {
    v.Num? || v.Bool?
  }

  function IntIds(v: Json): Option<seq<Json>> {
    if v.Arr? && forall i :: 0 <= i < |v.items| ==> v.items[i].Obj? && IsInt(Member(v.items[i], "id"))
    then Some(seq(|v.items|, i requires 0 <= i < |v.items| => Member(v.items[i], "id")))
    else None
  }

  function IntValue(v: Json): int {
    match v case Num(n) => n case Bool(b) => if b then 1 else 0 case _ => 0
  }

  function CompareInts(v: Json, w: Json): int {
    IntValue(v) - IntValue(w)
  }

  /** `str()` of an integer. */
  function Printed(v: Json): string {
    match v case Num(n) => IntText(n) case Bool(b) => if b then "True" else "False" case _ => ""
  }

  function AllPrinted(ids: seq<Json>): (r: seq<string>)
    ensures |r| == |ids|
  {
    seq(|ids|, i requires 0 <= i < |ids| => Printed(ids[i]))
  }

  /** `",".join(str(i) for i in sorted(ids))`. */
  function IdList(ids: seq<Json>): string {
    Join(AllPrinted(Sorting.Sort(ids, CompareInts)), ',')
  }

  /** The texts the digest of a one-hop id is taken of. */
  function OneHopParts(ends: seq<string>, answers: seq<Json>): (r: seq<string>)
    requires |ends| == 2
    ensures |r| == 4
  {
    Sorting.SortKeeps(ends, CompareText);
    ["1h"] + Sorting.Sort(ends, CompareText) + [IdList(answers)]
  }

  function OneHopId(sha: string -> string, round: Json): Option<string> {
    var ends, answers := TextIds(Member(round, "endpoints")), IntIds(Member(round, "answer_set"));
    if ends.Some? && answers.Some? && |ends.value| == 2
    then Some("conn-" + StableDigest(sha, OneHopParts(ends.value, answers.value)))
    else None
  }

  function TwoHopId(sha: string -> string, round: Json): Option<string> {
    var ends, bridges := TextIds(Member(round, "endpoints")), Member(round, "bridge_answer_sets");
    var middle := Member(Member(Member(round, "middle"), "album"), "id");
    if ends.Some? && |ends.value| == 2 && bridges.Arr? && |bridges.items| == 2 && middle.Str?
       && IntIds(bridges.items[0]).Some? && IntIds(bridges.items[1]).Some?
    then
      Some("conn-" + StableDigest(sha, ["2h", ends.value[0], ends.value[1], middle.s,
        IdList(IntIds(bridges.items[0]).value), IdList(IntIds(bridges.items[1]).value)]))
    else None
  }

  /** The id a round's content stands for, when it can be recomputed. */
  function RecomputedId(sha: string -> string, round: Json): Option<string> {
    if Member(round, "kind") == Str("two_hop") then TwoHopId(sha, round) else OneHopId(sha, round)
  }

  // ---------- Which text is digested ----------

  /** The round's endpoints have these two ids. */
  ghost predicate HasEnds(round: Json, a: string, b: string) {
    var ends := Member(round, "endpoints");
    && ends.Arr? && |ends.items| == 2 && ends.items[0].Obj? && ends.items[1].Obj?
    && Member(ends.items[0], "id") == Str(a) && Member(ends.items[1], "id") == Str(b)
  }

  /** The list's objects have these integers as ids. */
  ghost predicate HasNumbers(list: Json, ids: seq<Json>) {
    && list.Arr? && |list.items| == |ids|
    && forall i :: 0 <= i < |ids| ==> list.items[i].Obj? && IsInt(ids[i]) && Member(list.items[i], "id") == ids[i]
  }

  /** The ids' own digits in ascending order of number, with a comma between each and the next. */
  ghost predicate ListsNumbers(text: string, ids: seq<Json>) {
    exists order: seq<Json> :: IsAscendingOrder(order, ids) && text == Join(AllPrinted(order), ',')
  }

  ghost predicate IsAscendingOrder(order: seq<Json>, ids: seq<Json>) {
    multiset(order) == multiset(ids) && forall i, j :: 0 <= i < j < |order| ==> IntValue(order[i]) <= IntValue(order[j])
  }

  /** `conn-` and the first ten characters of the text's digest. */
  ghost predicate IsIdFrom(sha: string -> string, id: string, text: string) {
    id == "conn-" + if |sha(text)| <= 10 then sha(text) else sha(text)[..10]
  }

  ghost predicate IsOneHopText(text: string, a: string, b: string, ids: seq<Json>) {
    exists list: string ::
      && ListsNumbers(list, ids)
      && ((!Precedes(b, a) && text == "1h|" + a + "|" + b + "|" + list) || (!Precedes(a, b) && text == "1h|" + b + "|" + a + "|" + list))
  }

  ghost predicate IsTwoHopText(text: string, a: string, b: string, middle: string, first: seq<Json>, second: seq<Json>) {
    exists list: string, other: string ::
      && ListsNumbers(list, first) && ListsNumbers(other, second)
      && text == "2h|" + a + "|" + b + "|" + middle + "|" + list + "|" + other
  }

  lemma NumbersAre(list: Json, ids: seq<Json>)
    requires HasNumbers(list, ids)
    ensures IntIds(list) == Some(ids) && ListsNumbers(IdList(ids), ids)
  {
    assert IntIds(list).value == ids;
    Sorting.SortKeeps(ids, CompareInts);
    Sorting.SortSorts(ids, CompareInts);
    assert IsAscendingOrder(Sorting.Sort(ids, CompareInts), ids);
  }

  lemma EndsAre(round: Json, a: string, b: string)
    requires HasEnds(round, a, b)
    ensures TextIds(Member(round, "endpoints")) == Some([a, b])
  {
    assert TextIds(Member(round, "endpoints")).value == [a, b];
  }

  lemma PairSorted(a: string, b: string)
    ensures Sorting.Sort([a, b], CompareText) == (if Before(b, a) then [b, a] else [a, b])
  {
    assert [a, b][1..] == [b];
    assert Sorting.Sort([b], CompareText) == [b];
    BeforeIsPrecedes(a, b);
    BeforeIsPrecedes(b, a);
    assert Sorting.Sort([a, b], CompareText) == Sorting.Insert(a, [b], CompareText);
  }

  lemma FourJoined(a: string, b: string, c: string, d: string)
    ensures Join([a, b, c, d], '|') == a + "|" + b + "|" + c + "|" + d
  {
    assert [a, b, c, d][1..] == [b, c, d] && [b, c, d][1..] == [c, d] && [c, d][1..] == [d];
    assert Join([c, d], '|') == c + "|" + d;
    assert Join([b, c, d], '|') == b + "|" + (c + "|" + d);
  }

  /** A one-hop id is made from the lesser endpoint, the greater one and the answers in ascending order. */
  lemma OneHopIdReads(sha: string -> string, round: Json, a: string, b: string, ids: seq<Json>)
    requires HasEnds(round, a, b) && HasNumbers(Member(round, "answer_set"), ids)
    ensures OneHopId(sha, round).Some?
    ensures exists text :: IsOneHopText(text, a, b, ids) && IsIdFrom(sha, OneHopId(sha, round).value, text)
  {
    EndsAre(round, a, b);
    NumbersAre(Member(round, "answer_set"), ids);
    PairSorted(a, b);
    BeforeIsPrecedes(a, b);
    BeforeIsPrecedes(b, a);
    BeforeTrichotomy(a, b);
    var text := Join(OneHopParts([a, b], ids), '|');
    OneHopTextIs(a, b, ids);
    assert IsIdFrom(sha, OneHopId(sha, round).value, text);
  }

  lemma OneHopTextIs(a: string, b: string, ids: seq<Json>)
    requires ListsNumbers(IdList(ids), ids)
    ensures IsOneHopText(Join(OneHopParts([a, b], ids), '|'), a, b, ids)
  {
    var lo, hi := if Before(b, a) then b else a, if Before(b, a) then a else b;
    PairSorted(a, b);
    BeforeIsPrecedes(a, b);
    BeforeIsPrecedes(b, a);
    assert OneHopParts([a, b], ids) == ["1h", lo, hi, IdList(ids)];
    FourJoined("1h", lo, hi, IdList(ids));
    assert "1h" + "|" == "1h|";
  }

  /** A two-hop id is made from the endpoints as they stand, the hidden record and each side's answers in
      ascending order. */
  lemma TwoHopIdReads(sha: string -> string, round: Json, a: string, b: string, middle: string, first: seq<Json>, second: seq<Json>)
    requires HasEnds(round, a, b) && Member(Member(Member(round, "middle"), "album"), "id") == Str(middle)
    requires Member(round, "bridge_answer_sets").Arr? && |Member(round, "bridge_answer_sets").items| == 2
    requires HasNumbers(Member(round, "bridge_answer_sets").items[0], first)
    requires HasNumbers(Member(round, "bridge_answer_sets").items[1], second)
    ensures TwoHopId(sha, round).Some?
    ensures exists text :: IsTwoHopText(text, a, b, middle, first, second) && IsIdFrom(sha, TwoHopId(sha, round).value, text)
  {
    EndsAre(round, a, b);
    NumbersAre(Member(round, "bridge_answer_sets").items[0], first);
    NumbersAre(Member(round, "bridge_answer_sets").items[1], second);
    var text := Join(["2h", a, b, middle, IdList(first), IdList(second)], '|');
    TwoHopTextIs(a, b, middle, first, second);
    assert IsIdFrom(sha, TwoHopId(sha, round).value, text);
  }

  lemma SixJoined(a: string, b: string, c: string, d: string, e: string, f: string)
    ensures Join([a, b, c, d, e, f], '|') == a + "|" + b + "|" + c + "|" + d + "|" + e + "|" + f
  {
    FourJoined(c, d, e, f);
    assert [a, b, c, d, e, f][1..] == [b, c, d, e, f] && [b, c, d, e, f][1..] == [c, d, e, f];
    assert Join([b, c, d, e, f], '|') == b + "|" + Join([c, d, e, f], '|');
  }

  lemma TwoHopTextIs(a: string, b: string, middle: string, first: seq<Json>, second: seq<Json>)
    requires ListsNumbers(IdList(first), first) && ListsNumbers(IdList(second), second)
    ensures IsTwoHopText(Join(["2h", a, b, middle, IdList(first), IdList(second)], '|'), a, b, middle, first, second)
  {
    SixJoined("2h", a, b, middle, IdList(first), IdList(second));
    assert "2h" + "|" == "2h|";
  }

  // ---------- What an id pins down ----------

  lemma SameSuffix(a: string, x: string, y: string)
    requires a + x == a + y
    ensures x == y
  {
    assert (a + x)[|a|..] == x;
    assert (a + y)[|a|..] == y;
  }

  lemma PrintedIsJoinable(ids: seq<Json>)
    requires forall i :: 0 <= i < |ids| ==> IsInt(ids[i])
    ensures Joinable(AllPrinted(ids), ',')
  {
    forall i | 0 <= i < |ids| ensures AllPrinted(ids)[i] != "" && ',' !in AllPrinted(ids)[i] {
      match ids[i] {
        case Num(n) => IntTextLacks(n, ','); IntTextSign(n);
        case Bool(b) => assert |"True"| == 4 && |"False"| == 5;
      }
    }
  }

  /** The sorted ids, printed. */
  function SortedAnswers(ids: seq<Json>): seq<string> {
    AllPrinted(Sorting.Sort(ids, CompareInts))
  }

  lemma SortedAnswersJoinable(ids: seq<Json>)
    requires forall i :: 0 <= i < |ids| ==> IsInt(ids[i])
    ensures Joinable(SortedAnswers(ids), ',')
  {
    var sorted := Sorting.Sort(ids, CompareInts);
    Sorting.SortKeeps(ids, CompareInts);
    forall i | 0 <= i < |sorted| ensures IsInt(sorted[i]) {
      assert sorted[i] in multiset(sorted);
    }
    PrintedIsJoinable(sorted);
  }

  lemma PartsPin(a: seq<string>, x: seq<Json>, b: seq<string>, y: seq<Json>)
    requires |a| == 2 && |b| == 2 && forall e :: e in a + b ==> '|' !in e
    requires Join(OneHopParts(a, x), '|') == Join(OneHopParts(b, y), '|')
    ensures multiset(a) == multiset(b) && IdList(x) == IdList(y)
  {
    NoBars(a, x);
    NoBars(b, y);
    JoinFixedLength(OneHopParts(a, x), OneHopParts(b, y), '|');
    Sorting.SortKeeps(a, CompareText);
    Sorting.SortKeeps(b, CompareText);
    assert Sorting.Sort(a, CompareText) == OneHopParts(a, x)[1..3];
    assert Sorting.Sort(b, CompareText) == OneHopParts(b, y)[1..3];
    assert OneHopParts(a, x)[3] == IdList(x) && OneHopParts(b, y)[3] == IdList(y);
  }

  lemma NoBars(a: seq<string>, x: seq<Json>)
    requires |a| == 2 && forall e :: e in a ==> '|' !in e
    ensures forall i :: 0 <= i < 3 ==> '|' !in OneHopParts(a, x)[i]
  {
    var sorted := Sorting.Sort(a, CompareText);
    Sorting.SortKeeps(a, CompareText);
    forall i | 0 <= i < 2 ensures '|' !in sorted[i] {
      assert sorted[i] in multiset(sorted);
    }
  }

  /** These two rounds' digests do not collide. */
  ghost predicate Uncollided(sha: string -> string, a: seq<string>, x: seq<Json>, b: seq<string>, y: seq<Json>)
    requires |a| == 2 && |b| == 2
  {
    StableDigest(sha, OneHopParts(a, x)) == StableDigest(sha, OneHopParts(b, y)) ==>
      Join(OneHopParts(a, x), '|') == Join(OneHopParts(b, y), '|')
  }

  /** Two one-hop rounds with one recomputed id have the same two endpoints and the same answers, in any
      order, if their digests do not collide and no endpoint's id contains a bar. */
  lemma IdPinsContent(sha: string -> string, v: Json, w: Json)
    requires OneHopId(sha, v).Some? && OneHopId(sha, v) == OneHopId(sha, w)
    requires forall e :: e in TextIds(Member(v, "endpoints")).value + TextIds(Member(w, "endpoints")).value ==> '|' !in e
    requires Uncollided(sha, TextIds(Member(v, "endpoints")).value, IntIds(Member(v, "answer_set")).value,
                        TextIds(Member(w, "endpoints")).value, IntIds(Member(w, "answer_set")).value)
    ensures multiset(TextIds(Member(v, "endpoints")).value) == multiset(TextIds(Member(w, "endpoints")).value)
    ensures SortedAnswers(IntIds(Member(v, "answer_set")).value) == SortedAnswers(IntIds(Member(w, "answer_set")).value)
  {
    var a, b := TextIds(Member(v, "endpoints")).value, TextIds(Member(w, "endpoints")).value;
    var x, y := IntIds(Member(v, "answer_set")).value, IntIds(Member(w, "answer_set")).value;
    SameSuffix("conn-", StableDigest(sha, OneHopParts(a, x)), StableDigest(sha, OneHopParts(b, y)));
    PartsPin(a, x, b, y);
    SortedAnswersJoinable(x);
    SortedAnswersJoinable(y);
    JoinInjective(SortedAnswers(x), SortedAnswers(y), ',');
  }
}
