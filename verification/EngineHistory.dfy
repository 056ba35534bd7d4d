/** What a run's history says of the engine's state: right and wrong guesses, hints taken and rounds given up. */
module EngineHistory {
  import opened Text
  import opened Json
  import opened PythonValues
  import opened PathfindingGraph
  import opened Engine

  // ---------- Right answers, read from the round ----------

  /** The choice is one of the ids the round lists for the step, or its hidden record. */
  ghost predicate Solves(r: Round, step: Step, c: Choice) {
    match step
    case Single => c.Person? && ListsId(r.answers, c.guess)
    case BridgeA => c.Person? && |r.bridges| >= 2 && ListsId(r.bridges[0], c.guess)
    case BridgeB => c.Person? && |r.bridges| >= 2 && ListsId(r.bridges[1], c.guess)
    case Middle => c.Album? && r.middle.Some? && r.middle.value.album == Str(c.album)
  }

  /** Some listed id is that very number. */
  ghost predicate ListsId(ids: seq<Json>, guess: Guess) {
    exists i, n :: 0 <= i < |ids| && ids[i] == Num(n) && guess == Number(n)
  }

  lemma AnswersAreListed(r: Round, step: Step, c: Choice)
    ensures Answers(r, step, c) <==> Solves(r, step, c)
  {
    if step != Middle && c.Person? {
      var ids := AnswersFor(r, step);
      if Answers(r, step, c) {
        var i :| 0 <= i < |ids| && ids[i] == Num(c.guess.n);
        assert ListsId(ids, c.guess);
      }
    }
  }

  /** A list of the round's JSON has a member with that number for its id. */
  ghost predicate HasId(list: Json, guess: Guess) {
    list.Arr? && exists i, n :: 0 <= i < |list.items| && Member(list.items[i], "id") == Num(n) && guess == Number(n)
  }

  lemma ListedOnJson(list: Json, guess: Guess)
    ensures ListsId(Ids(ListOf(list)), guess) <==> HasId(list, guess)
  {
    if list.Arr? {
      forall i | 0 <= i < |list.items| ensures Ids(list.items)[i] == Member(list.items[i], "id") { }
      if ListsId(Ids(ListOf(list)), guess) {
        var i, n :| 0 <= i < |list.items| && Ids(list.items)[i] == Num(n) && guess == Number(n);
        assert Member(list.items[i], "id") == Num(n);
      }
      if HasId(list, guess) {
        var i, n :| 0 <= i < |list.items| && Member(list.items[i], "id") == Num(n) && guess == Number(n);
        assert Ids(list.items)[i] == Num(n);
      }
    }
  }

  lemma BridgeOnJson(j: Json, side: nat, guess: Guess)
    requires side < |ListOf(Member(j, "bridge_answer_sets"))|
    ensures side < |FromJson(j).bridges|
    ensures ListsId(FromJson(j).bridges[side], guess) <==> HasId(ListOf(Member(j, "bridge_answer_sets"))[side], guess)
  {
    BridgesAre(j);
    ListedOnJson(ListOf(Member(j, "bridge_answer_sets"))[side], guess);
  }

  lemma BridgesAre(j: Json)
    ensures var lists := ListOf(Member(j, "bridge_answer_sets"));
      && |FromJson(j).bridges| == |lists|
      && forall i :: 0 <= i < |lists| ==> FromJson(j).bridges[i] == Ids(ListOf(lists[i]))
  {
  }

  /** What answers the steps of a one-hop round, and the bridges of a two-hop round, on their JSON. */
  lemma SolvesOnJson(j: Json, c: Choice)
    requires c.Person?
    ensures Solves(FromJson(j), Single, c) <==> HasId(Member(j, "answer_set"), c.guess)
    ensures var lists := ListOf(Member(j, "bridge_answer_sets"));
      && (Solves(FromJson(j), BridgeA, c) <==> |lists| >= 2 && HasId(lists[0], c.guess))
      && (Solves(FromJson(j), BridgeB, c) <==> |lists| >= 2 && HasId(lists[1], c.guess))
  {
    ListedOnJson(Member(j, "answer_set"), c.guess);
    BridgesAre(j);
    if |ListOf(Member(j, "bridge_answer_sets"))| >= 2 {
      BridgeOnJson(j, 0, c.guess);
      BridgeOnJson(j, 1, c.guess);
    }
  }

  /** And the hidden record. */
  lemma MiddleOnJson(j: Json, c: Choice)
    ensures Solves(FromJson(j), Middle, c) <==>
      c.Album? && Member(j, "middle").Obj? && Member(Member(Member(j, "middle"), "album"), "id") == Str(c.album)
  {
  }

  // ---------- The history of a run ----------

  datatype Miss = Miss(step: Step, choice: Choice)

  /** A guess that counts: the player is asked, it is of the step's kind, and it has not missed before. */
  ghost predicate Counts(s: State, misses: seq<Miss>, a: Action) {
    && s.phase == Guessing && a.Choose? && (a.choice.Album? <==> s.step == Middle)
    && forall m :: m in misses ==> m.choice != a.choice
  }

  ghost predicate IsMiss(r: Round, s: State, misses: seq<Miss>, a: Action) {
    Counts(s, misses, a) && !Solves(r, s.step, a.choice)
  }

  ghost predicate IsHit(r: Round, s: State, misses: seq<Miss>, a: Action) {
    Counts(s, misses, a) && Solves(r, s.step, a.choice)
  }

  /** The wrong guesses of a run, in order. */
  ghost function Misses(r: Round, actions: seq<Action>): seq<Miss> {
    if actions == [] then []
    else
      var before, a := actions[..|actions| - 1], actions[|actions| - 1];
      var s := Play(r, before);
      Misses(r, before) + if IsMiss(r, s, Misses(r, before), a) then [Miss(s.step, a.choice)] else []
  }

  /** The steps answered, in order. */
  ghost function Hits(r: Round, actions: seq<Action>): seq<Step> {
    if actions == [] then []
    else
      var before, a := actions[..|actions| - 1], actions[|actions| - 1];
      var s := Play(r, before);
      Hits(r, before) + if IsHit(r, s, Misses(r, before), a) then [s.step] else []
  }

  /** How often a hint was asked for while guessing. */
  function Hints(r: Round, actions: seq<Action>): nat {
    if actions == [] then 0
    else
      var before := actions[..|actions| - 1];
      Hints(r, before) + if actions[|actions| - 1] == UseClue && Play(r, before).phase == Guessing then 1 else 0
  }

  /** The player gave up on a round that had been dealt and was not over. */
  ghost predicate GivenUp(r: Round, actions: seq<Action>) {
    exists i :: 0 <= i < |actions| && actions[i] == Reveal && Play(r, actions[..i]).phase in {Dealing, Guessing}
  }

  function MissesAt(misses: seq<Miss>, step: Step): nat {
    if misses == [] then 0
    else MissesAt(misses[..|misses| - 1], step) + if misses[|misses| - 1].step == step then 1 else 0
  }

  function Persons(misses: seq<Miss>): seq<Guess> {
    if misses == [] then []
    else
      var last := misses[|misses| - 1].choice;
      Persons(misses[..|misses| - 1]) + if last.Person? then [last.guess] else []
  }

  function Albums(misses: seq<Miss>): seq<string> {
    if misses == [] then []
    else
      var last := misses[|misses| - 1].choice;
      Albums(misses[..|misses| - 1]) + if last.Album? then [last.album] else []
  }

  // ---------- The state it leaves ----------

  /** What guessing has come to. */
  ghost predicate Guesses(r: Round, s: State, misses: seq<Miss>, hits: seq<Step>) {
    && s.solvedSteps == hits && |hits| <= |Plan(r)| && hits == Plan(r)[..|hits|]
    && s.struck == Persons(misses) && s.struckAlbums == Albums(misses) && s.wrongAttempts == |misses|
    && (s.solved <==> |hits| == |Plan(r)|)
  }

  /** Where a round that is not over stands: at the first step not yet answered, with two attempts less
      its misses. */
  ghost predicate Stands(r: Round, s: State, misses: seq<Miss>, hits: seq<Step>) {
    s.phase != Revealed ==>
      && |hits| < |Plan(r)| && s.step == Plan(r)[|hits|]
      && s.attemptsLeft == 2 - MissesAt(misses, s.step) && s.attemptsLeft > 0
  }

  /** No step still to come has been missed. */
  ghost predicate NoneAhead(r: Round, misses: seq<Miss>, hits: seq<Step>) {
    forall i :: |hits| < i < |Plan(r)| ==> MissesAt(misses, Plan(r)[i]) == 0
  }

  /** Some step was missed twice, as often as it may be. */
  ghost predicate RunOut(misses: seq<Miss>) {
    exists step :: MissesAt(misses, step) >= 2
  }

  /** How a round ends, and what it is then worth. */
  ghost predicate Ends(r: Round, s: State, misses: seq<Miss>, hits: seq<Step>, hints: nat, givenUp: bool) {
    && (s.phase == Revealed <==> |hits| == |Plan(r)| || RunOut(misses) || givenUp)
    && (s.failed <==> s.phase == Revealed && |hits| < |Plan(r)|)
    && (s.rating.Some? <==> s.phase == Revealed)
    && (s.rating == Some(Clean) <==> |hits| == |Plan(r)| && misses == [] && s.cluesUsed == 0)
    && (s.rating == Some(WithClues) <==> |hits| == |Plan(r)| && !(misses == [] && s.cluesUsed == 0))
    && s.cluesUsed == Min(|r.clues|, hints)
  }

  // ---------- Step by step ----------

  lemma {:induction false} PersonsAre(misses: seq<Miss>, guess: Guess)
    ensures guess in Persons(misses) <==> exists m :: m in misses && m.choice == Person(guess)
  {
    if misses != [] {
      var init, last := misses[..|misses| - 1], misses[|misses| - 1];
      PersonsAre(init, guess);
      assert misses == init + [last];
    }
  }

  lemma {:induction false} AlbumsAre(misses: seq<Miss>, album: string)
    ensures album in Albums(misses) <==> exists m :: m in misses && m.choice == Album(album)
  {
    if misses != [] {
      var init, last := misses[..|misses| - 1], misses[|misses| - 1];
      AlbumsAre(init, album);
      assert misses == init + [last];
    }
  }

  /** The engine accepts just the guesses that count. */
  lemma AcceptedCounts(s: State, misses: seq<Miss>, a: Action)
    requires s.struck == Persons(misses) && s.struckAlbums == Albums(misses)
    ensures Counts(s, misses, a) <==> s.phase == Guessing && a.Choose? && Accepted(s, a.choice)
  {
    if a.Choose? {
      match a.choice
      case Person(guess) => PersonsAre(misses, guess);
      case Album(album) => AlbumsAre(misses, album);
    }
  }

  lemma OneMoreMiss(misses: seq<Miss>, m: Miss)
    ensures Persons(misses + [m]) == Persons(misses) + if m.choice.Person? then [m.choice.guess] else []
    ensures Albums(misses + [m]) == Albums(misses) + if m.choice.Album? then [m.choice.album] else []
    ensures forall step :: MissesAt(misses + [m], step) == MissesAt(misses, step) + if m.step == step then 1 else 0
  {
    assert (misses + [m])[..|misses|] == misses;
  }

  /** All that is told of one state. */
  ghost predicate Told(r: Round, s: State, m: seq<Miss>, h: seq<Step>, hints: nat, givenUp: bool) {
    Guesses(r, s, m, h) && Stands(r, s, m, h) && NoneAhead(r, m, h) && Ends(r, s, m, h, hints, givenUp)
    && (givenUp ==> s.phase == Revealed)
  }

  lemma HitTold(r: Round, s: State, m: seq<Miss>, h: seq<Step>, hints: nat, a: Action)
    requires Told(r, s, m, h, hints, false) && IsHit(r, s, m, a)
    ensures Told(r, Next(r, s, a), m, h + [s.step], hints, false)
  {
    AcceptedCounts(s, m, a);
    AnswersAreListed(r, s.step, a.choice);
    var k := |h|;
    assert Plan(r)[..k + 1] == Plan(r)[..k] + [Plan(r)[k]];
    assert !RunOut(m);
  }

  lemma MissTold(r: Round, s: State, m: seq<Miss>, h: seq<Step>, hints: nat, a: Action)
    requires Told(r, s, m, h, hints, false) && IsMiss(r, s, m, a)
    ensures Told(r, Next(r, s, a), m + [Miss(s.step, a.choice)], h, hints, false)
  {
    AcceptedCounts(s, m, a);
    AnswersAreListed(r, s.step, a.choice);
    OneMoreMiss(m, Miss(s.step, a.choice));
    var more := m + [Miss(s.step, a.choice)];
    assert !RunOut(m);
    assert RunOut(more) <==> MissesAt(more, s.step) >= 2 by {
      if step :| MissesAt(more, step) >= 2 { assert step != s.step ==> MissesAt(m, step) >= 2; }
    }
  }

  lemma OtherTold(r: Round, s: State, m: seq<Miss>, h: seq<Step>, hints: nat, givenUp: bool, a: Action)
    requires Told(r, s, m, h, hints, givenUp) && !IsHit(r, s, m, a) && !IsMiss(r, s, m, a)
    ensures Told(r, Next(r, s, a), m, h, hints + if a == UseClue && s.phase == Guessing then 1 else 0,
                 givenUp || (a == Reveal && s.phase in {Dealing, Guessing}))
  {
    AcceptedCounts(s, m, a);
  }

  lemma GivenUpSoFar(r: Round, actions: seq<Action>)
    requires actions != []
    ensures var n := |actions| - 1;
      GivenUp(r, actions) <==> GivenUp(r, actions[..n]) || (actions[n] == Reveal && Play(r, actions[..n]).phase in {Dealing, Guessing})
  {
    var n := |actions| - 1;
    var before := actions[..n];
    forall i | 0 <= i < n ensures before[..i] == actions[..i] { }
    if GivenUp(r, before) {
      var i :| 0 <= i < |before| && before[i] == Reveal && Play(r, before[..i]).phase in {Dealing, Guessing};
      assert actions[i] == Reveal && Play(r, actions[..i]).phase in {Dealing, Guessing};
    }
    if GivenUp(r, actions) {
      var i :| 0 <= i < |actions| && actions[i] == Reveal && Play(r, actions[..i]).phase in {Dealing, Guessing};
      if i < n { assert before[i] == Reveal && Play(r, before[..i]).phase in {Dealing, Guessing}; }
    }
  }

  /** One action more. */
  lemma StepTold(r: Round, s: State, m: seq<Miss>, h: seq<Step>, hints: nat, givenUp: bool, a: Action)
    requires Told(r, s, m, h, hints, givenUp)
    ensures Told(r, Next(r, s, a),
                 m + (if IsMiss(r, s, m, a) then [Miss(s.step, a.choice)] else []),
                 h + (if IsHit(r, s, m, a) then [s.step] else []),
                 hints + (if a == UseClue && s.phase == Guessing then 1 else 0),
                 givenUp || (a == Reveal && s.phase in {Dealing, Guessing}))
  {
    assert m + [] == m && h + [] == h;
    if IsHit(r, s, m, a) {
      HitTold(r, s, m, h, hints, a);
    } else if IsMiss(r, s, m, a) {
      MissTold(r, s, m, h, hints, a);
    } else {
      OtherTold(r, s, m, h, hints, givenUp, a);
    }
  }

  lemma NothingTold(r: Round)
    ensures Told(r, Initial(r), [], [], 0, false)
  {
  }

  /** In every run of every round the state is what the history says: which steps are answered, what is
      struck and how many attempts are left, whether it is over and why, and what it is worth. */
  lemma {:induction false} HistoryTells(r: Round, actions: seq<Action>)
    ensures Told(r, Play(r, actions), Misses(r, actions), Hits(r, actions), Hints(r, actions), GivenUp(r, actions))
  {
    if actions == [] {
      NothingTold(r);
    } else {
      var before, a := actions[..|actions| - 1], actions[|actions| - 1];
      HistoryTells(r, before);
      GivenUpSoFar(r, actions);
      StepTold(r, Play(r, before), Misses(r, before), Hits(r, before), Hints(r, before), GivenUp(r, before), a);
    }
  }

  /** Nothing happens until the round is dealt, and nobody guesses until it is presented. */
  lemma {:induction false} StartsInOrder(r: Round, actions: seq<Action>)
    ensures Play(r, actions).phase == Idle <==> Deal !in actions
    ensures Play(r, actions).phase == Guessing ==> Present in actions
  {
    if actions != [] {
      var before, a := actions[..|actions| - 1], actions[|actions| - 1];
      StartsInOrder(r, before);
      assert actions == before + [a];
    }
  }
}
