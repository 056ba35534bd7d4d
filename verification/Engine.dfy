/** The round engine, and what makes every step of a validated round winnable. */
module Engine {
  import opened Text
  import opened Json
  import opened PythonValues
  import opened RoundChecks

  datatype Kind = OneHop | TwoHop
  datatype Phase = Idle | Dealing | Guessing | Revealed
  datatype Step = Single | BridgeA | BridgeB | Middle
  datatype Rating = Clean | WithClues | GaveUp

  /** What `Number(value)` makes of the text on a chip. */
  datatype Guess = Number(n: int) | NaN

  datatype Choice = Person(guess: Guess) | Album(album: string)
  datatype Action = Deal | Present | Choose(choice: Choice) | UseClue | Reveal

  /** A clue's ids to strike from the tray; empty unless it is an eliminate clue that lists some. */
  datatype Clue = Clue(eliminates: seq<Json>)

  datatype MiddleRecord = MiddleRecord(album: Json, choices: seq<Json>)

  /** The members of a round the engine and the tray read: ids, as the JSON has them. */
  datatype Round = Round(
    kind: Kind,
    answers: seq<Json>,
    bridges: seq<seq<Json>>,
    middle: Option<MiddleRecord>,
    distractors: seq<Json>,
    clues: seq<Clue>)

  const ATTEMPTS_PER_STEP := 2

  // ---------- Reading a round ----------

  /** The ids of a list's members. */
  function Ids(list: seq<Json>): (r: seq<Json>)
    ensures |r| == |list| && forall i :: 0 <= i < |list| ==> r[i] == Member(list[i], "id")
  {
    seq(|list|, i requires 0 <= i < |list| => Member(list[i], "id"))
  }

  function ClueOf(clue: Json): Clue {
    Clue(if Eliminates(clue) then ListOf(Member(clue, "eliminate_ids")) else [])
  }

  function MiddleOf(middle: Json): Option<MiddleRecord> {
    if middle.Obj?
    then Some(MiddleRecord(Member(Member(middle, "album"), "id"), Ids(ListOf(Member(middle, "choices")))))
    else None
  }

  function BridgesOf(lists: seq<Json>): seq<seq<Json>> {
    seq(|lists|, i requires 0 <= i < |lists| => Ids(ListOf(lists[i])))
  }

  function FromJson(j: Json): Round {
    var clues := ListOf(Member(j, "clues"));
    Round(
      if Member(j, "kind") == Str("one_hop") then OneHop else TwoHop,
      Ids(ListOf(Member(j, "answer_set"))),
      BridgesOf(ListOf(Member(j, "bridge_answer_sets"))),
      MiddleOf(Member(j, "middle")),
      Ids(ListOf(Member(j, "distractors"))),
      seq(|clues|, i requires 0 <= i < |clues| => ClueOf(clues[i])))
  }

  /** A list whose members' ids can be read; reading the id of null throws. */
  predicate ReadableList(v: Json) {
    v.Arr? && forall i :: 0 <= i < |v.items| ==> !v.items[i].Null?
  }

  /** A clue that names no ids to eliminate, or lists them. */
  predicate ReadableClue(clue: Json) {
    !clue.Null? && (Member(clue, "eliminate_ids").Arr? || !Truthy(Member(clue, "eliminate_ids")))
  }

  predicate ReadableSteps(j: Json) {
    var bridges, middle := Member(j, "bridge_answer_sets"), Member(j, "middle");
    if Member(j, "kind") == Str("one_hop") then ReadableList(Member(j, "answer_set"))
    else
      && bridges.Arr? && |bridges.items| == 2 && ReadableList(bridges.items[0]) && ReadableList(bridges.items[1])
      && (middle.Obj? ==> Member(middle, "album") != Null && ReadableList(Member(middle, "choices")))
  }

  /** The engine and the tray read the round's ids without throwing. */
  predicate Readable(j: Json) {
    var clues := ListOf(Member(j, "clues"));
    && ReadableSteps(j) && ReadableList(Member(j, "distractors"))
    && Member(j, "clues").Arr? && forall i :: 0 <= i < |clues| ==> ReadableClue(clues[i])
  }

  // ---------- What a validated round's ids are worth ----------

  /** A member of a list with a number for its id is an object of the list. */
  lemma NumberIsListed(v: Json, n: int)
    requires Num(n) in Ids(ListOf(v))
    ensures v.Arr? && v.items != [] && Num(n) in IdsUnder(Elements(v), "id")
  {
    var i :| 0 <= i < |Ids(ListOf(v))| && Ids(ListOf(v))[i] == Num(n);
    assert v.items[i].Obj?;
  }

  lemma PresentList(j: Json, key: string)
    requires Member(j, key).Arr? && Member(j, key).items != []
    ensures ListUnder(j, key) == Member(j, key) && Or(Member(j, key), Arr([])) == Member(j, key)
  {
  }

  /** A number that answers a step is one of the validator's valid ids. */
  lemma AnswerIsValid(j: Json, step: Step, n: int)
    requires step != Middle && Num(n) in AnswersFor(FromJson(j), step)
    ensures Num(n) in ValidIds(j)
  {
    if step == Single {
      NumberIsListed(Member(j, "answer_set"), n);
      PresentList(j, "answer_set");
    } else {
      var lists := ListOf(Member(j, "bridge_answer_sets"));
      var k := if step == BridgeA then 0 else 1;
      NumberIsListed(lists[k], n);
      PresentList(j, "bridge_answer_sets");
      assert Elements(Bridges(j)) == lists;
    }
  }

  lemma FairListLacks(list: seq<Json>, valid: seq<Json>, contributors: seq<Json>, n: int)
    requires (forall i :: 0 <= i < |list| ==> FairDistractor(list[i], valid, contributors)) && Num(n) in valid
    ensures Num(n) !in Ids(list)
  {
    MemberIsWithin(Num(n), valid);
    forall i | 0 <= i < |list| ensures Ids(list)[i] != Num(n) {
      assert FairDistractor(list[i], valid, contributors);
    }
  }

  lemma FairUnder(j: Json, valid: seq<Json>, contributors: seq<Json>)
    requires FairDistractors(j, contributors) && valid == ValidIds(j)
    ensures var list := ListOf(Member(j, "distractors"));
      forall i :: 0 <= i < |list| ==> FairDistractor(list[i], valid, contributors)
  {
    var list := ListOf(Member(j, "distractors"));
    if list != [] {
      PresentList(j, "distractors");
      var all := Elements(ListUnder(j, "distractors"));
      assert all == list;
      forall i | 0 <= i < |list| ensures FairDistractor(list[i], valid, contributors) {
        assert FairDistractor(all[i], ValidIds(j), contributors);
      }
    }
  }

  /** A valid answer is no distractor. */
  lemma ValidIsNoDistractor(j: Json, contributors: seq<Json>, albums: seq<Json>, n: int)
    requires FairDistractors(j, contributors) && Num(n) in ValidIds(j)
    ensures Num(n) !in FromJson(j).distractors
  {
    FairUnder(j, ValidIds(j), contributors);
    FairListLacks(ListOf(Member(j, "distractors")), ValidIds(j), contributors, n);
  }

  /** And no clue eliminates it. */
  lemma ValidIsNotEliminated(j: Json, n: int)
    requires FairClues(j) && Num(n) in ValidIds(j)
    ensures forall i :: 0 <= i < |FromJson(j).clues| ==> Num(n) !in FromJson(j).clues[i].eliminates
  {
    var clues := ListOf(Member(j, "clues"));
    forall i | 0 <= i < |clues| ensures Num(n) !in ClueOf(clues[i]).eliminates {
      PresentList(j, "clues");
      assert FairClue(Elements(Member(j, "clues"))[i], ValidIds(j));
      if Num(n) in ClueOf(clues[i]).eliminates {
        PresentList(clues[i], "eliminate_ids");
        var k :| 0 <= k < |ClueOf(clues[i]).eliminates| && ClueOf(clues[i]).eliminates[k] == Num(n);
        assert Elements(Eliminated(clues[i]))[k] == Num(n);
        MemberIsWithin(Num(n), ValidIds(j));
      }
    }
  }

  // ---------- The engine's state, and what each action makes of it ----------

  datatype State = State(
    phase: Phase,
    step: Step,
    attemptsLeft: int,
    cluesUsed: nat,
    struck: seq<Guess>,
    struckAlbums: seq<string>,
    solvedSteps: seq<Step>,
    solved: bool,
    failed: bool,
    rating: Option<Rating>,
    wrongAttempts: nat)

  /** The steps of a round, in the order they are asked. */
  function Plan(r: Round): seq<Step> {
    if r.kind == OneHop then [Single] else [BridgeA, BridgeB, Middle]
  }

  function Initial(r: Round): State {
    State(Idle, Plan(r)[0], ATTEMPTS_PER_STEP, 0, [], [], [], false, false, None, 0)
  }

  /** The ids that answer a step. */
  function AnswersFor(r: Round, step: Step): seq<Json> {
    if step == Single then r.answers
    else if |r.bridges| < 2 then []
    else if step == BridgeA then r.bridges[0] else r.bridges[1]
  }

  /** `new Set(ids).has(guess)`: a number is found among numbers only. */
  predicate IsAnswer(ids: seq<Json>, guess: Guess) {
    guess.Number? && Num(guess.n) in ids
  }

  predicate Answers(r: Round, step: Step, c: Choice) {
    if step == Middle then c.Album? && r.middle.Some? && r.middle.value.album == Str(c.album)
    else c.Person? && IsAnswer(AnswersFor(r, step), c.guess)
  }

  /** Not struck yet. */
  predicate Fresh(s: State, c: Choice) {
    match c case Person(guess) => guess !in s.struck case Album(album) => album !in s.struckAlbums
  }

  /** A choice of the wrong kind, or one already struck, is ignored. */
  predicate Accepted(s: State, c: Choice) {
    (c.Album? <==> s.step == Middle) && Fresh(s, c)
  }

  function Rate(solved: bool, cluesUsed: nat, wrongAttempts: nat): Rating {
    if !solved then GaveUp else if cluesUsed == 0 && wrongAttempts == 0 then Clean else WithClues
  }

  function Resolve(s: State, solved: bool): State {
    s.(phase := Revealed, solved := solved, failed := !solved,
       rating := Some(Rate(solved, s.cluesUsed, s.wrongAttempts)))
  }

  function AdvanceStep(r: Round, s: State): State {
    var t := s.(solvedSteps := s.solvedSteps + [s.step]);
    if r.kind == OneHop || s.step == Middle || s.step == Single then Resolve(t, true)
    else t.(step := if s.step == BridgeA then BridgeB else Middle, attemptsLeft := ATTEMPTS_PER_STEP)
  }

  function Strike(s: State, c: Choice): State {
    var t := s.(wrongAttempts := s.wrongAttempts + 1, attemptsLeft := s.attemptsLeft - 1);
    var u := match c case Person(guess) => t.(struck := s.struck + [guess]) case Album(album) => t.(struckAlbums := s.struckAlbums + [album]);
    if u.attemptsLeft <= 0 then Resolve(u, false) else u
  }

  function Next(r: Round, s: State, a: Action): State {
    match a
    case Deal => if s.phase == Idle then s.(phase := Dealing) else s
    case Present => if s.phase == Dealing then s.(phase := Guessing) else s
    case Choose(c) =>
      if s.phase != Guessing || !Accepted(s, c) then s
      else if Answers(r, s.step, c) then AdvanceStep(r, s) else Strike(s, c)
    case UseClue =>
      if s.phase == Guessing && s.cluesUsed < |r.clues| then s.(cluesUsed := s.cluesUsed + 1) else s
    case Reveal => if s.phase == Guessing || s.phase == Dealing then Resolve(s, false) else s
  }

  function Play(r: Round, actions: seq<Action>): State {
    if actions == [] then Initial(r) else Next(r, Play(r, actions[..|actions| - 1]), actions[|actions| - 1])
  }

  // ---------- The engine object ----------

  class RoundEngine {
    const round: Round
    var phase: Phase
    var step: Step
    var attemptsLeft: int
    var cluesUsed: nat
    var struck: seq<Guess>
    var struckAlbums: seq<string>
    var solvedSteps: seq<Step>
    var solved: bool
    var failed: bool
    var rating: Option<Rating>
    var wrongAttempts: nat

    /** The snapshot `state()` hands out, with the hidden count of wrong attempts. */
    function View(): State
      reads this
    {
      State(phase, step, attemptsLeft, cluesUsed, struck, struckAlbums, solvedSteps, solved, failed, rating, wrongAttempts)
    }

    constructor (r: Round)
      ensures round == r && View() == Initial(r)
    {
      round := r;
      phase, step, attemptsLeft, cluesUsed := Idle, Plan(r)[0], ATTEMPTS_PER_STEP, 0;
      struck, struckAlbums, solvedSteps := [], [], [];
      solved, failed, rating, wrongAttempts := false, false, None, 0;
    }

    method ResolveAs(won: bool)
      modifies this
      ensures View() == Resolve(old(View()), won)
    {
      solved, failed := won, !won;
      rating := Some(Rate(won, cluesUsed, wrongAttempts));
      phase := Revealed;
    }

    method Advance()
      modifies this
      ensures View() == AdvanceStep(round, old(View()))
    {
      solvedSteps := solvedSteps + [step];
      if round.kind == OneHop {
        ResolveAs(true);
        return;
      }
      if step == BridgeA {
        step := BridgeB;
      } else if step == BridgeB {
        step := Middle;
      } else {
        ResolveAs(true);
        return;
      }
      attemptsLeft := ATTEMPTS_PER_STEP;
    }

    method DealRound()
      modifies this
      ensures View() == Next(round, old(View()), Deal)
    {
      if phase != Idle { return; }
      phase := Dealing;
    }

    method PresentRound()
      modifies this
      ensures View() == Next(round, old(View()), Present)
    {
      if phase != Dealing { return; }
      phase := Guessing;
    }

    method Answer(choice: Choice)
      modifies this
      ensures View() == Next(round, old(View()), Choose(choice))
    {
      if phase != Guessing { return; }
      if step == Middle {
        if !choice.Album? { return; }
        if choice.album in struckAlbums { return; }
        if round.middle.Some? && round.middle.value.album == Str(choice.album) {
          Advance();
          return;
        }
        struckAlbums := struckAlbums + [choice.album];
      } else {
        if !choice.Person? { return; }
        if choice.guess in struck { return; }
        if IsAnswer(AnswersFor(round, step), choice.guess) {
          Advance();
          return;
        }
        struck := struck + [choice.guess];
      }
      wrongAttempts := wrongAttempts + 1;
      attemptsLeft := attemptsLeft - 1;
      if attemptsLeft <= 0 { ResolveAs(false); }
    }

    method TakeClue() returns (rung: int)
      modifies this
      ensures View() == Next(round, old(View()), UseClue)
      ensures rung == if View() == old(View()) then -1 else old(cluesUsed)
    {
      if phase != Guessing { return -1; }
      if cluesUsed >= |round.clues| { return -1; }
      rung := cluesUsed;
      cluesUsed := cluesUsed + 1;
    }

    method GiveUp()
      modifies this
      ensures View() == Next(round, old(View()), Reveal)
    {
      if phase != Guessing && phase != Dealing { return; }
      ResolveAs(false);
    }
  }

  // ---------- What every run keeps ----------

  /** Solved steps are a prefix of the plan, wrong attempts are the struck entries, and a round is
      solved exactly when its whole plan is. */
  ghost predicate Consistent(r: Round, s: State) {
    var k := |s.solvedSteps|;
    k <= |Plan(r)| && s.solvedSteps == Plan(r)[..k]
    && s.wrongAttempts == |s.struck| + |s.struckAlbums|
    && s.cluesUsed <= |r.clues|
    && (s.solved <==> k == |Plan(r)|)
    && (s.phase == Revealed <==> s.rating.Some?)
    && (s.phase == Revealed ==> s.failed == !s.solved && s.rating == Some(Rate(s.solved, s.cluesUsed, s.wrongAttempts)))
    && (s.phase != Revealed ==> !s.failed && k < |Plan(r)| && s.step == Plan(r)[k] && 1 <= s.attemptsLeft <= ATTEMPTS_PER_STEP)
    && (s.phase in {Idle, Dealing} ==> k == 0 && s.wrongAttempts == 0 && s.cluesUsed == 0)
    && 0 <= s.attemptsLeft
    && s.wrongAttempts + s.attemptsLeft <= ATTEMPTS_PER_STEP * (if k < |Plan(r)| then k + 1 else k)
  }

  lemma AdvanceConsistent(r: Round, s: State)
    requires Consistent(r, s) && s.phase == Guessing
    ensures Consistent(r, AdvanceStep(r, s))
  {
    var k := |s.solvedSteps|;
    assert Plan(r)[..k + 1] == Plan(r)[..k] + [Plan(r)[k]];
  }

  lemma NextConsistent(r: Round, s: State, a: Action)
    requires Consistent(r, s)
    ensures Consistent(r, Next(r, s, a))
  {
    if a.Choose? && s.phase == Guessing && Accepted(s, a.choice) && Answers(r, s.step, a.choice) {
      AdvanceConsistent(r, s);
    }
  }

  lemma {:induction false} EveryRunConsistent(r: Round, actions: seq<Action>)
    ensures Consistent(r, Play(r, actions))
  {
    if actions != [] {
      EveryRunConsistent(r, actions[..|actions| - 1]);
      NextConsistent(r, Play(r, actions[..|actions| - 1]), actions[|actions| - 1]);
    }
  }

  // ---------- Exactly when a round can still be won ----------

  /** Some answer of the step is not struck. */
  ghost predicate Open(r: Round, s: State, step: Step) {
    exists c :: Answers(r, step, c) && Fresh(s, c)
  }

  /** A guessing state no choice advances from. */
  ghost predicate Locked(r: Round, s: State) {
    s.phase == Guessing && forall c :: Next(r, s, Choose(c)).solvedSteps == s.solvedSteps
  }

  lemma AdvanceSolves(r: Round, s: State, c: Choice)
    requires s.phase == Guessing
    ensures Next(r, s, Choose(c)).solvedSteps
         == if Accepted(s, c) && Answers(r, s.step, c) then s.solvedSteps + [s.step] else s.solvedSteps
  {
  }

  /** In every guessing state: no choice advances exactly when every answer of the step is struck. */
  lemma LockedIffAllStruck(r: Round, s: State)
    requires s.phase == Guessing
    ensures Locked(r, s) <==> forall c :: Answers(r, s.step, c) ==> !Fresh(s, c)
  {
    forall c ensures Next(r, s, Choose(c)).solvedSteps == s.solvedSteps <==> !(Answers(r, s.step, c) && Fresh(s, c)) {
      AdvanceSolves(r, s, c);
      assert |s.solvedSteps + [s.step]| != |s.solvedSteps|;
    }
  }

  /** Every step still to come has an answer that is not struck. */
  ghost predicate AllOpen(r: Round, s: State) {
    forall i :: |s.solvedSteps| <= i < |Plan(r)| ==> Open(r, s, Plan(r)[i])
  }

  function PlayOn(r: Round, s: State, actions: seq<Action>): State
    decreases |actions|
  {
    if actions == [] then s else PlayOn(r, Next(r, s, actions[0]), actions[1..])
  }

  /** Some way of playing on solves the round. */
  ghost predicate CanBeWon(r: Round, s: State) {
    exists actions :: PlayOn(r, s, actions).solved
  }

  /** A step whose answers are all struck stays unsolved. */
  lemma ShutStaysShut(r: Round, s: State, a: Action, i: nat)
    requires Consistent(r, s) && |s.solvedSteps| <= i < |Plan(r)| && !Open(r, s, Plan(r)[i])
    ensures |Next(r, s, a).solvedSteps| <= i && !Open(r, Next(r, s, a), Plan(r)[i])
  {
    var t := Next(r, s, a);
    forall c | Answers(r, Plan(r)[i], c) ensures !Fresh(t, c) {
      assert !Fresh(s, c);
    }
    if a.Choose? && s.phase == Guessing && |s.solvedSteps| == i { AdvanceSolves(r, s, a.choice); }
  }

  lemma {:induction false} ShutIsLost(r: Round, s: State, actions: seq<Action>, i: nat)
    requires Consistent(r, s) && |s.solvedSteps| <= i < |Plan(r)| && !Open(r, s, Plan(r)[i])
    ensures !PlayOn(r, s, actions).solved
    decreases |actions|
  {
    if actions != [] {
      ShutStaysShut(r, s, actions[0], i);
      NextConsistent(r, s, actions[0]);
      ShutIsLost(r, Next(r, s, actions[0]), actions[1..], i);
    }
  }

  /** Answering the step in hand leaves the others as open as they were. */
  lemma AnswerAdvances(r: Round, s: State, c: Choice)
    requires Consistent(r, s) && s.phase == Guessing && AllOpen(r, s)
    requires Answers(r, s.step, c) && Fresh(s, c)
    ensures var t := Next(r, s, Choose(c));
      Consistent(r, t) && AllOpen(r, t) && |t.solvedSteps| == |s.solvedSteps| + 1
      && (t.solved || t.phase == Guessing)
  {
    var t := Next(r, s, Choose(c));
    NextConsistent(r, s, Choose(c));
    AdvanceSolves(r, s, c);
    forall i | |t.solvedSteps| <= i < |Plan(r)| ensures Open(r, t, Plan(r)[i]) {
      var d :| Answers(r, Plan(r)[i], d) && Fresh(s, d);
      assert Fresh(t, d);
    }
  }

  lemma {:induction false} OpenCanBeWon(r: Round, s: State) returns (actions: seq<Action>)
    requires Consistent(r, s) && s.phase == Guessing && AllOpen(r, s)
    ensures PlayOn(r, s, actions).solved
    decreases |Plan(r)| - |s.solvedSteps|
  {
    assert Open(r, s, Plan(r)[|s.solvedSteps|]);
    var c :| Answers(r, s.step, c) && Fresh(s, c);
    AnswerAdvances(r, s, c);
    var t := Next(r, s, Choose(c));
    if t.solved {
      actions := [Choose(c)];
      assert actions[1..] == [];
      assert PlayOn(r, t, []) == t;
    } else {
      var rest := OpenCanBeWon(r, t);
      actions := [Choose(c)] + rest;
      assert actions[1..] == rest;
    }
  }

  /** In every guessing state of every run, on any round and however it was played: the round can
      still be won exactly when each remaining step has an answer that is not struck. */
  lemma CanBeWonIffOpen(r: Round, actions: seq<Action>)
    requires Play(r, actions).phase == Guessing
    ensures CanBeWon(r, Play(r, actions)) <==> AllOpen(r, Play(r, actions))
  {
    var s := Play(r, actions);
    EveryRunConsistent(r, actions);
    if AllOpen(r, s) {
      var more := OpenCanBeWon(r, s);
    }
    if CanBeWon(r, s) && !AllOpen(r, s) {
      var i :| |s.solvedSteps| <= i < |Plan(r)| && !Open(r, s, Plan(r)[i]);
      var more :| PlayOn(r, s, more).solved;
      ShutIsLost(r, s, more, i);
    }
  }

  /** `c` is the only answer of the step that is not struck. */
  ghost predicate LastAnswer(r: Round, s: State, step: Step, c: Choice) {
    Answers(r, step, c) && Fresh(s, c) && forall d :: Answers(r, step, d) && Fresh(s, d) ==> d == c
  }

  /** The guess is wrong for the step in hand and strikes the last answer of a later one. */
  ghost predicate StrikesLast(r: Round, s: State, c: Choice) {
    Accepted(s, c) && !Answers(r, s.step, c)
    && exists i :: |s.solvedSteps| <= i < |Plan(r)| && LastAnswer(r, s, Plan(r)[i], c)
  }

  lemma WrongGuess(r: Round, s: State, c: Choice)
    requires Consistent(r, s) && s.phase == Guessing && Accepted(s, c) && !Answers(r, s.step, c)
    ensures var t := Next(r, s, Choose(c));
      t.solvedSteps == s.solvedSteps && forall d :: Fresh(t, d) <==> Fresh(s, d) && d != c
  {
  }

  /** A round that can be won stays winnable, as long as attempts last, exactly while no guess strikes
      the last answer of a step still to come. */
  lemma GuessKeepsOpen(r: Round, s: State, c: Choice)
    requires Consistent(r, s) && s.phase == Guessing && AllOpen(r, s)
    ensures AllOpen(r, Next(r, s, Choose(c))) <==> !StrikesLast(r, s, c)
  {
    var t := Next(r, s, Choose(c));
    if !Accepted(s, c) {
    } else if Answers(r, s.step, c) {
      AnswerAdvances(r, s, c);
    } else {
      WrongGuess(r, s, c);
      forall i | |s.solvedSteps| <= i < |Plan(r)|
        ensures Open(r, t, Plan(r)[i]) <==> !LastAnswer(r, s, Plan(r)[i], c)
      {
        assert Open(r, s, Plan(r)[i]);
      }
    }
  }

  // ---------- On a validated round, played from the tray ----------

  /** How the page turns an id into a number, and into the text of a record chip. */
  datatype Browser = Browser(number: Json -> Guess, text: Json -> string)

  /** `Number(String(n))` is `n`, and `String(s)` is `s`. */
  ghost predicate Faithful(b: Browser) {
    (forall n :: b.number(Num(n)) == Number(n)) && (forall s :: b.text(Str(s)) == s)
  }

  predicate OnChip(b: Browser, ids: seq<Json>, guess: Guess) {
    exists i :: 0 <= i < |ids| && b.number(ids[i]) == guess
  }

  /** The tray of a step: its answers and the distractors, or the middle choices. */
  predicate InTray(b: Browser, r: Round, step: Step, c: Choice) {
    if step == Middle then
      c.Album? && r.middle.Some?
      && exists i :: 0 <= i < |r.middle.value.choices| && b.text(r.middle.value.choices[i]) == c.album
    else c.Person? && (OnChip(b, AnswersFor(r, step), c.guess) || OnChip(b, r.distractors, c.guess))
  }

  /** Chips an eliminate clue has struck, once it has been taken. */
  predicate ClueStruck(r: Round, s: State, c: Choice) {
    c.Person? && exists i :: 0 <= i < s.cluesUsed && i < |r.clues| && IsAnswer(r.clues[i].eliminates, c.guess)
  }

  /** The player only presses chips of the tray in front of them. */
  ghost predicate TrayOnly(b: Browser, r: Round, actions: seq<Action>) {
    forall i :: 0 <= i < |actions| && actions[i].Choose? ==> InTray(b, r, Play(r, actions[..i]).step, actions[i].choice)
  }

  predicate Numbers(ids: seq<Json>) {
    forall i :: 0 <= i < |ids| ==> ids[i].Num?
  }

  /** Contributors are identified by integers and the hidden record by a text. */
  predicate PlainIds(r: Round) {
    && Numbers(AnswersFor(r, Single)) && Numbers(AnswersFor(r, BridgeA)) && Numbers(AnswersFor(r, BridgeB))
    && Numbers(r.distractors) && (r.middle.Some? ==> r.middle.value.album.Str?)
  }

  /** What is struck is a distractor or a wrong record. */
  ghost predicate Fair(r: Round, s: State) {
    (forall x :: x in s.struck ==> IsAnswer(r.distractors, x))
    && (forall x :: x in s.struckAlbums ==> r.middle.Some? && r.middle.value.album != Str(x))
  }

  lemma OnChipIsNumber(b: Browser, ids: seq<Json>, guess: Guess)
    requires Faithful(b) && Numbers(ids) && OnChip(b, ids, guess)
    ensures IsAnswer(ids, guess)
  {
    var i :| 0 <= i < |ids| && b.number(ids[i]) == guess;
    assert ids[i] == Num(ids[i].n);
  }

  lemma NextFair(b: Browser, r: Round, s: State, a: Action)
    requires Faithful(b) && PlainIds(r) && Fair(r, s) && (a.Choose? ==> InTray(b, r, s.step, a.choice))
    ensures Fair(r, Next(r, s, a))
  {
    if a.Choose? && a.choice.Person? && s.step != Middle && !Answers(r, s.step, a.choice) {
      if OnChip(b, AnswersFor(r, s.step), a.choice.guess) { OnChipIsNumber(b, AnswersFor(r, s.step), a.choice.guess); }
      OnChipIsNumber(b, r.distractors, a.choice.guess);
    }
  }

  lemma {:induction false} RunFair(b: Browser, r: Round, actions: seq<Action>)
    requires Faithful(b) && PlainIds(r) && TrayOnly(b, r, actions)
    ensures Fair(r, Play(r, actions))
  {
    if actions != [] {
      var n := |actions| - 1;
      var before := actions[..n];
      forall i | 0 <= i < n && before[i].Choose? ensures InTray(b, r, Play(r, before[..i]).step, before[i].choice) {
        assert before[..i] == actions[..i];
      }
      RunFair(b, r, before);
      NextFair(b, r, Play(r, before), actions[n]);
    }
  }

  /** Both sides of a two-hop round have someone. */
  lemma BridgesHaveAnswers(j: Json)
    requires BothBridges(j) && ReadableSteps(j) && Member(j, "kind") != Str("one_hop")
    ensures AnswersFor(FromJson(j), BridgeA) != [] && AnswersFor(FromJson(j), BridgeB) != []
  {
    PresentList(j, "bridge_answer_sets");
  }

  lemma MiddleIsAChoice(b: Browser, j: Json)
    requires Faithful(b) && BothBridges(j) && ReadableSteps(j) && Member(j, "kind") != Str("one_hop") && PlainIds(FromJson(j))
    ensures var r := FromJson(j); r.middle.Some? && InTray(b, r, Middle, Album(r.middle.value.album.s))
  {
    var r, middle := FromJson(j), Member(j, "middle");
    var album := r.middle.value.album;
    assert Member(MiddleAlbum(middle), "id") == album;
    assert Choices(middle) == Member(middle, "choices");
    var i :| 0 <= i < |Elements(Choices(middle))| && PyEqual(Member(Elements(Choices(middle))[i], "id"), album);
    StringsEqual(Member(Elements(Choices(middle))[i], "id"), album.s);
    assert r.middle.value.choices[i] == album;
  }

  lemma FirstIsAnswer(b: Browser, r: Round, step: Step) returns (c: Choice)
    requires Faithful(b) && PlainIds(r) && step != Middle && AnswersFor(r, step) != []
    ensures Answers(r, step, c) && InTray(b, r, step, c)
  {
    var ids := AnswersFor(r, step);
    c := Person(Number(ids[0].n));
    assert ids[0] == Num(ids[0].n) && ids[0] in ids;
  }

  lemma StepHasIds(j: Json, contributors: seq<Json>, albums: seq<Json>, step: Step)
    requires Readable(j) && IsKind(Member(j, "kind")) && PassesRound(j, contributors, albums) && step in Plan(FromJson(j))
    ensures step == Middle ==> BothBridges(j) && Member(j, "kind") != Str("one_hop")
    ensures step != Middle ==> AnswersFor(FromJson(j), step) != []
  {
    if Member(j, "kind") == Str("one_hop") {
      AnswersThere(j);
    } else {
      BridgesHaveAnswers(j);
    }
  }

  /** Each step of a validated round with plain ids has an answer in its tray. */
  lemma StepHasAnswer(b: Browser, j: Json, contributors: seq<Json>, albums: seq<Json>, step: Step) returns (c: Choice)
    requires Faithful(b) && Readable(j) && IsKind(Member(j, "kind")) && PassesRound(j, contributors, albums)
    requires PlainIds(FromJson(j)) && step in Plan(FromJson(j))
    ensures Answers(FromJson(j), step, c) && InTray(b, FromJson(j), step, c)
  {
    var r := FromJson(j);
    StepHasIds(j, contributors, albums, step);
    if step == Middle {
      MiddleIsAChoice(b, j);
      c := Album(r.middle.value.album.s);
    } else {
      c := FirstIsAnswer(b, r, step);
    }
  }

  lemma AnswersThere(j: Json)
    requires HasAnswers(j) && ReadableSteps(j) && Member(j, "kind") == Str("one_hop")
    ensures AnswersFor(FromJson(j), Single) != []
  {
  }

  /** On a validated round with plain ids, played from the tray, every guessing state offers a chip that
      is neither struck nor eliminated and solves the step. */
  lemma AlwaysWinnable(
      b: Browser, j: Json, contributors: seq<Json>, albums: seq<Json>, actions: seq<Action>) returns (c: Choice)
    requires Faithful(b) && Readable(j) && IsKind(Member(j, "kind")) && PassesRound(j, contributors, albums)
    requires PlainIds(FromJson(j)) && TrayOnly(b, FromJson(j), actions) && Play(FromJson(j), actions).phase == Guessing
    ensures var r := FromJson(j); var s := Play(r, actions);
      InTray(b, r, s.step, c) && Accepted(s, c) && !ClueStruck(r, s, c)
      && Next(r, s, Choose(c)).solvedSteps == s.solvedSteps + [s.step]
  {
    var r := FromJson(j);
    var s := Play(r, actions);
    EveryRunConsistent(r, actions);
    RunFair(b, r, actions);
    c := StepHasAnswer(b, j, contributors, albums, s.step);
    if c.Person? {
      AnswerIsValid(j, s.step, c.guess.n);
      ValidIsNoDistractor(j, contributors, albums, c.guess.n);
      ValidIsNotEliminated(j, c.guess.n);
    }
    AdvanceSolves(r, s, c);
  }

  // ---------- A round ends ----------

  function PhaseRank(p: Phase): nat {
    match p case Idle => 3 case Dealing => 2 case Guessing => 1 case Revealed => 0
  }

  /** Steps, attempts and clues still to come. */
  function Remaining(r: Round, s: State): int {
    3 * (|Plan(r)| - |s.solvedSteps|) + s.attemptsLeft + (|r.clues| - s.cluesUsed) + PhaseRank(s.phase)
  }

  lemma RemainingIsNat(r: Round, s: State)
    requires Consistent(r, s)
    ensures Remaining(r, s) >= 0
  {
  }

  /** Every action either is ignored or uses something up. */
  lemma ActionsUseUp(r: Round, s: State, a: Action)
    requires Consistent(r, s)
    ensures Next(r, s, a) == s || Remaining(r, Next(r, s, a)) < Remaining(r, s)
  {
  }

  /** How many actions of a run were not ignored. */
  function Effective(r: Round, actions: seq<Action>): nat {
    if actions == [] then 0
    else
      var before := actions[..|actions| - 1];
      Effective(r, before) + if Play(r, actions) == Play(r, before) then 0 else 1
  }

  lemma {:induction false} EffectiveBound(r: Round, actions: seq<Action>)
    ensures Effective(r, actions) + Remaining(r, Play(r, actions)) <= 3 * |Plan(r)| + |r.clues| + 5
  {
    if actions != [] {
      var before := actions[..|actions| - 1];
      EffectiveBound(r, before);
      EveryRunConsistent(r, before);
      ActionsUseUp(r, Play(r, before), actions[|actions| - 1]);
    }
  }

  /** A round takes at most this many actions that do anything, however it is played. */
  lemma RoundsEnd(r: Round, actions: seq<Action>)
    ensures Effective(r, actions) <= 3 * |Plan(r)| + |r.clues| + 5
  {
    EffectiveBound(r, actions);
    EveryRunConsistent(r, actions);
    RemainingIsNat(r, Play(r, actions));
  }
}
