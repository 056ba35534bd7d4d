/** Exactly which rounds can always be solved from the tray. */
module TrayPlay {
  import opened Json
  import opened PythonValues
  import opened RoundChecks
  import opened Engine

  /** A chip of the step that solves it. */
  predicate Winner(b: Browser, r: Round, step: Step, c: Choice) {
    InTray(b, r, step, c) && Answers(r, step, c)
  }

  ghost predicate HasWinner(b: Browser, r: Round, step: Step) {
    exists c :: Winner(b, r, step, c)
  }

  /** A chip of the first bridge that is wrong there and is the second bridge's only winner. */
  ghost predicate Trap(b: Browser, r: Round, c: Choice) {
    && InTray(b, r, BridgeA, c) && !Answers(r, BridgeA, c)
    && Winner(b, r, BridgeB, c) && forall d :: Winner(b, r, BridgeB, d) ==> d == c
  }

  /** Every step has a chip that solves it, and no chip is a trap. */
  ghost predicate Playable(b: Browser, r: Round) {
    (forall i :: 0 <= i < |Plan(r)| ==> HasWinner(b, r, Plan(r)[i]))
    && (r.kind == TwoHop ==> forall c :: !Trap(b, r, c))
  }

  /** The tray shows a chip, neither struck nor eliminated, that solves the step. */
  ghost predicate Offers(b: Browser, r: Round, s: State) {
    exists c :: Winner(b, r, s.step, c) && Accepted(s, c) && !ClueStruck(r, s, c)
  }

  // ---------- What tray play strikes ----------

  predicate WrongFor(b: Browser, r: Round, step: Step, x: Guess) {
    InTray(b, r, step, Person(x)) && !Answers(r, step, Person(x))
  }

  /** Only the chip struck at the first bridge can answer the second. */
  ghost predicate StruckFairly(b: Browser, r: Round, s: State) {
    && (forall x :: x in s.struckAlbums ==> !Answers(r, Middle, Album(x)))
    && (s.step in {Single, BridgeA} ==> forall x :: x in s.struck ==> WrongFor(b, r, s.step, x))
    && (s.step == BridgeB ==> forall i :: 0 <= i < |s.struck| && Answers(r, BridgeB, Person(s.struck[i])) ==>
          i == 0 && WrongFor(b, r, BridgeA, s.struck[i]))
  }

  lemma StepStrikesFairly(b: Browser, r: Round, s: State, a: Action)
    requires Consistent(r, s) && StruckFairly(b, r, s) && (a.Choose? ==> InTray(b, r, s.step, a.choice))
    ensures StruckFairly(b, r, Next(r, s, a))
  {
    if a.Choose? && s.phase == Guessing && Accepted(s, a.choice) && Answers(r, s.step, a.choice) && s.step == BridgeA {
      assert |s.struck| <= 1;
    }
  }

  lemma {:induction false} RunStrikesFairly(b: Browser, r: Round, actions: seq<Action>)
    requires TrayOnly(b, r, actions)
    ensures StruckFairly(b, r, Play(r, actions))
  {
    if actions != [] {
      var n := |actions| - 1;
      EveryRunConsistent(r, actions[..n]);
      ShorterTrayOnly(b, r, actions);
      RunStrikesFairly(b, r, actions[..n]);
      StepStrikesFairly(b, r, Play(r, actions[..n]), actions[n]);
    }
  }

  lemma ShorterTrayOnly(b: Browser, r: Round, actions: seq<Action>)
    requires TrayOnly(b, r, actions) && actions != []
    ensures TrayOnly(b, r, actions[..|actions| - 1])
    ensures actions[|actions| - 1].Choose? ==>
      InTray(b, r, Play(r, actions[..|actions| - 1]).step, actions[|actions| - 1].choice)
  {
    var before := actions[..|actions| - 1];
    forall i | 0 <= i < |before| && before[i].Choose? ensures InTray(b, r, Play(r, before[..i]).step, before[i].choice) {
      assert before[..i] == actions[..i];
    }
  }

  lemma LongerTrayOnly(b: Browser, r: Round, actions: seq<Action>, a: Action)
    requires TrayOnly(b, r, actions) && (a.Choose? ==> InTray(b, r, Play(r, actions).step, a.choice))
    ensures TrayOnly(b, r, actions + [a]) && Play(r, actions + [a]) == Next(r, Play(r, actions), a)
  {
    var more := actions + [a];
    assert more[..|more| - 1] == actions;
    forall i | 0 <= i < |more| && more[i].Choose? ensures InTray(b, r, Play(r, more[..i]).step, more[i].choice) {
      assert more[..i] == actions[..i];
      if i == |actions| { assert actions[..i] == actions; }
    }
  }

  // ---------- Playable rounds can always be solved ----------

  lemma WinnerNotEliminated(j: Json, s: State, c: Choice)
    requires FairClues(j) && Answers(FromJson(j), s.step, c)
    ensures !ClueStruck(FromJson(j), s, c)
  {
    if c.Person? {
      AnswerIsValid(j, s.step, c.guess.n);
      ValidIsNotEliminated(j, c.guess.n);
    }
  }

  /** A winner that is not struck, if the round is playable. */
  lemma FreshWinner(b: Browser, r: Round, s: State) returns (c: Choice)
    requires Playable(b, r) && StruckFairly(b, r, s) && s.step in Plan(r)
    ensures Winner(b, r, s.step, c) && Fresh(s, c)
  {
    var i :| 0 <= i < |Plan(r)| && Plan(r)[i] == s.step;
    assert HasWinner(b, r, Plan(r)[i]);
    c :| Winner(b, r, s.step, c);
    if !Fresh(s, c) && s.step == BridgeB {
      assert !Trap(b, r, c);
      var d :| Winner(b, r, BridgeB, d) && d != c;
      c := d;
    }
  }

  lemma PlayableOffers(b: Browser, j: Json, actions: seq<Action>)
    requires FairClues(j) && Playable(b, FromJson(j))
    requires TrayOnly(b, FromJson(j), actions) && Play(FromJson(j), actions).phase == Guessing
    ensures Offers(b, FromJson(j), Play(FromJson(j), actions))
  {
    var r := FromJson(j);
    var s := Play(r, actions);
    EveryRunConsistent(r, actions);
    RunStrikesFairly(b, r, actions);
    var c := FreshWinner(b, r, s);
    WinnerNotEliminated(j, s, c);
  }

  // ---------- And no others ----------

  /** Guessing at step `k`, with what has been struck on the way. */
  ghost predicate Reached(b: Browser, r: Round, actions: seq<Action>, k: nat, struck: seq<Guess>) {
    && k < |Plan(r)| && TrayOnly(b, r, actions)
    && var s := Play(r, actions);
      s.phase == Guessing && s.step == Plan(r)[k] && s.struck == struck && s.struckAlbums == [] && s.attemptsLeft >= 1
  }

  lemma ReachFirst(b: Browser, r: Round) returns (actions: seq<Action>)
    ensures Reached(b, r, actions, 0, []) && Play(r, actions).attemptsLeft == 2
  {
    LongerTrayOnly(b, r, [], Deal);
    LongerTrayOnly(b, r, [] + [Deal], Present);
    actions := [] + [Deal] + [Present];
  }

  lemma ReachNext(b: Browser, r: Round, actions: seq<Action>, k: nat, struck: seq<Guess>, c: Choice)
    returns (more: seq<Action>)
    requires Reached(b, r, actions, k, struck) && k + 1 < |Plan(r)|
    requires Winner(b, r, Plan(r)[k], c) && c.Person? && c.guess !in struck
    ensures Reached(b, r, more, k + 1, struck)
  {
    more := actions + [Choose(c)];
    LongerTrayOnly(b, r, actions, Choose(c));
  }

  lemma {:induction false} ReachStep(b: Browser, r: Round, k: nat) returns (actions: seq<Action>)
    requires k < |Plan(r)| && forall i :: 0 <= i < k ==> HasWinner(b, r, Plan(r)[i])
    ensures Reached(b, r, actions, k, [])
  {
    if k == 0 {
      actions := ReachFirst(b, r);
    } else {
      var before := ReachStep(b, r, k - 1);
      assert HasWinner(b, r, Plan(r)[k - 1]);
      var c :| Winner(b, r, Plan(r)[k - 1], c);
      actions := ReachNext(b, r, before, k - 1, [], c);
    }
  }

  /** Pressing the trap first and the right chip next leaves the second bridge without a winner. */
  lemma TrapCloses(b: Browser, r: Round, c: Choice, a: Choice) returns (actions: seq<Action>)
    requires r.kind == TwoHop && Trap(b, r, c) && Winner(b, r, BridgeA, a)
    ensures Reached(b, r, actions, 1, [c.guess]) && !Offers(b, r, Play(r, actions))
  {
    var first := ReachFirst(b, r);
    LongerTrayOnly(b, r, first, Choose(c));
    actions := ReachNext(b, r, first + [Choose(c)], 0, [c.guess], a);
    var s := Play(r, actions);
    forall d | Winner(b, r, s.step, d) ensures !Accepted(s, d) {
      assert d == c;
    }
  }

  ghost predicate AlwaysOffers(b: Browser, r: Round) {
    forall actions :: TrayOnly(b, r, actions) && Play(r, actions).phase == Guessing ==> Offers(b, r, Play(r, actions))
  }

  lemma {:induction false} EveryStepHasWinner(b: Browser, r: Round, k: nat)
    requires AlwaysOffers(b, r) && k <= |Plan(r)|
    ensures forall i :: 0 <= i < k ==> HasWinner(b, r, Plan(r)[i])
  {
    if k > 0 {
      EveryStepHasWinner(b, r, k - 1);
      var actions := ReachStep(b, r, k - 1);
      assert Offers(b, r, Play(r, actions));
    }
  }

  lemma NoTraps(b: Browser, r: Round, c: Choice)
    requires AlwaysOffers(b, r) && r.kind == TwoHop && HasWinner(b, r, BridgeA)
    ensures !Trap(b, r, c)
  {
    if Trap(b, r, c) {
      var a :| Winner(b, r, BridgeA, a);
      var actions := TrapCloses(b, r, c, a);
    }
  }

  lemma AlwaysPlayable(b: Browser, r: Round)
    requires AlwaysOffers(b, r)
    ensures Playable(b, r)
  {
    EveryStepHasWinner(b, r, |Plan(r)|);
    if r.kind == TwoHop {
      assert HasWinner(b, r, Plan(r)[0]);
      forall c ensures !Trap(b, r, c) { NoTraps(b, r, c); }
    }
  }

  /** Played from the tray, a validated round offers a winning chip in every guessing state of every run
      exactly when each step has one to begin with and no chip is a trap. */
  lemma AlwaysOffersIffPlayable(b: Browser, j: Json, contributors: seq<Json>, albums: seq<Json>)
    requires Readable(j) && PassesRound(j, contributors, albums)
    ensures AlwaysOffers(b, FromJson(j)) <==> Playable(b, FromJson(j))
  {
    var r := FromJson(j);
    if Playable(b, r) {
      forall actions | TrayOnly(b, r, actions) && Play(r, actions).phase == Guessing
        ensures Offers(b, r, Play(r, actions))
      {
        PlayableOffers(b, j, actions);
      }
    }
    if AlwaysOffers(b, r) { AlwaysPlayable(b, r); }
  }

  /** Validated rounds with integer ids are playable. */
  lemma PlainIsPlayable(b: Browser, j: Json, contributors: seq<Json>, albums: seq<Json>)
    requires Faithful(b) && Readable(j) && IsKind(Member(j, "kind")) && PassesRound(j, contributors, albums) && PlainIds(FromJson(j))
    ensures Playable(b, FromJson(j))
  {
    var r := FromJson(j);
    forall i | 0 <= i < |Plan(r)| ensures HasWinner(b, r, Plan(r)[i]) {
      var c := StepHasAnswer(b, j, contributors, albums, Plan(r)[i]);
      assert Winner(b, r, Plan(r)[i], c);
    }
    forall c | InTray(b, r, BridgeA, c) && !Answers(r, BridgeA, c) ensures !Answers(r, BridgeB, c) {
      WrongIsDistractor(b, r, c.guess);
      if Answers(r, BridgeB, c) {
        AnswerIsValid(j, BridgeB, c.guess.n);
        ValidIsNoDistractor(j, contributors, albums, c.guess.n);
      }
    }
  }

  lemma WrongIsDistractor(b: Browser, r: Round, x: Guess)
    requires Faithful(b) && PlainIds(r) && WrongFor(b, r, BridgeA, x)
    ensures IsAnswer(r.distractors, x)
  {
    if OnChip(b, AnswersFor(r, BridgeA), x) { OnChipIsNumber(b, AnswersFor(r, BridgeA), x); }
    OnChipIsNumber(b, r.distractors, x);
  }
}
