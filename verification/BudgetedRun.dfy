/** What a budget of reads and a cap on results leave of an enumeration. */
module BudgetedRun {
  import opened PathfindingGraph

  /** One thing an enumeration does: read a slot, or find a result. */
  datatype Event<T> = Read | Found(item: T)

  /** A cost the budget covers: nothing is spent once nothing is left. */
  predicate Affords(remaining: int, cost: nat) {
    cost <= Max(0, remaining)
  }

  function Reads<T>(log: seq<Event<T>>): nat {
    if log == [] then 0 else (if log[0].Read? then 1 else 0) + Reads(log[1..])
  }

  function Items<T>(log: seq<Event<T>>): seq<T> {
    if log == [] then [] else (if log[0].Found? then [log[0].item] else []) + Items(log[1..])
  }

  /** The log up to the first read the budget does not cover. */
  function Paid<T>(log: seq<Event<T>>, budget: int): seq<Event<T>> {
    if log == [] || (log[0].Read? && budget <= 0) then []
    else [log[0]] + Paid(log[1..], if log[0].Read? then budget - 1 else budget)
  }

  /** As many of a list's first elements as a cap allows. */
  function First<T>(xs: seq<T>, cap: int): (r: seq<T>)
    ensures |r| == Min(|xs|, Max(0, cap))
  {
    xs[..Min(|xs|, Max(0, cap))]
  }

  // ---------- Running a log under a budget and a cap ----------

  datatype Progress<T> = Progress(items: seq<T>, left: int, going: bool)

  function After<T>(p: Progress<T>, e: Event<T>, cap: int): Progress<T> {
    match e
    case Read => if p.left <= 0 then p.(going := false) else p.(left := p.left - 1)
    case Found(item) => if |p.items| >= cap then p.(going := false) else p.(items := p.items + [item])
  }

  function Run<T>(p: Progress<T>, log: seq<Event<T>>, cap: int): Progress<T>
    decreases |log|
  {
    if log == [] || !p.going then p else Run(After(p, log[0], cap), log[1..], cap)
  }

  lemma {:induction false} RunConcat<T>(p: Progress<T>, a: seq<Event<T>>, b: seq<Event<T>>, cap: int)
    ensures Run(p, a + b, cap) == Run(Run(p, a, cap), b, cap)
    decreases |a|
  {
    if a == [] {
      assert a + b == b;
    } else if p.going {
      assert (a + b)[0] == a[0] && (a + b)[1..] == a[1..] + b;
      RunConcat(After(p, a[0], cap), a[1..], b, cap);
    }
  }

  lemma {:induction false} ReadsConcat<T>(a: seq<Event<T>>, b: seq<Event<T>>)
    ensures Reads(a + b) == Reads(a) + Reads(b)
  {
    if a == [] {
      assert a + b == b;
    } else {
      assert (a + b)[0] == a[0] && (a + b)[1..] == a[1..] + b;
      ReadsConcat(a[1..], b);
    }
  }

  lemma {:induction false} ItemsConcat<T>(a: seq<Event<T>>, b: seq<Event<T>>)
    ensures Items(a + b) == Items(a) + Items(b)
  {
    if a == [] {
      assert a + b == b;
    } else {
      assert (a + b)[0] == a[0] && (a + b)[1..] == a[1..] + b;
      ItemsConcat(a[1..], b);
    }
  }

  /** A run collects the first results up to the cap among those the budget reaches; it comes to the end
      exactly when the budget covers every read and the cap every result, and has then spent just that. */
  lemma {:induction false} RunIs<T>(p: Progress<T>, log: seq<Event<T>>, cap: int)
    requires p.going
    ensures var r := Run(p, log, cap);
      && r.items == p.items + First(Items(Paid(log, p.left)), cap - |p.items|)
      && (r.going <==> Affords(p.left, Reads(log)) && |Items(log)| <= Max(0, cap - |p.items|))
      && (r.going ==> r.left == p.left - Reads(log))
      && 0 <= p.left - r.left <= Max(0, p.left)
    decreases |log|
  {
    if log != [] {
      var q := After(p, log[0], cap);
      if q.going { RunIs(q, log[1..], cap); }
      PaidStep(log, p.left);
      FirstStep(p, log[0], Items(Paid(log, p.left)), Items(Paid(log[1..], q.left)), cap);
    }
  }

  /** One event's part in what a run collects, where `xs` is what the budget reaches of all results and
      `rest` what it reaches after the event. */
  lemma FirstStep<T>(p: Progress<T>, e: Event<T>, xs: seq<T>, rest: seq<T>, cap: int)
    requires p.going
    requires xs == match e case Read => if p.left <= 0 then [] else rest case Found(item) => [item] + rest
    ensures var q := After(p, e, cap);
      p.items + First(xs, cap - |p.items|) == if q.going then q.items + First(rest, cap - |q.items|) else p.items
  {
    match e
    case Read =>
      if p.left <= 0 { NothingFirst(p.items, cap - |p.items|); }
    case Found(item) =>
      ItemStep(p, item, rest, cap);
  }

  lemma NothingFirst<T>(before: seq<T>, cap: int)
    ensures before + First([], cap) == before
  {
  }

  lemma ItemStep<T>(p: Progress<T>, item: T, rest: seq<T>, cap: int)
    requires p.going
    ensures var q := After(p, Found(item), cap);
      p.items + First([item] + rest, cap - |p.items|) == if q.going then q.items + First(rest, cap - |q.items|) else p.items
  {
    FirstOfMore(p.items, item, rest, cap - |p.items|);
  }

  lemma PaidStep<T>(log: seq<Event<T>>, budget: int)
    requires log != []
    ensures log[0].Read? && budget <= 0 ==> Items(Paid(log, budget)) == []
    ensures log[0].Read? && budget > 0 ==> Items(Paid(log, budget)) == Items(Paid(log[1..], budget - 1))
    ensures log[0].Found? ==> Items(Paid(log, budget)) == [log[0].item] + Items(Paid(log[1..], budget))
  {
    if log[0].Found? || budget > 0 {
      var rest := Paid(log[1..], if log[0].Read? then budget - 1 else budget);
      assert ([log[0]] + rest)[1..] == rest;
    }
  }

  lemma FirstOfMore<T>(before: seq<T>, x: T, xs: seq<T>, cap: int)
    ensures cap > 0 ==> before + First([x] + xs, cap) == before + [x] + First(xs, cap - 1)
    ensures cap <= 0 ==> First([x] + xs, cap) == []
  {
    if cap > 0 { assert First([x] + xs, cap) == [x] + First(xs, cap - 1); }
  }

  /** A budget that covers every read reaches everything. */
  lemma {:induction false} PaidInFull<T>(log: seq<Event<T>>, budget: int)
    requires Affords(budget, Reads(log))
    ensures Paid(log, budget) == log
  {
    if log != [] {
      PaidInFull(log[1..], if log[0].Read? then budget - 1 else budget);
    }
  }

  /** What a budget reaches is the first part of everything. */
  lemma {:induction false} PaidIsPrefix<T>(log: seq<Event<T>>, budget: int)
    ensures Items(Paid(log, budget)) <= Items(log)
  {
    if log != [] && !(log[0].Read? && budget <= 0) {
      var rest := Paid(log[1..], if log[0].Read? then budget - 1 else budget);
      assert ([log[0]] + rest)[1..] == rest;
      PaidIsPrefix(log[1..], if log[0].Read? then budget - 1 else budget);
    }
  }
}
