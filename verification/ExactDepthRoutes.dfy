/** The pruned, budgeted, capped enumeration of every route of one exact length. */
module ExactDepthRoutes {
  import opened Text
  import opened PathfindingGraph
  import opened Routes
  import opened SlotOrder
  import opened BudgetedRun
  import opened ReverseDistances

  // ---------- What the enumeration does, without budget or cap ----------

  predicate Continues(g: Graph, q: Query, goal: nat, nodes: seq<nat>, slot: nat)
    requires RowsInRange(g) && nodes != []
  {
    Step(g, q, goal, nodes[|nodes| - 1], slot) && g.neighbors[slot] !in nodes
  }

  /** The walk enters a slot: it continues the path, and the guide meets what is behind it soon enough. */
  ghost predicate Enters(g: Graph, q: Query, goal: nat, nodes: seq<nat>, k: nat, slot: nat)
    requires RowsInRange(g) && nodes != [] && k > 0
  {
    Continues(g, q, goal, nodes, slot) && Spreads(g, q, goal, g.neighbors[slot], k - 1)
  }

  /** All that happens from a partial route with `k` hops to go: the slots read and the routes completed. */
  ghost function Trace(g: Graph, q: Query, goal: nat, nodes: seq<nat>, slots: seq<nat>, k: nat): seq<Event<Walk>>
    requires RowsInRange(g) && nodes != []
    decreases k, 1, 0
  {
    var node := nodes[|nodes| - 1];
    if node == goal then (if k == 0 then [Found(Walk(nodes, slots))] else [])
    else if k == 0 || node >= |g.nodeIds| then []
    else assert GoodRow(g, node); TraceFrom(g, q, goal, nodes, slots, k, g.offsets[node])
  }

  ghost function TraceFrom(g: Graph, q: Query, goal: nat, nodes: seq<nat>, slots: seq<nat>, k: nat, slot: nat): seq<Event<Walk>>
    requires RowsInRange(g) && nodes != [] && nodes[|nodes| - 1] < |g.nodeIds| && k > 0
    requires slot <= g.offsets[nodes[|nodes| - 1] + 1]
    decreases k, 0, g.offsets[nodes[|nodes| - 1] + 1] - slot
  {
    if slot == g.offsets[nodes[|nodes| - 1] + 1] then []
    else [Read] + TraceBehind(g, q, goal, nodes, slots, k, slot) + TraceFrom(g, q, goal, nodes, slots, k, slot + 1)
  }

  /** What happens behind one slot. */
  ghost function TraceBehind(g: Graph, q: Query, goal: nat, nodes: seq<nat>, slots: seq<nat>, k: nat, slot: nat): seq<Event<Walk>>
    requires RowsInRange(g) && nodes != [] && k > 0
    decreases k, 0, 0
  {
    if Enters(g, q, goal, nodes, k, slot)
    then Trace(g, q, goal, nodes + [g.neighbors[slot]], slots + [slot], k - 1)
    else []
  }

  /** The routes of one exact length, in the order they are completed. */
  ghost function ExactRoutes(g: Graph, q: Query, start: nat, goal: nat, depth: nat): seq<Walk>
    requires RowsInRange(g)
  {
    Items(Trace(g, q, goal, [start], [], depth))
  }

  /** How many slots enumerating them reads. */
  ghost function WalkCost(g: Graph, q: Query, start: nat, goal: nat, depth: nat): nat
    requires RowsInRange(g)
  {
    Reads(Trace(g, q, goal, [start], [], depth))
  }

  /** The routes completed before a budget of reads runs out. */
  ghost function RoutesWithin(g: Graph, q: Query, start: nat, goal: nat, depth: nat, budget: int): seq<Walk>
    requires RowsInRange(g)
  {
    Items(Paid(Trace(g, q, goal, [start], [], depth), budget))
  }

  // ---------- Which routes those are ----------

  /** A route under construction: simple, admissible so far, not yet past the goal. */
  ghost predicate Partial(g: Graph, q: Query, goal: nat, nodes: seq<nat>, slots: seq<nat>)
    requires RowsInRange(g)
  {
    && |nodes| == |slots| + 1 && nodes[0] < |g.nodeIds|
    && Distinct(nodes)
    && goal !in nodes[..|slots|]
    && (forall i {:trigger slots[i]} :: 0 <= i < |slots| ==> Step(g, q, goal, nodes[i], slots[i]) && g.neighbors[slots[i]] == nodes[i + 1])
  }

  lemma PartialGrows(g: Graph, q: Query, goal: nat, nodes: seq<nat>, slots: seq<nat>, slot: nat)
    requires RowsInRange(g) && Partial(g, q, goal, nodes, slots) && Continues(g, q, goal, nodes, slot)
    requires nodes[|slots|] != goal
    ensures Partial(g, q, goal, nodes + [g.neighbors[slot]], slots + [slot])
  {
    assert (nodes + [g.neighbors[slot]])[..|slots| + 1] == nodes[..|slots|] + [nodes[|slots|]];
  }

  ghost predicate Extending(w: Walk, nodes: seq<nat>, slots: seq<nat>, k: nat) {
    nodes <= w.nodes && slots <= w.slots && |w.slots| == |slots| + k
  }

  /** The guide meets the walk's `i`-th node in as many hops as the walk has left. */
  ghost predicate SightedAt(g: Graph, q: Query, goal: nat, w: Walk, i: nat)
    requires RowsInRange(g)
  {
    i < |w.nodes| && i <= |w.slots| && Spreads(g, q, goal, w.nodes[i], |w.slots| - i)
  }

  /** So the guide lets the walk on at every node after `from`. */
  ghost predicate Sighted(g: Graph, q: Query, goal: nat, w: Walk, from: nat)
    requires RowsInRange(g)
  {
    forall i :: from < i <= |w.slots| ==> SightedAt(g, q, goal, w, i)
  }

  ghost predicate Listed(g: Graph, q: Query, start: nat, goal: nat, w: Walk, nodes: seq<nat>, slots: seq<nat>, k: nat)
    requires RowsInRange(g)
  {
    IsRoute(g, q, start, goal, w) && Extending(w, nodes, slots, k) && Sighted(g, q, goal, w, |slots|)
  }

  lemma {:induction false} TraceSound(g: Graph, q: Query, goal: nat, nodes: seq<nat>, slots: seq<nat>, k: nat, w: Walk)
    requires RowsInRange(g) && Partial(g, q, goal, nodes, slots)
    requires w in Items(Trace(g, q, goal, nodes, slots, k))
    ensures Listed(g, q, nodes[0], goal, w, nodes, slots, k)
    decreases k, 1, 0
  {
    var node := nodes[|slots|];
    if node != goal {
      assert GoodRow(g, node);
      var s := TraceFromSound(g, q, goal, nodes, slots, k, g.offsets[node], w);
    }
  }

  /** The routes found from a slot on are those behind it and those from the next one on. */
  lemma ItemsFrom(g: Graph, q: Query, goal: nat, nodes: seq<nat>, slots: seq<nat>, k: nat, slot: nat)
    requires RowsInRange(g) && nodes != [] && nodes[|nodes| - 1] < |g.nodeIds| && k > 0
    requires slot < g.offsets[nodes[|nodes| - 1] + 1]
    ensures Items(TraceFrom(g, q, goal, nodes, slots, k, slot))
         == Items(TraceBehind(g, q, goal, nodes, slots, k, slot)) + Items(TraceFrom(g, q, goal, nodes, slots, k, slot + 1))
    ensures Reads(TraceFrom(g, q, goal, nodes, slots, k, slot))
         == 1 + Reads(TraceBehind(g, q, goal, nodes, slots, k, slot)) + Reads(TraceFrom(g, q, goal, nodes, slots, k, slot + 1))
  {
    var read: seq<Event<Walk>> := [Read];
    var behind, later := TraceBehind(g, q, goal, nodes, slots, k, slot), TraceFrom(g, q, goal, nodes, slots, k, slot + 1);
    ThreeParts(behind, later);
  }

  lemma ThreeParts<T>(behind: seq<Event<T>>, later: seq<Event<T>>)
    ensures Items([Read] + behind + later) == Items(behind) + Items(later)
    ensures Reads([Read] + behind + later) == 1 + Reads(behind) + Reads(later)
  {
    var read: seq<Event<T>> := [Read];
    ItemsConcat(read + behind, later);
    ItemsConcat(read, behind);
    ReadsConcat(read + behind, later);
    ReadsConcat(read, behind);
    assert Items(read) == [] && Reads(read) == 1;
  }

  lemma {:induction false} TraceFromSound(g: Graph, q: Query, goal: nat, nodes: seq<nat>, slots: seq<nat>, k: nat, slot: nat, w: Walk)
    returns (s: nat)
    requires RowsInRange(g) && Partial(g, q, goal, nodes, slots) && k > 0
    requires nodes[|slots|] < |g.nodeIds| && nodes[|slots|] != goal && slot <= g.offsets[nodes[|slots|] + 1]
    requires w in Items(TraceFrom(g, q, goal, nodes, slots, k, slot))
    ensures Listed(g, q, nodes[0], goal, w, nodes, slots, k)
    ensures slot <= s && w.slots[|slots|] == s
    decreases k, 0, g.offsets[nodes[|slots|] + 1] - slot
  {
    ItemsFrom(g, q, goal, nodes, slots, k, slot);
    if w in Items(TraceBehind(g, q, goal, nodes, slots, k, slot)) {
      s := slot;
      TraceBehindSound(g, q, goal, nodes, slots, k, slot, w);
    } else {
      s := TraceFromSound(g, q, goal, nodes, slots, k, slot + 1, w);
    }
  }

  lemma {:induction false} TraceBehindSound(g: Graph, q: Query, goal: nat, nodes: seq<nat>, slots: seq<nat>, k: nat, slot: nat, w: Walk)
    requires RowsInRange(g) && Partial(g, q, goal, nodes, slots) && k > 0
    requires nodes[|slots|] != goal
    requires w in Items(TraceBehind(g, q, goal, nodes, slots, k, slot))
    ensures Listed(g, q, nodes[0], goal, w, nodes, slots, k) && w.slots[|slots|] == slot
    decreases k, 0, 0
  {
    PartialGrows(g, q, goal, nodes, slots, slot);
    TraceSound(g, q, goal, nodes + [g.neighbors[slot]], slots + [slot], k - 1, w);
    assert w.slots[|slots|] == (slots + [slot])[|slots|];
    SeesOn(g, q, goal, w, nodes, slots, k, slot);
  }

  /** The node entered is sighted, so one more node is. */
  lemma SeesOn(g: Graph, q: Query, goal: nat, w: Walk, nodes: seq<nat>, slots: seq<nat>, k: nat, slot: nat)
    requires RowsInRange(g) && |nodes| == |slots| + 1 && k > 0 && Enters(g, q, goal, nodes, k, slot)
    requires Extending(w, nodes + [g.neighbors[slot]], slots + [slot], k - 1) && Sighted(g, q, goal, w, |slots| + 1)
    ensures Extending(w, nodes, slots, k) && Sighted(g, q, goal, w, |slots|)
  {
    assert w.nodes[|slots| + 1] == (nodes + [g.neighbors[slot]])[|slots| + 1];
    forall i | |slots| < i <= |w.slots| ensures SightedAt(g, q, goal, w, i) { }
  }

  lemma {:induction false} TraceComplete(g: Graph, q: Query, goal: nat, nodes: seq<nat>, slots: seq<nat>, k: nat, w: Walk)
    requires RowsInRange(g) && Partial(g, q, goal, nodes, slots)
    requires Listed(g, q, nodes[0], goal, w, nodes, slots, k)
    ensures w in Items(Trace(g, q, goal, nodes, slots, k))
    decreases k
  {
    var node := nodes[|slots|];
    assert w.nodes[|slots|] == node;
    if node == goal {
      assert |slots| == |w.slots|;
      assert w == Walk(nodes, slots);
    } else {
      assert k > 0;
      var slot := w.slots[|slots|];
      assert Step(g, q, goal, node, slot) && g.neighbors[slot] == w.nodes[|slots| + 1];
      NextHopEnters(g, q, goal, nodes, slots, k, w);
      PartialGrows(g, q, goal, nodes, slots, slot);
      TraceComplete(g, q, goal, nodes + [g.neighbors[slot]], slots + [slot], k - 1, w);
      assert GoodRow(g, node);
      ReachSlot(g, q, goal, nodes, slots, k, g.offsets[node], slot, w);
    }
  }

  lemma NextHopEnters(g: Graph, q: Query, goal: nat, nodes: seq<nat>, slots: seq<nat>, k: nat, w: Walk)
    requires RowsInRange(g) && Partial(g, q, goal, nodes, slots) && k > 0
    requires Listed(g, q, nodes[0], goal, w, nodes, slots, k)
    ensures Enters(g, q, goal, nodes, k, w.slots[|slots|])
    ensures Listed(g, q, nodes[0], goal, w, nodes + [g.neighbors[w.slots[|slots|]]], slots + [w.slots[|slots|]], k - 1)
  {
    var slot := w.slots[|slots|];
    assert w.nodes[|slots|] == nodes[|slots|];
    assert g.neighbors[slot] == w.nodes[|slots| + 1];
    assert SightedAt(g, q, goal, w, |slots| + 1);
    forall i | 0 <= i < |nodes| ensures nodes[i] != g.neighbors[slot] {
      assert w.nodes[i] == nodes[i];
    }
    assert nodes + [g.neighbors[slot]] == w.nodes[..|nodes| + 1];
    assert slots + [slot] == w.slots[..|slots| + 1];
  }

  lemma {:induction false} ReachSlot(g: Graph, q: Query, goal: nat, nodes: seq<nat>, slots: seq<nat>, k: nat, from: nat, slot: nat, w: Walk)
    requires RowsInRange(g) && nodes != [] && nodes[|nodes| - 1] < |g.nodeIds| && k > 0
    requires from <= slot < g.offsets[nodes[|nodes| - 1] + 1]
    requires w in Items(TraceBehind(g, q, goal, nodes, slots, k, slot))
    ensures w in Items(TraceFrom(g, q, goal, nodes, slots, k, from))
    decreases slot - from
  {
    ItemsFrom(g, q, goal, nodes, slots, k, from);
    if from < slot {
      ReachSlot(g, q, goal, nodes, slots, k, from + 1, slot, w);
    }
  }

  /** Each walk comes sooner, slot by slot, than those after it. */
  ghost predicate InSlotOrder(walks: seq<Walk>) {
    forall i, j :: 0 <= i < j < |walks| ==> Sooner(walks[i].slots, walks[j].slots)
  }

  lemma OrderConcat(xs: seq<Walk>, ys: seq<Walk>)
    requires InSlotOrder(xs) && InSlotOrder(ys) && forall x, y :: x in xs && y in ys ==> Sooner(x.slots, y.slots)
    ensures InSlotOrder(xs + ys)
  {
    forall i, j | 0 <= i < j < |xs + ys| ensures Sooner((xs + ys)[i].slots, (xs + ys)[j].slots) {
      if i < |xs| <= j {
        assert xs[i] in xs && ys[j - |xs|] in ys;
      }
    }
  }

  lemma OrderedAreDistinct(walks: seq<Walk>)
    requires InSlotOrder(walks)
    ensures Distinct(walks)
  {
    forall i, j | 0 <= i < j < |walks| ensures walks[i] != walks[j] { NeverSooner(walks[i].slots); }
  }

  lemma PartThere(slots: seq<nat>, v: Walk, w: Walk)
    requires slots <= v.slots && slots <= w.slots && |slots| < |v.slots| && |slots| < |w.slots|
    requires v.slots[|slots|] < w.slots[|slots|]
    ensures Sooner(v.slots, w.slots)
  {
    assert PartAt(v.slots, w.slots, |slots|);
  }

  lemma HereBeforeLater(g: Graph, q: Query, goal: nat, nodes: seq<nat>, slots: seq<nat>, k: nat, slot: nat, v: Walk, w: Walk)
    requires RowsInRange(g) && Partial(g, q, goal, nodes, slots) && k > 0
    requires nodes[|slots|] < |g.nodeIds| && nodes[|slots|] != goal && slot < g.offsets[nodes[|slots|] + 1]
    requires v in Items(TraceBehind(g, q, goal, nodes, slots, k, slot))
    requires w in Items(TraceFrom(g, q, goal, nodes, slots, k, slot + 1))
    ensures Sooner(v.slots, w.slots)
  {
    TraceBehindSound(g, q, goal, nodes, slots, k, slot, v);
    var s := TraceFromSound(g, q, goal, nodes, slots, k, slot + 1, w);
    PartThere(slots, v, w);
  }

  lemma {:induction false} TraceInOrder(g: Graph, q: Query, goal: nat, nodes: seq<nat>, slots: seq<nat>, k: nat)
    requires RowsInRange(g) && Partial(g, q, goal, nodes, slots)
    ensures InSlotOrder(Items(Trace(g, q, goal, nodes, slots, k)))
    decreases k, 1, 0
  {
    var node := nodes[|slots|];
    if node != goal && k > 0 && node < |g.nodeIds| {
      assert GoodRow(g, node);
      TraceFromInOrder(g, q, goal, nodes, slots, k, g.offsets[node]);
    }
  }

  lemma {:induction false} TraceFromInOrder(g: Graph, q: Query, goal: nat, nodes: seq<nat>, slots: seq<nat>, k: nat, slot: nat)
    requires RowsInRange(g) && Partial(g, q, goal, nodes, slots) && k > 0
    requires nodes[|slots|] < |g.nodeIds| && nodes[|slots|] != goal && slot <= g.offsets[nodes[|slots|] + 1]
    ensures InSlotOrder(Items(TraceFrom(g, q, goal, nodes, slots, k, slot)))
    decreases k, 0, g.offsets[nodes[|slots|] + 1] - slot
  {
    if slot < g.offsets[nodes[|slots|] + 1] {
      var here := Items(TraceBehind(g, q, goal, nodes, slots, k, slot));
      var later := Items(TraceFrom(g, q, goal, nodes, slots, k, slot + 1));
      ItemsFrom(g, q, goal, nodes, slots, k, slot);
      TraceFromInOrder(g, q, goal, nodes, slots, k, slot + 1);
      if Enters(g, q, goal, nodes, k, slot) {
        PartialGrows(g, q, goal, nodes, slots, slot);
        TraceInOrder(g, q, goal, nodes + [g.neighbors[slot]], slots + [slot], k - 1);
      }
      forall v, w | v in here && w in later ensures Sooner(v.slots, w.slots) {
        HereBeforeLater(g, q, goal, nodes, slots, k, slot, v, w);
      }
      OrderConcat(here, later);
    }
  }

  /** A route of exactly `depth` hops the guide lets through. */
  ghost predicate Guided(g: Graph, q: Query, start: nat, goal: nat, depth: nat, w: Walk)
    requires RowsInRange(g)
  {
    IsRoute(g, q, start, goal, w) && |w.slots| == depth && Sighted(g, q, goal, w, 0)
  }

  /** `ExactRoutes` lists every simple admissible route of `depth` hops the guide lets through, each once and in
      the order of their slots. */
  lemma ExactRoutesExact(g: Graph, q: Query, start: nat, goal: nat, depth: nat)
    requires RowsInRange(g) && start < |g.nodeIds|
    ensures forall w :: w in ExactRoutes(g, q, start, goal, depth) <==> Guided(g, q, start, goal, depth, w)
    ensures InSlotOrder(ExactRoutes(g, q, start, goal, depth)) && Distinct(ExactRoutes(g, q, start, goal, depth))
  {
    TraceInOrder(g, q, goal, [start], [], depth);
    OrderedAreDistinct(ExactRoutes(g, q, start, goal, depth));
    forall w ensures w in ExactRoutes(g, q, start, goal, depth) <==> Guided(g, q, start, goal, depth, w) {
      if w in ExactRoutes(g, q, start, goal, depth) {
        TraceSound(g, q, goal, [start], [], depth, w);
      }
      if Guided(g, q, start, goal, depth, w) {
        assert [start] <= w.nodes;
        TraceComplete(g, q, goal, [start], [], depth, w);
      }
    }
  }

  // ---------- Pruning loses nothing where the guide measures the way in ----------

  /** Over an undirected graph and for a symmetric filter, the guide lets every route through. */
  lemma EveryRouteIsGuided(g: Graph, q: Query, start: nat, goal: nat, w: Walk)
    requires RowsInRange(g) && Undirected(g) && Unrestricted(q) && IsRoute(g, q, start, goal, w)
    ensures Guided(g, q, start, goal, |w.slots|, w)
  {
    forall i | 0 < i <= |w.slots| ensures SightedAt(g, q, goal, w, i) {
      var rest := Walk(w.nodes[i..], w.slots[i..]);
      forall j | 0 <= j < |rest.slots|
        ensures Step(g, q, goal, rest.nodes[j], rest.slots[j]) && g.neighbors[rest.slots[j]] == rest.nodes[j + 1]
      {
        assert Step(g, q, goal, w.nodes[i + j], w.slots[i + j]) && g.neighbors[w.slots[i + j]] == w.nodes[i + j + 1];
      }
      WalkReaches(g, q, w.nodes[i], goal, rest);
      SpreadsIffReaches(g, q, goal, w.nodes[i], |w.slots| - i);
    }
  }

  /** The prune test of the walk: not known to be near enough to the goal. */
  predicate TooFar(distances: map<nat, nat>, v: nat, k: nat) {
    v !in distances || distances[v] > k
  }

  /** What the prune test tests: that the guide does not meet the node in the hops left. */
  lemma PrunedIsNotMet(g: Graph, q: Query, goal: nat, maxDepth: int, distances: map<nat, nat>, v: nat, k: nat)
    requires RowsInRange(g) && Measures(g, q, goal, maxDepth, distances) && k <= maxDepth
    ensures TooFar(distances, v, k) <==> !Spreads(g, q, goal, v, k)
  {
  }

  // ---------- What it costs, counted without the routes ----------

  /** A tally over the whole walk from a partial path with `k` hops to go: of the slots it reads, or,
      when `counting`, of the routes it completes. */
  ghost function Tally(g: Graph, q: Query, goal: nat, nodes: seq<nat>, k: nat, counting: bool): nat
    requires RowsInRange(g) && nodes != []
    decreases k, 1, 0
  {
    var node := nodes[|nodes| - 1];
    if node == goal then (if counting && k == 0 then 1 else 0)
    else if k == 0 || node >= |g.nodeIds| then 0
    else assert GoodRow(g, node); TallyFrom(g, q, goal, nodes, k, g.offsets[node], counting)
  }

  ghost function TallyFrom(g: Graph, q: Query, goal: nat, nodes: seq<nat>, k: nat, slot: nat, counting: bool): nat
    requires RowsInRange(g) && nodes != [] && nodes[|nodes| - 1] < |g.nodeIds| && k > 0
    requires slot <= g.offsets[nodes[|nodes| - 1] + 1]
    decreases k, 0, g.offsets[nodes[|nodes| - 1] + 1] - slot
  {
    if slot == g.offsets[nodes[|nodes| - 1] + 1] then 0
    else
      (if counting then 0 else 1) + TallyBehind(g, q, goal, nodes, k, slot, counting)
      + TallyFrom(g, q, goal, nodes, k, slot + 1, counting)
  }

  ghost function TallyBehind(g: Graph, q: Query, goal: nat, nodes: seq<nat>, k: nat, slot: nat, counting: bool): nat
    requires RowsInRange(g) && nodes != [] && k > 0
    decreases k, 0, 0
  {
    if Enters(g, q, goal, nodes, k, slot) then Tally(g, q, goal, nodes + [g.neighbors[slot]], k - 1, counting) else 0
  }

  function Counted<T>(log: seq<Event<T>>, counting: bool): nat {
    if counting then |Items(log)| else Reads(log)
  }

  /** The tally counts what the walk does, whichever slots led up to it. */
  lemma {:induction false} TallyCounts(g: Graph, q: Query, goal: nat, nodes: seq<nat>, slots: seq<nat>, k: nat, counting: bool)
    requires RowsInRange(g) && nodes != []
    ensures Counted(Trace(g, q, goal, nodes, slots, k), counting) == Tally(g, q, goal, nodes, k, counting)
    decreases k, 1, 0
  {
    var node := nodes[|nodes| - 1];
    if node != goal && k > 0 && node < |g.nodeIds| {
      assert GoodRow(g, node);
      TallyCountsFrom(g, q, goal, nodes, slots, k, g.offsets[node], counting);
    } else if node == goal && k == 0 {
      OneItem(Walk(nodes, slots));
    }
  }

  lemma {:induction false} TallyCountsFrom(g: Graph, q: Query, goal: nat, nodes: seq<nat>, slots: seq<nat>, k: nat, slot: nat, counting: bool)
    requires RowsInRange(g) && nodes != [] && nodes[|nodes| - 1] < |g.nodeIds| && k > 0
    requires slot <= g.offsets[nodes[|nodes| - 1] + 1]
    ensures Counted(TraceFrom(g, q, goal, nodes, slots, k, slot), counting) == TallyFrom(g, q, goal, nodes, k, slot, counting)
    decreases k, 0, g.offsets[nodes[|nodes| - 1] + 1] - slot
  {
    if slot < g.offsets[nodes[|nodes| - 1] + 1] {
      ItemsFrom(g, q, goal, nodes, slots, k, slot);
      if Enters(g, q, goal, nodes, k, slot) {
        TallyCounts(g, q, goal, nodes + [g.neighbors[slot]], slots + [slot], k - 1, counting);
      }
      TallyCountsFrom(g, q, goal, nodes, slots, k, slot + 1, counting);
    }
  }

  // ---------- The walk ----------

  /** The state the enumeration's inner function updates as it walks. */
  class RouteCollector {
    const g: Graph
    const q: Query
    const goalIndex: nat
    const targetDepth: nat
    const distances: map<nat, nat>
    const budget: Budget
    const maxRoutes: int
    ghost const maxDepth: int

    var routes: seq<Walk>
    var onPath: set<nat>
    var pathNodes: seq<nat>
    var pathSlots: seq<nat>

    constructor (g: Graph, q: Query, startIndex: nat, goalIndex: nat, targetDepth: nat, distances: map<nat, nat>,
                 budget: Budget, maxRoutes: int, ghost maxDepth: int)
      requires RowsInRange(g) && ExcludesNothing(q.excludes) && startIndex < |g.nodeIds|
      requires targetDepth <= maxDepth || startIndex == goalIndex
      requires Measures(g, q, goalIndex, maxDepth, distances)
      ensures this.g == g && this.q == q && this.goalIndex == goalIndex && this.targetDepth == targetDepth
      ensures this.budget == budget && this.maxRoutes == maxRoutes
      ensures routes == [] && pathNodes == [startIndex] && pathSlots == [] && At(startIndex, 0)
    {
      this.g, this.q, this.goalIndex, this.targetDepth := g, q, goalIndex, targetDepth;
      this.distances, this.budget, this.maxRoutes, this.maxDepth := distances, budget, maxRoutes, maxDepth;
      routes, onPath, pathNodes, pathSlots := [], {startIndex}, [startIndex], [];
    }

    /** The walk stands on `node`, `depth` hops in. */
    ghost predicate At(node: nat, depth: nat)
      reads this
    {
      && RowsInRange(g) && ExcludesNothing(q.excludes) && node < |g.nodeIds|
      && |pathNodes| == depth + 1 && pathNodes[depth] == node
      && (forall v :: v in onPath <==> v in pathNodes)
      && depth <= targetDepth && (targetDepth <= maxDepth || node == goalIndex)
      && Measures(g, q, goalIndex, maxDepth, distances)
    }

    /** What the walk has come to, and whether it goes on. */
    ghost function Now(going: bool): Progress<Walk>
      reads this, budget
    {
      Progress(routes, budget.remaining, going)
    }

    /** What is ahead of it. */
    ghost function Ahead(depth: nat): seq<Event<Walk>>
      requires RowsInRange(g) && pathNodes != [] && depth <= targetDepth
      reads this
    {
      Trace(g, q, goalIndex, pathNodes, pathSlots, targetDepth - depth)
    }

    method Walk(node: nat, depth: nat) returns (keepGoing: bool)
      requires At(node, depth)
      modifies this, budget
      ensures onPath == old(onPath) && pathNodes == old(pathNodes) && pathSlots == old(pathSlots)
      ensures Now(keepGoing) == Run(old(Now(true)), old(Ahead(depth)), maxRoutes)
      decreases targetDepth - depth, 1, 0
    {
      ghost var whole := Run(Now(true), Ahead(depth), maxRoutes);
      if node == goalIndex {
        if depth == targetDepth {
          OneFound(Now(true), Routes.Walk(pathNodes, pathSlots), maxRoutes);
          if |routes| >= maxRoutes { return false; }
          routes := routes + [Routes.Walk(pathNodes, pathSlots)];
        }
        return true;
      }
      var remaining := targetDepth - depth;
      if remaining <= 0 { return true; }
      assert GoodRow(g, node);
      for slot := g.offsets[node] to g.offsets[node + 1]
        invariant onPath == old(onPath) && pathNodes == old(pathNodes) && pathSlots == old(pathSlots)
        invariant Run(Now(true), TraceFrom(g, q, goalIndex, pathNodes, pathSlots, remaining, slot), maxRoutes) == whole
      {
        ghost var behind := TraceBehind(g, q, goalIndex, pathNodes, pathSlots, remaining, slot);
        RunConcat(Now(true), [Read] + behind, TraceFrom(g, q, goalIndex, pathNodes, pathSlots, remaining, slot + 1), maxRoutes);
        keepGoing := ReadSlot(node, depth, slot);
        if !keepGoing { return false; }
      }
      return true;
    }

    /** Charges one slot and, when it is entered, walks on behind it. */
    method ReadSlot(node: nat, depth: nat, slot: nat) returns (keepGoing: bool)
      requires At(node, depth) && depth < targetDepth && node != goalIndex && InRow(g, node, slot)
      modifies this, budget
      ensures onPath == old(onPath) && pathNodes == old(pathNodes) && pathSlots == old(pathSlots)
      ensures Now(keepGoing) == Run(old(Now(true)),
        [Read] + old(TraceBehind(g, q, goalIndex, pathNodes, pathSlots, targetDepth - depth, slot)), maxRoutes)
      decreases targetDepth - depth, 0, 1
    {
      ghost var behind := TraceBehind(g, q, goalIndex, pathNodes, pathSlots, targetDepth - depth, slot);
      OneRead(Now(true), behind, maxRoutes);
      if budget.remaining <= 0 { return false; }
      budget.remaining := budget.remaining - 1;
      var enter := MayEnter(node, depth, slot);
      if !enter { return true; }
      keepGoing := Enter(g.neighbors[slot], slot, depth);
    }

    /** The four tests a slot must pass to be entered. */
    method MayEnter(node: nat, depth: nat, slot: nat) returns (enter: bool)
      requires At(node, depth) && depth < targetDepth && node != goalIndex && InRow(g, node, slot)
      ensures enter <==> Enters(g, q, goalIndex, pathNodes, targetDepth - depth, slot)
    {
      var remaining := targetDepth - depth;
      var neighbor := g.neighbors[slot];
      if neighbor in onPath { return false; }
      if g.nodeIds[neighbor] < 0 && neighbor != goalIndex { return false; }
      PrunedIsNotMet(g, q, goalIndex, maxDepth, distances, neighbor, remaining - 1);
      if TooFar(distances, neighbor, remaining - 1) { return false; }
      NothingExcluded(q, g.nodeIds[node], g.nodeIds[neighbor], g.evidenceReleaseIds[slot]);
      enter := q.filter(g.edgeRoleA[slot], g.edgeRoleB[slot]);
    }

    /** Pushes one hop, walks on from it, and takes it back. */
    method Enter(neighbor: nat, slot: nat, depth: nat) returns (keepGoing: bool)
      requires depth < targetDepth && pathNodes != [] && At(pathNodes[|pathNodes| - 1], depth)
      requires Enters(g, q, goalIndex, pathNodes, targetDepth - depth, slot) && g.neighbors[slot] == neighbor
      requires pathNodes[|pathNodes| - 1] != goalIndex
      modifies this, budget
      ensures onPath == old(onPath) && pathNodes == old(pathNodes) && pathSlots == old(pathSlots)
      ensures Now(keepGoing) == Run(old(Now(true)),
        old(TraceBehind(g, q, goalIndex, pathNodes, pathSlots, targetDepth - depth, slot)), maxRoutes)
      decreases targetDepth - depth, 0, 0
    {
      onPath := onPath + {neighbor};
      pathNodes := pathNodes + [neighbor];
      pathSlots := pathSlots + [slot];
      keepGoing := Walk(neighbor, depth + 1);
      pathNodes := pathNodes[..|pathNodes| - 1];
      pathSlots := pathSlots[..|pathSlots| - 1];
      onPath := onPath - {neighbor};
    }
  }

  lemma OneItem<T>(item: T)
    ensures Items([Found(item)]) == [item] && Reads([Found(item)]) == 0
  {
    var log: seq<Event<T>> := [Found(item)];
    assert log[1..] == [];
  }

  lemma OneFound<T>(p: Progress<T>, item: T, cap: int)
    requires p.going
    ensures Run(p, [Found(item)], cap) == After(p, Found(item), cap)
  {
    assert [Found(item)][1..] == [];
  }

  lemma OneRead<T>(p: Progress<T>, behind: seq<Event<T>>, cap: int)
    requires p.going
    ensures Run(p, [Read] + behind, cap)
         == if p.left <= 0 then p.(going := false) else Run(p.(left := p.left - 1), behind, cap)
  {
    assert ([Read] + behind)[0] == Read && ([Read] + behind)[1..] == behind;
  }
}
