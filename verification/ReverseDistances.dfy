/** The budgeted search outward from the goal that guides the route enumeration. */
module ReverseDistances {
  import opened Text
  import opened PathfindingGraph
  import opened Routes
  import opened BudgetedRun
  import opened RowSums
  import FindPath

  /** Slot reads still allowed, shared by every stage of one recommendation. */
  class Budget {
    var remaining: int

    constructor (maxExpansions: int)
      ensures remaining == maxExpansions
    {
      remaining := maxExpansions;
    }
  }

  /** The recommendation engine excludes no edges and its filters do not care about direction. */
  ghost predicate Unrestricted(q: Query) {
    Symmetric(q.filter) && ExcludesNothing(q.excludes)
  }

  ghost predicate ExcludesNothing(excludes: (int, int, int) -> bool) {
    forall a: int, b: int, r: int :: !excludes(a, b, r)
  }

  /** Search continues out of the goal and out of real people only. */
  predicate Expandable(g: Graph, goal: nat, v: nat)
    requires v < |g.nodeIds|
  {
    v == goal || !Virtual(g, v)
  }

  predicate Usable(g: Graph, q: Query, v: nat, s: nat)
    requires RowsInRange(g)
  {
    InRow(g, v, s) && q.filter(g.edgeRoleA[s], g.edgeRoleB[s])
  }

  // ---------- What the search finds ----------

  /** A usable slot leads from `u` to `v`. */
  ghost predicate Leads(g: Graph, q: Query, goal: nat, u: nat, s: nat, v: nat)
    requires RowsInRange(g)
  {
    u < |g.nodeIds| && Expandable(g, goal, u) && Usable(g, q, u, s) && g.neighbors[s] == v
  }

  /** Reading slots outward from the goal, `v` is met within `k` hops. */
  ghost predicate Spreads(g: Graph, q: Query, goal: nat, v: nat, k: nat)
    requires RowsInRange(g)
    decreases k
  {
    v == goal || (k > 0 && exists u: nat, s: nat {:trigger Leads(g, q, goal, u, s, v)} ::
                    Leads(g, q, goal, u, s, v) && Spreads(g, q, goal, u, k - 1))
  }

  lemma {:induction false} SpreadsMore(g: Graph, q: Query, goal: nat, v: nat, k: nat, m: nat)
    requires RowsInRange(g) && Spreads(g, q, goal, v, k) && k <= m
    ensures Spreads(g, q, goal, v, m)
    decreases k
  {
    if v != goal {
      var u: nat, s: nat :| Leads(g, q, goal, u, s, v) && Spreads(g, q, goal, u, k - 1);
      SpreadsMore(g, q, goal, u, k - 1, m - 1);
    }
  }

  /** `distances` knows, up to `maxDepth`, exactly how many hops out every node is met. */
  ghost predicate Measures(g: Graph, q: Query, goal: nat, maxDepth: int, distances: map<nat, nat>)
    requires RowsInRange(g)
  {
    && goal in distances && distances[goal] == 0
    && (forall v :: v in distances ==> v < |g.nodeIds| && (v == goal || distances[v] <= maxDepth))
    && (forall v: nat, k: nat {:trigger Spreads(g, q, goal, v, k)} :: k <= maxDepth ==>
          (Spreads(g, q, goal, v, k) <==> v in distances && distances[v] <= k))
  }

  /** The rows the search reads: those of the nodes it may expand and meets before `maxDepth`. */
  ghost predicate Expanded(g: Graph, q: Query, goal: nat, maxDepth: int, v: nat)
    requires RowsInRange(g)
  {
    v < |g.nodeIds| && Expandable(g, goal, v) && maxDepth > 0 && Spreads(g, q, goal, v, maxDepth - 1)
  }

  ghost function ExpandedNodes(g: Graph, q: Query, goal: nat, maxDepth: int): set<nat>
    requires RowsInRange(g)
  {
    set v: nat | v < |g.nodeIds| && Expanded(g, q, goal, maxDepth, v)
  }

  /** How many slots the whole search reads. */
  ghost function GuideCost(g: Graph, q: Query, goal: nat, maxDepth: int): nat
    requires RowsInRange(g)
  {
    RowsSize(g, ExpandedNodes(g, q, goal, maxDepth), |g.nodeIds|)
  }

  // ---------- The state of the search ----------

  ghost predicate Sound(g: Graph, q: Query, goal: nat, distances: map<nat, nat>)
    requires RowsInRange(g)
  {
    && goal in distances
    && (forall v :: v in distances ==> v < |g.nodeIds| && (distances[v] == 0 <==> v == goal))
    && (forall v :: v in distances ==> Spreads(g, q, goal, v, distances[v]))
  }

  /** Every usable slot of `v` before `upTo` leads to a node at most one hop further out. */
  ghost predicate Scanned(g: Graph, q: Query, distances: map<nat, nat>, v: nat, upTo: nat)
    requires RowsInRange(g) && v in distances
  {
    forall s: nat :: s < upTo && Usable(g, q, v, s) ==>
      g.neighbors[s] in distances && distances[g.neighbors[s]] <= distances[v] + 1
  }

  ghost predicate ScannedBelow(g: Graph, q: Query, goal: nat, distances: map<nat, nat>, level: nat)
    requires RowsInRange(g)
  {
    forall v {:trigger Scanned(g, q, distances, v, |g.neighbors|)} ::
      v in distances && v < |g.nodeIds| && distances[v] < level && Expandable(g, goal, v) ==>
        Scanned(g, q, distances, v, |g.neighbors|)
  }

  /** Once the search has scanned every level below `maxDepth`, it has missed nothing. */
  lemma {:induction false} SpreadIsMeasured(
      g: Graph, q: Query, goal: nat, distances: map<nat, nat>, maxDepth: int, v: nat, k: nat)
    requires RowsInRange(g) && Sound(g, q, goal, distances)
    requires maxDepth >= 0 ==> ScannedBelow(g, q, goal, distances, maxDepth)
    requires k <= maxDepth && Spreads(g, q, goal, v, k)
    ensures v in distances && distances[v] <= k
    decreases k
  {
    if v != goal {
      var u: nat, s: nat :| Leads(g, q, goal, u, s, v) && Spreads(g, q, goal, u, k - 1);
      SpreadIsMeasured(g, q, goal, distances, maxDepth, u, k - 1);
      assert Scanned(g, q, distances, u, |g.neighbors|);
      assert InRow(g, u, s);
    }
  }

  lemma SoundGrows(g: Graph, q: Query, goal: nat, distances: map<nat, nat>, node: nat, s: nat)
    requires RowsInRange(g) && Sound(g, q, goal, distances)
    requires node in distances && Usable(g, q, node, s) && Expandable(g, goal, node)
    requires g.neighbors[s] !in distances
    ensures Sound(g, q, goal, distances[g.neighbors[s] := distances[node] + 1])
  {
    assert Leads(g, q, goal, node, s, g.neighbors[s]);
  }

  lemma ScannedExtends(g: Graph, q: Query, distances: map<nat, nat>, later: map<nat, nat>, v: nat, upTo: nat)
    requires RowsInRange(g) && v in distances && FindPath.Extends(distances, later) && Scanned(g, q, distances, v, upTo)
    ensures Scanned(g, q, later, v, upTo)
  {
    forall s: nat | s < upTo && Usable(g, q, v, s)
      ensures g.neighbors[s] in later && later[g.neighbors[s]] <= later[v] + 1
    {
      assert g.neighbors[s] in distances;
    }
  }

  /** The nodes met at `level`, each once. */
  ghost predicate Front(layer: seq<nat>, distances: map<nat, nat>, level: nat) {
    FindPath.IsLayer(layer, distances, level) && Distinct(layer)
  }

  /** The state of the search while the nodes at `level` are being expanded into `next`. */
  ghost predicate Wave(g: Graph, q: Query, goal: nat, distances: map<nat, nat>, level: nat, frontier: seq<nat>, next: seq<nat>)
    requires RowsInRange(g)
  {
    && (forall v :: v in distances ==> distances[v] <= level + 1)
    && ScannedBelow(g, q, goal, distances, level)
    && Front(frontier, distances, level)
    && Front(next, distances, level + 1)
  }

  lemma ScannedBelowExtends(g: Graph, q: Query, goal: nat, distances: map<nat, nat>, level: nat, n: nat)
    requires RowsInRange(g) && ScannedBelow(g, q, goal, distances, level) && n !in distances
    ensures ScannedBelow(g, q, goal, distances[n := level + 1], level)
  {
    var later := distances[n := level + 1];
    forall v | v in later && v < |g.nodeIds| && later[v] < level && Expandable(g, goal, v)
      ensures Scanned(g, q, later, v, |g.neighbors|)
    {
      assert Scanned(g, q, distances, v, |g.neighbors|);
      ScannedExtends(g, q, distances, later, v, |g.neighbors|);
    }
  }

  lemma FrontsGrow(distances: map<nat, nat>, level: nat, frontier: seq<nat>, next: seq<nat>, n: nat)
    requires Front(frontier, distances, level) && Front(next, distances, level + 1) && n !in distances
    ensures Front(frontier, distances[n := level + 1], level)
    ensures Front(next + [n], distances[n := level + 1], level + 1)
  {
    forall v | v in distances[n := level + 1] && distances[n := level + 1][v] == level + 1 ensures v in next + [n] {
      if v != n { assert v in next; }
    }
  }

  lemma WaveGrows(g: Graph, q: Query, goal: nat, distances: map<nat, nat>, level: nat, frontier: seq<nat>, next: seq<nat>, n: nat)
    requires RowsInRange(g) && Wave(g, q, goal, distances, level, frontier, next) && n !in distances
    ensures Wave(g, q, goal, distances[n := level + 1], level, frontier, next + [n])
    ensures FindPath.Extends(distances, distances[n := level + 1])
  {
    ScannedBelowExtends(g, q, goal, distances, level, n);
    FrontsGrow(distances, level, frontier, next, n);
  }

  lemma ScannedOneMore(g: Graph, q: Query, distances: map<nat, nat>, node: nat, slot: nat)
    requires RowsInRange(g) && node in distances && Usable(g, q, node, slot) && Scanned(g, q, distances, node, slot)
    requires g.neighbors[slot] !in distances
    ensures Scanned(g, q, distances[g.neighbors[slot] := distances[node] + 1], node, slot + 1)
  {
    ScannedExtends(g, q, distances, distances[g.neighbors[slot] := distances[node] + 1], node, slot);
  }

  lemma WaveAdvances(g: Graph, q: Query, goal: nat, distances: map<nat, nat>, level: nat, frontier: seq<nat>, next: seq<nat>)
    requires RowsInRange(g) && Wave(g, q, goal, distances, level, frontier, next)
    requires Swept(g, q, goal, distances, frontier, |frontier|)
    ensures Wave(g, q, goal, distances, level + 1, next, [])
  {
    forall v | v in distances && v < |g.nodeIds| && distances[v] < level + 1 && Expandable(g, goal, v)
      ensures Scanned(g, q, distances, v, |g.neighbors|)
    {
      if distances[v] == level {
        assert v in frontier;
        assert Settled(g, q, goal, distances, v);
      }
    }
  }

  /** Every node met since is met at this distance. */
  ghost predicate MetAt(before: map<nat, nat>, distances: map<nat, nat>, depth: nat) {
    forall v :: v in distances && v !in before ==> distances[v] == depth
  }

  // ---------- One row ----------

  /** What holds when the slots of `node` before `slot` have been read. */
  ghost predicate Reading(g: Graph, q: Query, goal: nat, distances0: map<nat, nat>, distances: map<nat, nat>, depth: nat,
                          frontier: seq<nat>, next: seq<nat>, node: nat, slot: nat)
    requires RowsInRange(g)
  {
    && Sound(g, q, goal, distances) && Wave(g, q, goal, distances, depth, frontier, next)
    && FindPath.Extends(distances0, distances) && MetAt(distances0, distances, depth + 1)
    && node in distances && distances[node] == depth && Scanned(g, q, distances, node, slot)
  }

  /** A slot that is not usable, or leads to a node already met, changes nothing. */
  lemma ReadOn(g: Graph, q: Query, goal: nat, distances0: map<nat, nat>, distances: map<nat, nat>, depth: nat,
               frontier: seq<nat>, next: seq<nat>, node: nat, slot: nat)
    requires RowsInRange(g) && Reading(g, q, goal, distances0, distances, depth, frontier, next, node, slot)
    requires Usable(g, q, node, slot) ==> g.neighbors[slot] in distances
    ensures Reading(g, q, goal, distances0, distances, depth, frontier, next, node, slot + 1)
  {
  }

  /** A node met for the first time is put one hop further out. */
  lemma ReadNew(g: Graph, q: Query, goal: nat, distances0: map<nat, nat>, distances: map<nat, nat>, depth: nat,
                frontier: seq<nat>, next: seq<nat>, node: nat, slot: nat)
    requires RowsInRange(g) && Reading(g, q, goal, distances0, distances, depth, frontier, next, node, slot)
    requires Usable(g, q, node, slot) && Expandable(g, goal, node) && g.neighbors[slot] !in distances
    ensures var n := g.neighbors[slot];
      Reading(g, q, goal, distances0, distances[n := depth + 1], depth, frontier, next + [n], node, slot + 1)
  {
    SoundGrows(g, q, goal, distances, node, slot);
    WaveGrows(g, q, goal, distances, depth, frontier, next, g.neighbors[slot]);
    ScannedOneMore(g, q, distances, node, slot);
  }

  /** Reads one node's slots, each charged before it is looked at. */
  method ScanRow(g: Graph, goal: nat, q: Query, node: nat, depth: nat, budget: Budget,
                 distances0: map<nat, nat>, next0: seq<nat>, ghost frontier: seq<nat>)
    returns (distances: map<nat, nat>, next: seq<nat>, exhausted: bool)
    requires RowsInRange(g) && Sound(g, q, goal, distances0)
    requires Wave(g, q, goal, distances0, depth, frontier, next0)
    requires node in distances0 && distances0[node] == depth && Expandable(g, goal, node)
    modifies budget
    ensures exhausted <==> !Affords(old(budget.remaining), RowLength(g, node))
    ensures !exhausted ==> budget.remaining == old(budget.remaining) - RowLength(g, node)
    ensures exhausted ==> budget.remaining <= 0 && 0 <= old(budget.remaining) - budget.remaining <= Max(0, old(budget.remaining))
    ensures Sound(g, q, goal, distances) && Wave(g, q, goal, distances, depth, frontier, next)
    ensures FindPath.Extends(distances0, distances) && MetAt(distances0, distances, depth + 1)
    ensures !exhausted ==> Scanned(g, q, distances, node, |g.neighbors|)
  {
    distances, next, exhausted := distances0, next0, false;
    assert GoodRow(g, node);
    for slot := g.offsets[node] to g.offsets[node + 1]
      invariant budget.remaining == old(budget.remaining) - (slot - g.offsets[node])
      invariant Affords(old(budget.remaining), slot - g.offsets[node])
      invariant Reading(g, q, goal, distances0, distances, depth, frontier, next, node, slot)
    {
      if budget.remaining <= 0 {
        exhausted := true;
        return;
      }
      budget.remaining := budget.remaining - 1;
      var neighbor := g.neighbors[slot];
      if !q.filter(g.edgeRoleA[slot], g.edgeRoleB[slot]) || neighbor in distances {
        ReadOn(g, q, goal, distances0, distances, depth, frontier, next, node, slot);
        continue;
      }
      ReadNew(g, q, goal, distances0, distances, depth, frontier, next, node, slot);
      distances := distances[neighbor := depth + 1];
      next := next + [neighbor];
    }
  }

  // ---------- One frontier ----------

  ghost predicate Settled(g: Graph, q: Query, goal: nat, distances: map<nat, nat>, v: nat) {
    RowsInRange(g) && (v < |g.nodeIds| && Expandable(g, goal, v) ==>
      v in distances && Scanned(g, q, distances, v, |g.neighbors|))
  }

  /** Everything in the frontier that may be expanded, up to place `upTo`, has been. */
  ghost predicate Swept(g: Graph, q: Query, goal: nat, distances: map<nat, nat>, frontier: seq<nat>, upTo: nat) {
    forall j {:trigger frontier[j]} :: 0 <= j < upTo <= |frontier| ==> Settled(g, q, goal, distances, frontier[j])
  }

  lemma SweptExtends(g: Graph, q: Query, goal: nat, distances: map<nat, nat>, later: map<nat, nat>, frontier: seq<nat>, upTo: nat)
    requires upTo < |frontier|
    requires Swept(g, q, goal, distances, frontier, upTo) && FindPath.Extends(distances, later)
    requires Settled(g, q, goal, later, frontier[upTo])
    ensures Swept(g, q, goal, later, frontier, upTo + 1)
  {
    forall j | 0 <= j < upTo ensures Settled(g, q, goal, later, frontier[j]) {
      assert Settled(g, q, goal, distances, frontier[j]);
      if frontier[j] < |g.nodeIds| && Expandable(g, goal, frontier[j]) {
        ScannedExtends(g, q, distances, later, frontier[j], |g.neighbors|);
      }
    }
  }

  predicate InGraph(g: Graph, nodes: seq<nat>) {
    forall i :: 0 <= i < |nodes| ==> nodes[i] < |g.nodeIds|
  }

  /** The nodes of the frontier, up to place `upTo`, whose rows are read. */
  ghost function Opened(g: Graph, goal: nat, frontier: seq<nat>, upTo: nat): (r: set<nat>)
    requires upTo <= |frontier| && InGraph(g, frontier)
    ensures forall v :: v in r ==> v in frontier[..upTo]
  {
    set j | 0 <= j < upTo && Expandable(g, goal, frontier[j]) :: frontier[j]
  }

  lemma OpenedNext(g: Graph, goal: nat, frontier: seq<nat>, i: nat)
    requires i < |frontier| && Distinct(frontier) && InGraph(g, frontier)
    ensures frontier[i] !in Opened(g, goal, frontier, i)
    ensures Opened(g, goal, frontier, i + 1)
         == Opened(g, goal, frontier, i) + if Expandable(g, goal, frontier[i]) then {frontier[i]} else {}
  {
  }

  /** The slots read so far, when the rows of `nodes` are the rows read. */
  ghost function Spent(g: Graph, nodes: set<nat>): nat
    requires RowsInRange(g)
  {
    RowsSize(g, nodes, |g.nodeIds|)
  }

  /** One more row among those the search is to read still fits into its whole cost. */
  lemma OneMoreSpent(g: Graph, nodes: set<nat>, v: nat, all: set<nat>)
    requires RowsInRange(g) && v < |g.nodeIds| && v !in nodes && nodes <= all && v in all
    ensures Spent(g, nodes + {v}) == Spent(g, nodes) + RowLength(g, v) <= Spent(g, all)
  {
    OneMoreRow(g, nodes, v, |g.nodeIds|);
    MoreRows(g, nodes + {v}, all, |g.nodeIds|);
  }

  /** Expands a whole frontier below the depth bound. `done` are the rows read before, `all` those
      the search is to read in the end, `initial` the budget it began with. */
  method ExpandFrontier(g: Graph, goal: nat, q: Query, maxDepth: int, budget: Budget,
                        distances0: map<nat, nat>, frontier: seq<nat>, ghost level: nat,
                        ghost done: set<nat>, ghost all: set<nat>, ghost initial: int)
    returns (distances: map<nat, nat>, next: seq<nat>, exhausted: bool)
    requires RowsInRange(g) && Sound(g, q, goal, distances0)
    requires Wave(g, q, goal, distances0, level, frontier, [])
    requires budget.remaining == initial - Spent(g, done) && Affords(initial, Spent(g, done))
    requires ReadBelow(g, goal, distances0, level, done)
    requires done <= all && (level < maxDepth ==> Opened(g, goal, frontier, |frontier|) <= all)
    modifies budget
    ensures exhausted ==> !Affords(initial, Spent(g, all)) && 0 <= initial - budget.remaining <= Max(0, initial)
    ensures !exhausted ==>
      var now := if level < maxDepth then done + Opened(g, goal, frontier, |frontier|) else done;
      budget.remaining == initial - Spent(g, now) && Affords(initial, Spent(g, now))
    ensures Sound(g, q, goal, distances)
    ensures FindPath.Extends(distances0, distances) && MetAt(distances0, distances, level + 1)
    ensures !exhausted && level < maxDepth ==> Wave(g, q, goal, distances, level + 1, next, [])
    ensures !exhausted && level >= maxDepth ==> distances == distances0 && next == []
  {
    distances, next, exhausted := distances0, [], false;
    ghost var now := done;
    for i := 0 to |frontier|
      invariant !exhausted && now == (if level < maxDepth then done + Opened(g, goal, frontier, i) else done)
      invariant budget.remaining == initial - Spent(g, now) && Affords(initial, Spent(g, now))
      invariant Sound(g, q, goal, distances) && Wave(g, q, goal, distances, level, frontier, next)
      invariant FindPath.Extends(distances0, distances) && MetAt(distances0, distances, level + 1)
      invariant level < maxDepth ==> Swept(g, q, goal, distances, frontier, i)
      invariant level >= maxDepth ==> distances == distances0 && next == []
    {
      var node := frontier[i];
      var depth := distances[node];
      if depth >= maxDepth { continue; }
      ghost var before := distances;
      OpenedNext(g, goal, frontier, i);
      if depth > 0 && g.nodeIds[node] < 0 {
        SweptExtends(g, q, goal, before, distances, frontier, i);
        continue;
      }
      assert node in Opened(g, goal, frontier, |frontier|);
      OneMoreSpent(g, now, node, all);
      distances, next, exhausted := ScanRow(g, goal, q, node, depth, budget, distances, next, frontier);
      if exhausted { return; }
      now := now + {node};
      SweptExtends(g, q, goal, before, distances, frontier, i);
    }
    if level < maxDepth {
      WaveAdvances(g, q, goal, distances, level, frontier, next);
    }
  }

  // ---------- The whole search ----------

  /** The rows read before `level`: those of the expandable nodes nearer than it. */
  ghost predicate ReadBelow(g: Graph, goal: nat, distances: map<nat, nat>, level: int, done: set<nat>) {
    forall v: nat :: v in done <==> v in distances && v < |g.nodeIds| && distances[v] < level && Expandable(g, goal, v)
  }

  lemma GuideIsExact(g: Graph, q: Query, goal: nat, distances: map<nat, nat>, maxDepth: int)
    requires RowsInRange(g) && Sound(g, q, goal, distances)
    requires maxDepth >= 0 ==> ScannedBelow(g, q, goal, distances, maxDepth)
    requires forall v :: v in distances ==> v == goal || distances[v] <= maxDepth
    ensures Measures(g, q, goal, maxDepth, distances)
  {
    forall v: nat, k: nat | k <= maxDepth
      ensures Spreads(g, q, goal, v, k) <==> v in distances && distances[v] <= k
    {
      if Spreads(g, q, goal, v, k) { SpreadIsMeasured(g, q, goal, distances, maxDepth, v, k); }
      if v in distances && distances[v] <= k { SpreadsMore(g, q, goal, v, distances[v], k); }
    }
  }

  /** The search is over: no node is left to expand below `maxDepth`. */
  lemma NothingLeft(g: Graph, q: Query, goal: nat, distances: map<nat, nat>, level: nat, maxDepth: int)
    requires RowsInRange(g) && Wave(g, q, goal, distances, level, [], [])
    ensures maxDepth >= 0 ==> ScannedBelow(g, q, goal, distances, maxDepth)
    ensures forall v :: v in distances ==> distances[v] < level
  {
    forall v | v in distances ensures distances[v] < level {
      assert distances[v] != level && distances[v] != level + 1;
    }
    forall v | v in distances && v < |g.nodeIds| && distances[v] < maxDepth && Expandable(g, goal, v)
      ensures Scanned(g, q, distances, v, |g.neighbors|)
    {
    }
  }

  lemma OpensExpanded(g: Graph, q: Query, goal: nat, maxDepth: int, distances: map<nat, nat>, frontier: seq<nat>, level: nat)
    requires RowsInRange(g) && Sound(g, q, goal, distances) && Front(frontier, distances, level) && level < maxDepth
    ensures InGraph(g, frontier)
    ensures Opened(g, goal, frontier, |frontier|) <= ExpandedNodes(g, q, goal, maxDepth)
  {
    forall v | v in Opened(g, goal, frontier, |frontier|) ensures v in ExpandedNodes(g, q, goal, maxDepth) {
      SpreadsMore(g, q, goal, v, level, maxDepth - 1);
    }
  }

  lemma ReadOneLevel(g: Graph, goal: nat, before: map<nat, nat>, distances: map<nat, nat>, frontier: seq<nat>, level: nat, done: set<nat>)
    requires ReadBelow(g, goal, before, level, done) && Front(frontier, before, level) && InGraph(g, frontier)
    requires FindPath.Extends(before, distances)
    requires MetAt(before, distances, level + 1)
    ensures ReadBelow(g, goal, distances, level + 1, done + Opened(g, goal, frontier, |frontier|))
  {
    forall v: nat ensures v in done + Opened(g, goal, frontier, |frontier|)
      <==> v in distances && v < |g.nodeIds| && distances[v] < level + 1 && Expandable(g, goal, v)
    {
      if v in before && before[v] == level { assert v in frontier; }
    }
  }

  /** At the end the rows read are the rows the search is for. */
  lemma AllRead(g: Graph, q: Query, goal: nat, maxDepth: int, distances: map<nat, nat>, done: set<nat>)
    requires RowsInRange(g) && Measures(g, q, goal, maxDepth, distances) && ReadBelow(g, goal, distances, maxDepth, done)
    ensures done == ExpandedNodes(g, q, goal, maxDepth)
  {
    forall v: nat ensures v in done <==> v in ExpandedNodes(g, q, goal, maxDepth) {
      if maxDepth > 0 {
        assert Spreads(g, q, goal, v, maxDepth - 1) <==> v in distances && distances[v] <= maxDepth - 1;
      }
    }
  }

  method ReverseDistances(g: Graph, goalIndex: nat, maxDepth: int, budget: Budget, q: Query)
    returns (distances: map<nat, nat>, exhausted: bool)
    requires RowsInRange(g) && goalIndex < |g.nodeIds|
    modifies budget
    ensures exhausted <==> !Affords(old(budget.remaining), GuideCost(g, q, goalIndex, maxDepth))
    ensures 0 <= old(budget.remaining) - budget.remaining <= Max(0, old(budget.remaining))
    ensures !exhausted ==> budget.remaining == old(budget.remaining) - GuideCost(g, q, goalIndex, maxDepth)
    ensures !exhausted ==> Measures(g, q, goalIndex, maxDepth, distances)
  {
    distances := map[goalIndex := 0];
    var frontier := [goalIndex];
    exhausted := false;
    ghost var level: nat := 0;
    ghost var done: set<nat> := {};
    ghost var all := ExpandedNodes(g, q, goalIndex, maxDepth);
    assert Spent(g, done) == 0 by { MoreRows(g, {}, {}, |g.nodeIds|); NoRows(g, |g.nodeIds|); }
    while |frontier| > 0 && !exhausted
      invariant 0 <= old(budget.remaining) - budget.remaining <= Max(0, old(budget.remaining))
      invariant exhausted ==> !Affords(old(budget.remaining), Spent(g, all))
      invariant !exhausted ==> budget.remaining == old(budget.remaining) - Spent(g, done) && Affords(old(budget.remaining), Spent(g, done))
      invariant Sound(g, q, goalIndex, distances) && done <= all
      invariant !exhausted && frontier != [] ==>
        Wave(g, q, goalIndex, distances, level, frontier, []) && level <= Max(0, maxDepth) && ReadBelow(g, goalIndex, distances, level, done)
      invariant !exhausted ==> forall v :: v in distances ==> v == goalIndex || distances[v] <= maxDepth
      invariant !exhausted && frontier == [] ==>
        (maxDepth >= 0 ==> ScannedBelow(g, q, goalIndex, distances, maxDepth)) && ReadBelow(g, goalIndex, distances, maxDepth, done)
      decreases !exhausted, Max(0, maxDepth) + 1 - level, |frontier|
    {
      if level < maxDepth { OpensExpanded(g, q, goalIndex, maxDepth, distances, frontier, level); }
      ghost var before, layer := distances, frontier;
      distances, frontier, exhausted :=
        ExpandFrontier(g, goalIndex, q, maxDepth, budget, distances, frontier, level, done, all, old(budget.remaining));
      if !exhausted && level < maxDepth {
        ReadOneLevel(g, goalIndex, before, distances, layer, level, done);
        done := done + Opened(g, goalIndex, layer, |layer|);
        level := level + 1;
        if frontier == [] {
          NothingLeft(g, q, goalIndex, distances, level, maxDepth);
        }
      }
    }
    if !exhausted {
      GuideIsExact(g, q, goalIndex, distances, maxDepth);
      AllRead(g, q, goalIndex, maxDepth, distances, done);
    }
  }

  // ---------- When the search outward measures the way in ----------

  /** `distances` knows, up to `maxDepth`, exactly how far every node is from the goal. */
  ghost predicate Guides(g: Graph, q: Query, goal: nat, maxDepth: int, distances: map<nat, nat>)
    requires RowsInRange(g)
  {
    && goal in distances && distances[goal] == 0
    && (forall v :: v in distances ==> v < |g.nodeIds| && (v == goal || distances[v] <= maxDepth))
    && (forall v: nat, k: nat {:trigger Reaches(g, q, goal, v, k)} :: k <= maxDepth ==>
          (Reaches(g, q, goal, v, k) <==> v in distances && distances[v] <= k))
  }

  lemma NothingExcluded(q: Query, a: int, b: int, r: int)
    requires ExcludesNothing(q.excludes)
    ensures !q.excludes(a, b, r)
  {
  }

  /** A usable slot out of an expandable node, read the other way, is a step toward the goal. */
  lemma StepBack(g: Graph, q: Query, goal: nat, u: nat, s: nat, v: nat) returns (t: nat)
    requires RowsInRange(g) && Undirected(g) && Unrestricted(q) && Leads(g, q, goal, u, s, v)
    ensures Step(g, q, goal, v, t) && g.neighbors[t] == u
  {
    assert HasMirror(g, u, s);
    t :| Mirrors(g, u, s, t);
    NothingExcluded(q, g.nodeIds[v], g.nodeIds[u], g.evidenceReleaseIds[t]);
  }

  /** A step toward the goal, read the other way, is a usable slot out of an expandable node. */
  lemma StepForth(g: Graph, q: Query, goal: nat, v: nat, s: nat) returns (t: nat)
    requires RowsInRange(g) && Undirected(g) && Unrestricted(q) && Step(g, q, goal, v, s)
    ensures Leads(g, q, goal, g.neighbors[s], t, v)
  {
    assert HasMirror(g, v, s);
    t :| Mirrors(g, v, s, t);
  }

  /** Over an undirected graph and for a symmetric filter, spreading outward is reaching inward. */
  lemma {:induction false} SpreadsIffReaches(g: Graph, q: Query, goal: nat, v: nat, k: nat)
    requires RowsInRange(g) && Undirected(g) && Unrestricted(q)
    ensures Spreads(g, q, goal, v, k) <==> Reaches(g, q, goal, v, k)
    decreases k
  {
    if v != goal && k > 0 {
      if Spreads(g, q, goal, v, k) {
        var u: nat, s: nat :| Leads(g, q, goal, u, s, v) && Spreads(g, q, goal, u, k - 1);
        SpreadsIffReaches(g, q, goal, u, k - 1);
        var t := StepBack(g, q, goal, u, s, v);
      }
      if Reaches(g, q, goal, v, k) {
        var s: nat :| Step(g, q, goal, v, s) && Reaches(g, q, goal, g.neighbors[s], k - 1);
        SpreadsIffReaches(g, q, goal, g.neighbors[s], k - 1);
        var t := StepForth(g, q, goal, v, s);
      }
    }
  }

  /** So the search's measurements guide the walk toward the goal. */
  lemma MeasuresGuide(g: Graph, q: Query, goal: nat, maxDepth: int, distances: map<nat, nat>)
    requires RowsInRange(g) && Undirected(g) && Unrestricted(q) && Measures(g, q, goal, maxDepth, distances)
    ensures Guides(g, q, goal, maxDepth, distances)
  {
    forall v: nat, k: nat | k <= maxDepth
      ensures Reaches(g, q, goal, v, k) <==> v in distances && distances[v] <= k
    {
      SpreadsIffReaches(g, q, goal, v, k);
    }
  }
}
