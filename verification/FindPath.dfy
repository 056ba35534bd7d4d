/** The plain hop-bounded breadth-first search, and the album-to-album search around it. */
module FindPath {
  import opened Text
  import opened PathfindingGraph
  import opened Routes
  import opened SlotOrder

  datatype FailureReason = UnknownAlbum | NoPath

  datatype Result<+T> = Ok(value: T) | Err(reason: FailureReason)

  /** How a node was first reached. */
  datatype ParentStep = ParentStep(parent: nat, slot: nat)

  /** `parentOf` is a tree rooted at `start` in which `depth` counts hops. */
  ghost predicate Tree(g: Graph, q: Query, start: nat, goal: nat,
                       parentOf: map<nat, ParentStep>, depth: map<nat, nat>)
    requires RowsInRange(g)
  {
    && start in depth && depth[start] == 0
    && (forall v :: v in depth ==> v < |g.nodeIds|)
    && (forall v {:trigger Linked(g, q, goal, parentOf, depth, v)} ::
          v in depth && v != start ==> Linked(g, q, goal, parentOf, depth, v))
  }

  ghost predicate Linked(g: Graph, q: Query, goal: nat, parentOf: map<nat, ParentStep>, depth: map<nat, nat>, v: nat)
    requires RowsInRange(g) && v in depth
  {
    && v in parentOf
    && parentOf[v].parent in depth
    && depth[v] == depth[parentOf[v].parent] + 1
    && Step(g, q, goal, parentOf[v].parent, parentOf[v].slot)
    && g.neighbors[parentOf[v].slot] == v
  }

  /** Every permitted step out of `v` leads to a node already reached, at most one hop deeper. */
  ghost predicate Explored(g: Graph, q: Query, goal: nat, depth: map<nat, nat>, v: nat, upTo: nat)
    requires RowsInRange(g) && v in depth
  {
    forall s: nat :: s < upTo && Step(g, q, goal, v, s) ==>
      g.neighbors[s] in depth && depth[g.neighbors[s]] <= depth[v] + 1
  }

  ghost predicate ExploredBelow(g: Graph, q: Query, goal: nat, depth: map<nat, nat>, level: nat)
    requires RowsInRange(g)
  {
    forall v {:trigger Explored(g, q, goal, depth, v, |g.neighbors|)} ::
      v in depth && depth[v] < level ==> Explored(g, q, goal, depth, v, |g.neighbors|)
  }

  /** `layer` lists exactly the nodes first reached at `level`. */
  ghost predicate IsLayer(layer: seq<nat>, depth: map<nat, nat>, level: nat) {
    && (forall i :: 0 <= i < |layer| ==> layer[i] in depth && depth[layer[i]] == level)
    && (forall v :: v in depth && depth[v] == level ==> v in layer)
  }

  /** If everything nearer than `level` was explored and the goal was not met, no walk that
      short leads there from any reached node. */
  lemma {:induction false} Sealed(g: Graph, q: Query, goal: nat, depth: map<nat, nat>, level: nat, v: nat, k: nat)
    requires RowsInRange(g) && ExploredBelow(g, q, goal, depth, level)
    requires goal !in depth && v in depth && depth[v] + k <= level
    ensures !Reaches(g, q, goal, v, k)
    decreases k
  {
    if k > 0 {
      assert Explored(g, q, goal, depth, v, |g.neighbors|);
      forall s: nat | Step(g, q, goal, v, s) ensures !Reaches(g, q, goal, g.neighbors[s], k - 1) {
        Sealed(g, q, goal, depth, level, g.neighbors[s], k - 1);
      }
    }
  }

  /** `later` keeps every node of `depth` where it was. */
  ghost predicate Extends(depth: map<nat, nat>, later: map<nat, nat>) {
    forall v :: v in depth ==> v in later && later[v] == depth[v]
  }

  lemma ExploredExtends(g: Graph, q: Query, goal: nat, depth: map<nat, nat>, later: map<nat, nat>, v: nat, upTo: nat)
    requires RowsInRange(g) && v in depth && Extends(depth, later) && Explored(g, q, goal, depth, v, upTo)
    ensures Explored(g, q, goal, later, v, upTo)
  {
    forall s: nat | s < upTo && Step(g, q, goal, v, s)
      ensures g.neighbors[s] in later && later[g.neighbors[s]] <= later[v] + 1
    {
      assert g.neighbors[s] in depth;
    }
  }

  /** The state of the search while the nodes at `hop` are being expanded into `next`. */
  ghost predicate Wave(g: Graph, q: Query, goal: nat, depth: map<nat, nat>, hop: nat, frontier: seq<nat>, next: seq<nat>)
    requires RowsInRange(g)
  {
    && goal !in depth
    && (forall v :: v in depth ==> depth[v] <= hop + 1)
    && ExploredBelow(g, q, goal, depth, hop)
    && IsLayer(frontier, depth, hop)
    && IsLayer(next, depth, hop + 1)
  }

  lemma WaveGrows(g: Graph, q: Query, goal: nat, depth: map<nat, nat>, hop: nat, frontier: seq<nat>, next: seq<nat>, n: nat)
    requires RowsInRange(g) && Wave(g, q, goal, depth, hop, frontier, next)
    requires n !in depth && n != goal
    ensures Wave(g, q, goal, depth[n := hop + 1], hop, frontier, next + [n])
    ensures Extends(depth, depth[n := hop + 1])
  {
    var later := depth[n := hop + 1];
    forall v | v in later && later[v] < hop ensures Explored(g, q, goal, later, v, |g.neighbors|) {
      assert Explored(g, q, goal, depth, v, |g.neighbors|);
      ExploredExtends(g, q, goal, depth, later, v, |g.neighbors|);
    }
    forall v | v in later && later[v] == hop + 1 ensures v in next + [n] {
      if v != n { assert v in next; }
    }
  }

  /** Once every node at `hop` is expanded, the wave moves on. */
  lemma WaveAdvances(g: Graph, q: Query, goal: nat, depth: map<nat, nat>, hop: nat, frontier: seq<nat>, next: seq<nat>)
    requires RowsInRange(g) && Wave(g, q, goal, depth, hop, frontier, next)
    requires forall i :: 0 <= i < |frontier| ==> Explored(g, q, goal, depth, frontier[i], |g.neighbors|)
    ensures Wave(g, q, goal, depth, hop + 1, next, [])
  {
    forall v | v in depth && depth[v] < hop + 1 ensures Explored(g, q, goal, depth, v, |g.neighbors|) {
      if depth[v] == hop {
        assert v in frontier;
      }
    }
  }

  lemma TreeGrows(g: Graph, q: Query, start: nat, goal: nat, parentOf: map<nat, ParentStep>,
                  depth: map<nat, nat>, node: nat, slot: nat)
    requires RowsInRange(g) && Tree(g, q, start, goal, parentOf, depth)
    requires node in depth && Step(g, q, goal, node, slot) && g.neighbors[slot] !in depth
    ensures Tree(g, q, start, goal, parentOf[g.neighbors[slot] := ParentStep(node, slot)],
                 depth[g.neighbors[slot] := depth[node] + 1])
  {
    var n := g.neighbors[slot];
    var parentOf' := parentOf[n := ParentStep(node, slot)];
    var depth' := depth[n := depth[node] + 1];
    forall v | v in depth' && v != start ensures Linked(g, q, goal, parentOf', depth', v) {
      if v != n { assert Linked(g, q, goal, parentOf, depth, v); }
    }
  }

  // ---------- Which of the shortest walks ----------

  /** `path` lists the slots by which the tree reaches each node. */
  ghost predicate Follows(parentOf: map<nat, ParentStep>, path: map<nat, seq<nat>>, start: nat) {
    && start in path && path[start] == []
    && forall v {:trigger Prolongs(parentOf, path, v)} :: v in path && v != start ==> Prolongs(parentOf, path, v)
  }

  ghost predicate Prolongs(parentOf: map<nat, ParentStep>, path: map<nat, seq<nat>>, v: nat)
    requires v in path
  {
    v in parentOf && parentOf[v].parent in path && path[v] == path[parentOf[v].parent] + [parentOf[v].slot]
  }

  /** Each node is reached by the soonest walk of its length. */
  ghost predicate Soonest(g: Graph, q: Query, start: nat, goal: nat, depth: map<nat, nat>, path: map<nat, seq<nat>>)
    requires RowsInRange(g)
  {
    && path.Keys == depth.Keys
    && forall v :: v in path ==> |path[v]| == depth[v] && NoneSooner(g, q, start, goal, v, path[v])
  }

  ghost predicate InOrder(layer: seq<nat>, path: map<nat, seq<nat>>) {
    && (forall i :: 0 <= i < |layer| ==> layer[i] in path)
    && forall i, j :: 0 <= i < j < |layer| ==> Sooner(path[layer[i]], path[layer[j]])
  }

  /** What was found comes sooner than anything through the slots still to be read. */
  ghost predicate Behind(next: seq<nat>, path: map<nat, seq<nat>>, before: seq<nat>, slot: nat) {
    forall i :: 0 <= i < |next| ==> next[i] in path && Sooner(path[next[i]], before + [slot])
  }

  /** The nodes of the frontier before the `i`-th are expanded. */
  ghost predicate Expanded(g: Graph, q: Query, goal: nat, depth: map<nat, nat>, frontier: seq<nat>, i: nat)
    requires RowsInRange(g)
  {
    forall j :: 0 <= j < i && j < |frontier| ==> frontier[j] in depth && Explored(g, q, goal, depth, frontier[j], |g.neighbors|)
  }

  /** What is known of the walks found while the row of the `i`-th frontier node is read. */
  ghost predicate Ranked(g: Graph, q: Query, start: nat, goal: nat, parentOf: map<nat, ParentStep>, depth: map<nat, nat>,
                         path: map<nat, seq<nat>>, frontier: seq<nat>, next: seq<nat>, i: nat, slot: nat)
    requires RowsInRange(g)
  {
    && Follows(parentOf, path, start) && Soonest(g, q, start, goal, depth, path)
    && InOrder(frontier, path) && InOrder(next, path) && Expanded(g, q, goal, depth, frontier, i)
    && (i < |frontier| ==> Behind(next, path, path[frontier[i]], slot))
  }

  /** A trail stays among the nodes reached as long as the search has gone that far. */
  lemma {:induction false} TrailStays(g: Graph, q: Query, start: nat, goal: nat, v: nat, w: Walk, depth: map<nat, nat>, hop: nat, n: nat)
    requires RowsInRange(g) && Trail(g, q, start, goal, v, w) && ExploredBelow(g, q, goal, depth, hop)
    requires start in depth && depth[start] == 0 && n <= hop && n <= |w.slots|
    ensures w.nodes[n] in depth && depth[w.nodes[n]] <= n
  {
    if n > 0 {
      TrailStays(g, q, start, goal, v, w, depth, hop, n - 1);
      assert Explored(g, q, goal, depth, w.nodes[n - 1], |g.neighbors|);
      assert g.neighbors[w.slots[n - 1]] == w.nodes[n];
    }
  }

  lemma StepsOn(g: Graph, q: Query, goal: nat, depth: map<nat, nat>, v: nat, s: nat)
    requires RowsInRange(g) && v in depth && Explored(g, q, goal, depth, v, |g.neighbors|) && Step(g, q, goal, v, s)
    ensures g.neighbors[s] in depth
  {
  }

  /** The last step of a trail to a new node is taken from the frontier. */
  lemma LastStep(g: Graph, q: Query, start: nat, goal: nat, n: nat, w: Walk, depth: map<nat, nat>, hop: nat, frontier: seq<nat>, next: seq<nat>)
    returns (u: nat, init: Walk)
    requires RowsInRange(g) && Wave(g, q, goal, depth, hop, frontier, next) && start in depth && depth[start] == 0
    requires n !in depth && Trail(g, q, start, goal, n, w) && |w.slots| == hop + 1
    ensures u in frontier && Trail(g, q, start, goal, u, init) && |init.slots| == hop
    ensures w.slots == init.slots + [w.slots[hop]] && Step(g, q, goal, u, w.slots[hop]) && g.neighbors[w.slots[hop]] == n
  {
    u := w.nodes[hop];
    init := Walk(w.nodes[..hop + 1], w.slots[..hop]);
    assert Step(g, q, goal, w.nodes[hop], w.slots[hop]) && g.neighbors[w.slots[hop]] == w.nodes[hop + 1];
    TrailStays(g, q, start, goal, n, w, depth, hop, hop);
    if depth[u] < hop { StepsOn(g, q, goal, depth, u, w.slots[hop]); }
    forall i | 0 <= i < hop
      ensures Step(g, q, goal, init.nodes[i], init.slots[i]) && g.neighbors[init.slots[i]] == init.nodes[i + 1]
    {
      assert init.slots[i] == w.slots[i];
    }
  }

  /** Such a step is taken from a later node of the frontier, or from this one's row at no earlier slot. */
  lemma FromFrontier(g: Graph, q: Query, goal: nat, depth: map<nat, nat>, path: map<nat, seq<nat>>, frontier: seq<nat>,
                     i: nat, slot: nat, u: nat, t: nat)
    requires RowsInRange(g) && InOrder(frontier, path) && Expanded(g, q, goal, depth, frontier, i) && i < |frontier|
    requires frontier[i] in depth && Explored(g, q, goal, depth, frontier[i], slot)
    requires u in frontier && Step(g, q, goal, u, t) && g.neighbors[t] !in depth
    ensures u in path && (Sooner(path[frontier[i]], path[u]) || (u == frontier[i] && slot <= t))
  {
    var j :| 0 <= j < |frontier| && frontier[j] == u;
    if j < i { StepsOn(g, q, goal, depth, u, t); }
  }

  lemma ThenLater(p: seq<nat>, slot: nat, before: seq<nat>, init: seq<nat>, t: nat)
    requires |p| == |before| == |init| && (init == before || Sooner(before, init))
    requires Sooner(p, before) || (p == before && slot <= t)
    ensures init + [t] == p + [slot] || Sooner(p + [slot], init + [t])
  {
    if Sooner(p, before) && Sooner(before, init) { SoonerStill(p, before, init); }
    LongerSooner(p, slot, init, t);
  }

  /** A node first met through a slot of the row being read is met by the soonest walk there is. */
  lemma MetSoonest(g: Graph, q: Query, start: nat, goal: nat, depth: map<nat, nat>,
                   path: map<nat, seq<nat>>, hop: nat, frontier: seq<nat>, next: seq<nat>, i: nat, slot: nat)
    requires RowsInRange(g) && Wave(g, q, goal, depth, hop, frontier, next) && start in depth && depth[start] == 0
    requires Soonest(g, q, start, goal, depth, path) && InOrder(frontier, path) && Expanded(g, q, goal, depth, frontier, i)
    requires i < |frontier| && Explored(g, q, goal, depth, frontier[i], slot) && slot < |g.neighbors| && g.neighbors[slot] !in depth
    ensures NoneSooner(g, q, start, goal, g.neighbors[slot], path[frontier[i]] + [slot])
  {
    var n, p := g.neighbors[slot], path[frontier[i]];
    forall w: Walk | Trail(g, q, start, goal, n, w) && |w.slots| == hop + 1
      ensures w.slots == p + [slot] || Sooner(p + [slot], w.slots)
    {
      var u, init := LastStep(g, q, start, goal, n, w, depth, hop, frontier, next);
      FromFrontier(g, q, goal, depth, path, frontier, i, slot, u, w.slots[hop]);
      NoSooner(g, q, start, goal, u, path[u], init);
      ThenLater(p, slot, path[u], init.slots, w.slots[hop]);
    }
  }

  lemma NoSooner(g: Graph, q: Query, start: nat, goal: nat, u: nat, before: seq<nat>, init: Walk)
    requires RowsInRange(g) && NoneSooner(g, q, start, goal, u, before) && Trail(g, q, start, goal, u, init) && |init.slots| == |before|
    ensures init.slots == before || Sooner(before, init.slots)
  {
  }

  lemma StillExpanded(g: Graph, q: Query, goal: nat, depth: map<nat, nat>, later: map<nat, nat>, frontier: seq<nat>, i: nat)
    requires RowsInRange(g) && Extends(depth, later) && Expanded(g, q, goal, depth, frontier, i)
    ensures Expanded(g, q, goal, later, frontier, i)
  {
    forall j | 0 <= j < i && j < |frontier| ensures Explored(g, q, goal, later, frontier[j], |g.neighbors|) {
      ExploredExtends(g, q, goal, depth, later, frontier[j], |g.neighbors|);
    }
  }

  lemma FollowsGrows(parentOf: map<nat, ParentStep>, path: map<nat, seq<nat>>, start: nat, node: nat, slot: nat, n: nat)
    requires Follows(parentOf, path, start) && node in path && n !in path
    ensures Follows(parentOf[n := ParentStep(node, slot)], path[n := path[node] + [slot]], start)
  {
    var parentOf', path' := parentOf[n := ParentStep(node, slot)], path[n := path[node] + [slot]];
    forall v | v in path' && v != start ensures Prolongs(parentOf', path', v) {
      if v != n { assert Prolongs(parentOf, path, v); }
    }
  }

  lemma SoonestGrows(g: Graph, q: Query, start: nat, goal: nat, depth: map<nat, nat>, path: map<nat, seq<nat>>, hop: nat, n: nat, p: seq<nat>)
    requires RowsInRange(g) && Soonest(g, q, start, goal, depth, path) && |p| == hop + 1 && n !in path
    requires NoneSooner(g, q, start, goal, n, p)
    ensures Soonest(g, q, start, goal, depth[n := hop + 1], path[n := p])
  {
  }

  lemma OrderGrows(next: seq<nat>, path: map<nat, seq<nat>>, before: seq<nat>, slot: nat, n: nat)
    requires InOrder(next, path) && Behind(next, path, before, slot) && n !in path
    ensures InOrder(next + [n], path[n := before + [slot]]) && Behind(next + [n], path[n := before + [slot]], before, slot + 1)
  {
    NextSlot(next, path, before, slot);
    LongerSooner(before, slot, before, slot + 1);
  }

  lemma OrderStays(layer: seq<nat>, path: map<nat, seq<nat>>, n: nat, p: seq<nat>)
    requires InOrder(layer, path) && n !in path
    ensures InOrder(layer, path[n := p])
  {
  }

  /** One node more, met through `slot`. */
  lemma RankedGrows(g: Graph, q: Query, start: nat, goal: nat, parentOf: map<nat, ParentStep>, depth: map<nat, nat>,
                    path: map<nat, seq<nat>>, hop: nat, frontier: seq<nat>, next: seq<nat>, i: nat, slot: nat)
    requires RowsInRange(g) && Wave(g, q, goal, depth, hop, frontier, next) && start in depth && depth[start] == 0
    requires Ranked(g, q, start, goal, parentOf, depth, path, frontier, next, i, slot) && i < |frontier|
    requires Explored(g, q, goal, depth, frontier[i], slot) && slot < |g.neighbors| && g.neighbors[slot] !in depth
    ensures var n := g.neighbors[slot];
      Ranked(g, q, start, goal, parentOf[n := ParentStep(frontier[i], slot)], depth[n := hop + 1],
             path[n := path[frontier[i]] + [slot]], frontier, next + [n], i, slot + 1)
  {
    var n, p := g.neighbors[slot], path[frontier[i]];
    MetSoonest(g, q, start, goal, depth, path, hop, frontier, next, i, slot);
    FollowsGrows(parentOf, path, start, frontier[i], slot, n);
    SoonestGrows(g, q, start, goal, depth, path, hop, n, p + [slot]);
    OrderGrows(next, path, p, slot, n);
    OrderStays(frontier, path, n, p + [slot]);
    StillExpanded(g, q, goal, depth, depth[n := hop + 1], frontier, i);
  }

  lemma NextSlot(next: seq<nat>, path: map<nat, seq<nat>>, before: seq<nat>, slot: nat)
    requires Behind(next, path, before, slot)
    ensures Behind(next, path, before, slot + 1)
  {
    forall i | 0 <= i < |next| ensures Sooner(path[next[i]], before + [slot + 1]) {
      SlotSooner(path[next[i]], before, slot, slot + 1);
    }
  }

  /** The row of the `i`-th node is read, and the next one's begins. */
  lemma RowDone(g: Graph, q: Query, start: nat, goal: nat, parentOf: map<nat, ParentStep>, depth: map<nat, nat>,
                path: map<nat, seq<nat>>, hop: nat, frontier: seq<nat>, next: seq<nat>, i: nat, slot: nat, first: nat)
    requires RowsInRange(g) && Wave(g, q, goal, depth, hop, frontier, next) && i < |frontier|
    requires Ranked(g, q, start, goal, parentOf, depth, path, frontier, next, i, slot)
    requires Explored(g, q, goal, depth, frontier[i], |g.neighbors|)
    ensures Ranked(g, q, start, goal, parentOf, depth, path, frontier, next, i + 1, first)
  {
    if i + 1 < |frontier| {
      var p, p' := path[frontier[i]], path[frontier[i + 1]];
      LongerSooner(p, slot, p', first);
      forall k | 0 <= k < |next| ensures Sooner(path[next[k]], p' + [first]) {
        SoonerStill(path[next[k]], p + [slot], p' + [first]);
      }
    }
  }

  // ---------- The search ----------

  /** Depth rises by one at each node of the walk. */
  ghost predicate Climbs(depth: map<nat, nat>, w: Walk, from: nat) {
    forall i :: 0 <= i < |w.nodes| ==> w.nodes[i] in depth && depth[w.nodes[i]] == from + i
  }

  lemma ClimbingIsSimple(depth: map<nat, nat>, w: Walk, from: nat)
    requires Climbs(depth, w, from)
    ensures Distinct(w.nodes)
  {
  }

  lemma PrependHops(g: Graph, v: nat, s: nat, rest: Walk)
    requires RowsInRange(g) && InBounds(g, rest) && v < |g.nodeIds| && s < |g.neighbors|
    ensures InBounds(g, Prepended(v, s, rest))
    ensures HopsOf(g, Prepended(v, s, rest)) == [HopAt(g, v, s, rest.nodes[0])] + HopsOf(g, rest)
  {
  }

  lemma ReversedSnoc<T>(x: T, xs: seq<T>)
    ensures Reversed([x] + xs) == Reversed(xs) + [x]
    ensures Reversed(Reversed(xs)) == xs
  {
  }

  lemma PathBack(before: seq<nat>, slot: nat, path: seq<nat>, slots: seq<nat>)
    requires path == before + [slot]
    ensures before + ([slot] + slots) == path + slots
  {
  }

  /** Follows the parent links back from the goal. The ghost walk is what the hops show. */
  method ReconstructPath(g: Graph, parentOf: map<nat, ParentStep>, start: nat, goal: nat,
                         ghost q: Query, ghost depth: map<nat, nat>, ghost path: map<nat, seq<nat>>)
    returns (hops: seq<PathHop>, ghost w: Walk)
    requires RowsInRange(g) && Tree(g, q, start, goal, parentOf, depth) && goal in depth
    requires Follows(parentOf, path, start) && goal in path
    ensures IsRoute(g, q, start, goal, w) && |w.slots| == depth[goal] && w.slots == path[goal]
    ensures InBounds(g, w) && hops == HopsOf(g, w)
  {
    hops := [];
    var node := goal;
    w := Walk([goal], []);
    while node != start
      invariant node in depth && IsWalk(g, q, node, goal, w)
      invariant depth[node] + |w.slots| == depth[goal] && Climbs(depth, w, depth[node])
      invariant node in path && path[node] + w.slots == path[goal]
      invariant InBounds(g, w) && hops == Reversed(HopsOf(g, w))
      decreases depth[node]
    {
      assert Linked(g, q, goal, parentOf, depth, node) && Prolongs(parentOf, path, node);
      var step := parentOf[node];
      hops := hops + [HopAt(g, step.parent, step.slot, node)];
      PrependWalk(g, q, goal, step.parent, step.slot, w);
      PrependHops(g, step.parent, step.slot, w);
      PathBack(path[step.parent], step.slot, path[node], w.slots);
      ReversedSnoc(HopAt(g, step.parent, step.slot, node), HopsOf(g, w));
      w := Prepended(step.parent, step.slot, w);
      node := step.parent;
    }
    ReversedSnoc(PathHop(0, 0, 0, "", ""), HopsOf(g, w));
    hops := Reversed(hops);
    ClimbingIsSimple(depth, w, depth[start]);
  }

  /** What a search may answer, in terms of the graph alone. */
  ghost predicate FindPathAnswer(g: Graph, q: Query, start: nat, goal: nat, maxHops: int, r: Result<seq<PathHop>>, w: Walk)
    requires RowsInRange(g) && start < |g.nodeIds|
  {
    match r
    case Ok(hops) =>
      && IsRoute(g, q, start, goal, w)
      && InBounds(g, w) && hops == HopsOf(g, w)
      && Distance(g, q, goal, start, |hops|)
      && (start == goal || |hops| <= maxHops)
    case Err(reason) =>
      && reason == NoPath && start != goal
      && forall k: nat :: k <= maxHops ==> !Reaches(g, q, goal, start, k)
  }

  /** What is known of the nodes reached and of the walks that reach them. */
  ghost predicate Reached(g: Graph, q: Query, start: nat, goal: nat, parentOf: map<nat, ParentStep>, depth: map<nat, nat>,
                          path: map<nat, seq<nat>>)
    requires RowsInRange(g)
  {
    Tree(g, q, start, goal, parentOf, depth) && Follows(parentOf, path, start) && Soonest(g, q, start, goal, depth, path)
  }

  /** What holds before the row of the `i`-th frontier node is read, or after the last one's. */
  ghost predicate Searching(g: Graph, q: Query, start: nat, goal: nat, visited: set<nat>, parentOf: map<nat, ParentStep>,
                            depth: map<nat, nat>, path: map<nat, seq<nat>>, hop: nat, frontier: seq<nat>, next: seq<nat>, i: nat, slot: nat)
    requires RowsInRange(g)
  {
    && Tree(g, q, start, goal, parentOf, depth) && visited == depth.Keys
    && Wave(g, q, goal, depth, hop, frontier, next)
    && Ranked(g, q, start, goal, parentOf, depth, path, frontier, next, i, slot)
  }

  /** And while it is read. */
  ghost predicate Scanning(g: Graph, q: Query, start: nat, goal: nat, visited: set<nat>, parentOf: map<nat, ParentStep>,
                           depth: map<nat, nat>, path: map<nat, seq<nat>>, hop: nat, frontier: seq<nat>, next: seq<nat>, i: nat, slot: nat)
    requires RowsInRange(g)
  {
    && Searching(g, q, start, goal, visited, parentOf, depth, path, hop, frontier, next, i, slot)
    && i < |frontier| && Explored(g, q, goal, depth, frontier[i], slot)
  }

  /** A slot that leads nowhere new. */
  lemma ScanSkips(g: Graph, q: Query, start: nat, goal: nat, visited: set<nat>, parentOf: map<nat, ParentStep>,
                  depth: map<nat, nat>, path: map<nat, seq<nat>>, hop: nat, frontier: seq<nat>, next: seq<nat>, i: nat, slot: nat)
    requires RowsInRange(g) && Scanning(g, q, start, goal, visited, parentOf, depth, path, hop, frontier, next, i, slot)
    requires slot < |g.neighbors| && (g.neighbors[slot] in visited || !Step(g, q, goal, frontier[i], slot))
    ensures Scanning(g, q, start, goal, visited, parentOf, depth, path, hop, frontier, next, i, slot + 1)
  {
    NextSlot(next, path, path[frontier[i]], slot);
  }

  /** A slot that leads to a new node. */
  lemma ScanTakes(g: Graph, q: Query, start: nat, goal: nat, visited: set<nat>, parentOf: map<nat, ParentStep>,
                  depth: map<nat, nat>, path: map<nat, seq<nat>>, hop: nat, frontier: seq<nat>, next: seq<nat>, i: nat, slot: nat)
    requires RowsInRange(g) && Scanning(g, q, start, goal, visited, parentOf, depth, path, hop, frontier, next, i, slot)
    requires slot < |g.neighbors| && g.neighbors[slot] !in visited && Step(g, q, goal, frontier[i], slot)
    ensures frontier[i] in path
    ensures var n := g.neighbors[slot];
      && Reached(g, q, start, goal, parentOf[n := ParentStep(frontier[i], slot)], depth[n := hop + 1],
                 path[n := path[frontier[i]] + [slot]])
      && (n != goal ==>
            Scanning(g, q, start, goal, visited + {n}, parentOf[n := ParentStep(frontier[i], slot)], depth[n := hop + 1],
                     path[n := path[frontier[i]] + [slot]], hop, frontier, next + [n], i, slot + 1))
  {
    var n := g.neighbors[slot];
    TreeGrows(g, q, start, goal, parentOf, depth, frontier[i], slot);
    RankedGrows(g, q, start, goal, parentOf, depth, path, hop, frontier, next, i, slot);
    if n != goal {
      WaveGrows(g, q, goal, depth, hop, frontier, next, n);
      ExploredExtends(g, q, goal, depth, depth[n := hop + 1], frontier[i], slot);
    }
  }

  /** The four tests of the loop body: a node not yet visited, no other album, and the two filters. */
  predicate LeadsOn(g: Graph, q: Query, goal: nat, visited: set<nat>, node: nat, slot: nat)
    requires RowsInRange(g) && node < |g.nodeIds| && slot < |g.neighbors|
  {
    && g.neighbors[slot] !in visited && (g.nodeIds[g.neighbors[slot]] >= 0 || g.neighbors[slot] == goal)
    && q.filter(g.edgeRoleA[slot], g.edgeRoleB[slot])
    && !q.excludes(g.nodeIds[node], g.nodeIds[g.neighbors[slot]], g.evidenceReleaseIds[slot])
  }

  /** Whatever the slot leads to. */
  lemma ScanSlot(g: Graph, q: Query, start: nat, goal: nat, visited: set<nat>, parentOf: map<nat, ParentStep>,
                 depth: map<nat, nat>, path: map<nat, seq<nat>>, hop: nat, frontier: seq<nat>, next: seq<nat>, i: nat,
                 node: nat, slot: nat, n: nat)
    requires RowsInRange(g) && Scanning(g, q, start, goal, visited, parentOf, depth, path, hop, frontier, next, i, slot)
    requires frontier[i] == node && node < |g.nodeIds| && InRow(g, node, slot) && n == g.neighbors[slot]
    ensures node in path
    ensures !LeadsOn(g, q, goal, visited, node, slot) ==>
      Scanning(g, q, start, goal, visited, parentOf, depth, path, hop, frontier, next, i, slot + 1)
    ensures LeadsOn(g, q, goal, visited, node, slot) ==>
      Reached(g, q, start, goal, parentOf[n := ParentStep(node, slot)], depth[n := hop + 1], path[n := path[node] + [slot]])
    ensures LeadsOn(g, q, goal, visited, node, slot) && n != goal ==>
      Scanning(g, q, start, goal, visited + {n}, parentOf[n := ParentStep(node, slot)], depth[n := hop + 1],
               path[n := path[node] + [slot]], hop, frontier, next + [n], i, slot + 1)
  {
    if LeadsOn(g, q, goal, visited, node, slot) {
      ScanTakes(g, q, start, goal, visited, parentOf, depth, path, hop, frontier, next, i, slot);
    } else {
      ScanSkips(g, q, start, goal, visited, parentOf, depth, path, hop, frontier, next, i, slot);
    }
  }

  /** Expands one frontier node; stops at once when the goal turns up. */
  method ScanRow(g: Graph, q: Query, ghost start: nat, goal: nat, node: nat, ghost hop: nat,
                 visited0: set<nat>, parentOf0: map<nat, ParentStep>, ghost frontier: seq<nat>, next0: seq<nat>,
                 ghost depth0: map<nat, nat>, ghost path0: map<nat, seq<nat>>, ghost i: nat)
    returns (found: bool, visited: set<nat>, parentOf: map<nat, ParentStep>, next: seq<nat>,
             ghost depth: map<nat, nat>, ghost path: map<nat, seq<nat>>)
    requires RowsInRange(g) && i < |frontier| && frontier[i] == node && node < |g.nodeIds|
    requires Scanning(g, q, start, goal, visited0, parentOf0, depth0, path0, hop, frontier, next0, i, g.offsets[node])
    ensures found ==> Reached(g, q, start, goal, parentOf, depth, path) && goal in depth && depth[goal] == hop + 1
    ensures !found ==> Scanning(g, q, start, goal, visited, parentOf, depth, path, hop, frontier, next, i, g.offsets[node + 1])
  {
    found, visited, parentOf, next, depth, path := false, visited0, parentOf0, next0, depth0, path0;
    assert GoodRow(g, node);
    for slot := g.offsets[node] to g.offsets[node + 1]
      invariant Scanning(g, q, start, goal, visited, parentOf, depth, path, hop, frontier, next, i, slot)
    {
      var neighbor := g.neighbors[slot];
      ScanSlot(g, q, start, goal, visited, parentOf, depth, path, hop, frontier, next, i, node, slot, neighbor);
      if LeadsOn(g, q, goal, visited, node, slot) {
        visited := visited + {neighbor};
        parentOf := parentOf[neighbor := ParentStep(node, slot)];
        path := path[neighbor := path[node] + [slot]];
        depth := depth[neighbor := hop + 1];
        if neighbor == goal {
          found := true;
          return;
        }
        next := next + [neighbor];
      }
    }
  }

  /** Where the row of the `i`-th node begins. */
  ghost function Begin(g: Graph, frontier: seq<nat>, i: nat): nat {
    if i < |frontier| && frontier[i] < |g.offsets| then g.offsets[frontier[i]] else 0
  }

  lemma RowBegins(g: Graph, q: Query, start: nat, goal: nat, visited: set<nat>, parentOf: map<nat, ParentStep>,
                  depth: map<nat, nat>, path: map<nat, seq<nat>>, hop: nat, frontier: seq<nat>, next: seq<nat>, i: nat)
    requires RowsInRange(g) && i < |frontier|
    requires Searching(g, q, start, goal, visited, parentOf, depth, path, hop, frontier, next, i, Begin(g, frontier, i))
    ensures frontier[i] < |g.nodeIds|
    ensures Scanning(g, q, start, goal, visited, parentOf, depth, path, hop, frontier, next, i, g.offsets[frontier[i]])
  {
    assert GoodRow(g, frontier[i]);
  }

  lemma RowEnds(g: Graph, q: Query, start: nat, goal: nat, visited: set<nat>, parentOf: map<nat, ParentStep>,
                depth: map<nat, nat>, path: map<nat, seq<nat>>, hop: nat, frontier: seq<nat>, next: seq<nat>, i: nat)
    requires RowsInRange(g) && i < |frontier| && frontier[i] < |g.nodeIds|
    requires Scanning(g, q, start, goal, visited, parentOf, depth, path, hop, frontier, next, i, g.offsets[frontier[i] + 1])
    ensures Searching(g, q, start, goal, visited, parentOf, depth, path, hop, frontier, next, i + 1, Begin(g, frontier, i + 1))
  {
    RowRead(g, q, goal, depth, frontier[i]);
    RowDone(g, q, start, goal, parentOf, depth, path, hop, frontier, next, i, g.offsets[frontier[i] + 1], Begin(g, frontier, i + 1));
  }

  lemma RowRead(g: Graph, q: Query, goal: nat, depth: map<nat, nat>, v: nat)
    requires RowsInRange(g) && v in depth && v < |g.nodeIds| && Explored(g, q, goal, depth, v, g.offsets[v + 1])
    ensures Explored(g, q, goal, depth, v, |g.neighbors|)
  {
  }

  lemma LayerEnds(g: Graph, q: Query, start: nat, goal: nat, visited: set<nat>, parentOf: map<nat, ParentStep>,
                  depth: map<nat, nat>, path: map<nat, seq<nat>>, hop: nat, frontier: seq<nat>, next: seq<nat>)
    requires RowsInRange(g)
    requires Searching(g, q, start, goal, visited, parentOf, depth, path, hop, frontier, next, |frontier|, Begin(g, frontier, |frontier|))
    ensures Searching(g, q, start, goal, visited, parentOf, depth, path, hop + 1, next, [], 0, Begin(g, next, 0))
  {
    WaveAdvances(g, q, goal, depth, hop, frontier, next);
  }

  lemma SearchBegins(g: Graph, q: Query, start: nat, goal: nat)
    requires RowsInRange(g) && start < |g.nodeIds| && start != goal
    ensures Searching(g, q, start, goal, {start}, map[], map[start := 0], map[start := []], 0, [start], [], 0, Begin(g, [start], 0))
  {
    var depth: map<nat, nat> := map[start := 0];
    assert depth.Keys == {start};
  }

  /** What a search that has just met its goal answers. */
  method Answer(g: Graph, q: Query, start: nat, goal: nat, maxHops: int, parentOf: map<nat, ParentStep>,
                ghost depth: map<nat, nat>, ghost path: map<nat, seq<nat>>)
    returns (hops: seq<PathHop>, ghost w: Walk)
    requires RowsInRange(g) && start < |g.nodeIds| && Reached(g, q, start, goal, parentOf, depth, path)
    requires goal in depth && depth[goal] <= maxHops && forall k: nat :: k < depth[goal] ==> !Reaches(g, q, goal, start, k)
    ensures FindPathAnswer(g, q, start, goal, maxHops, Ok(hops), w) && IsFirst(g, q, start, goal, w)
  {
    hops, w := ReconstructPath(g, parentOf, start, goal, q, depth, path);
    WalkReaches(g, q, start, goal, w);
    NoneSoonerIsFirst(g, q, start, goal, w);
  }

  lemma NotNearer(g: Graph, q: Query, start: nat, goal: nat, visited: set<nat>, parentOf: map<nat, ParentStep>,
                  depth: map<nat, nat>, path: map<nat, seq<nat>>, hop: nat, frontier: seq<nat>, next: seq<nat>, i: nat, slot: nat)
    requires RowsInRange(g) && Searching(g, q, start, goal, visited, parentOf, depth, path, hop, frontier, next, i, slot)
    ensures forall k: nat :: k <= hop ==> !Reaches(g, q, goal, start, k)
  {
    forall k: nat | k <= hop ensures !Reaches(g, q, goal, start, k) { Sealed(g, q, goal, depth, hop, start, k); }
  }

  method FindPath(g: Graph, artistIndex: map<int, nat>, fromArtistId: int, toArtistId: int, maxHops: int, q: Query)
    returns (r: Result<seq<PathHop>>, ghost w: Walk)
    requires RowsInRange(g) && IsArtistIndex(g, artistIndex)
    ensures fromArtistId !in artistIndex || toArtistId !in artistIndex ==> r == Err(UnknownAlbum)
    ensures fromArtistId in artistIndex && toArtistId in artistIndex ==>
      && FindPathAnswer(g, q, artistIndex[fromArtistId], artistIndex[toArtistId], maxHops, r, w)
      && (r.Ok? ==> IsFirst(g, q, artistIndex[fromArtistId], artistIndex[toArtistId], w))
  {
    w := Walk([], []);
    if fromArtistId !in artistIndex || toArtistId !in artistIndex {
      return Err(UnknownAlbum), w;
    }
    var start, goal := artistIndex[fromArtistId], artistIndex[toArtistId];
    if start == goal {
      return Ok([]), Walk([start], []);
    }
    var parentOf: map<nat, ParentStep> := map[];
    var visited: set<nat> := {start};
    var frontier := [start];
    ghost var depth: map<nat, nat> := map[start := 0];
    ghost var path: map<nat, seq<nat>> := map[start := []];
    var hop := 0;
    SearchBegins(g, q, start, goal);
    while hop < maxHops
      invariant 0 <= hop && Searching(g, q, start, goal, visited, parentOf, depth, path, hop, frontier, [], 0, Begin(g, frontier, 0))
    {
      NotNearer(g, q, start, goal, visited, parentOf, depth, path, hop, frontier, [], 0, Begin(g, frontier, 0));
      var next: seq<nat> := [];
      for i := 0 to |frontier|
        invariant Searching(g, q, start, goal, visited, parentOf, depth, path, hop, frontier, next, i, Begin(g, frontier, i))
      {
        RowBegins(g, q, start, goal, visited, parentOf, depth, path, hop, frontier, next, i);
        var found;
        found, visited, parentOf, next, depth, path :=
          ScanRow(g, q, start, goal, frontier[i], hop, visited, parentOf, frontier, next, depth, path, i);
        if found {
          var hops;
          hops, w := Answer(g, q, start, goal, maxHops, parentOf, depth, path);
          return Ok(hops), w;
        }
        RowEnds(g, q, start, goal, visited, parentOf, depth, path, hop, frontier, next, i);
      }
      LayerEnds(g, q, start, goal, visited, parentOf, depth, path, hop, frontier, next);
      frontier := next;
      hop := hop + 1;
      if |frontier| == 0 {
        break;
      }
    }
    NoShortWalk(g, q, start, goal, depth, hop, frontier, maxHops);
    return Err(NoPath), w;
  }

  lemma NoShortWalk(g: Graph, q: Query, start: nat, goal: nat, depth: map<nat, nat>, hop: nat, frontier: seq<nat>, maxHops: int)
    requires RowsInRange(g) && Wave(g, q, goal, depth, hop, frontier, [])
    requires start in depth && depth[start] == 0
    requires maxHops <= hop || frontier == []
    ensures forall k: nat :: k <= maxHops ==> !Reaches(g, q, goal, start, k)
  {
    forall k: nat | k <= maxHops ensures !Reaches(g, q, goal, start, k) {
      if hop < k {
        assert forall v :: v in depth ==> depth[v] < hop || v in frontier;
        Sealed(g, q, goal, depth, k, start, k);
      } else {
        Sealed(g, q, goal, depth, hop, start, k);
      }
    }
  }
}
