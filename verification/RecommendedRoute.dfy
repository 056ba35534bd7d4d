/** The recommended-route engine: rank one layer, look one hop further, or fall back to the plain search. */
module RecommendedRoute {
  import opened Text
  import opened PathfindingGraph
  import opened Routes
  import opened BudgetedRun
  import opened FindPath
  import opened FindAlbumRoute
  import opened ReverseDistances
  import opened ExactDepthRoutes
  import opened RouteRanking
  import Sorting

  /** `r` is the ranked form of a walk showing `hops`. */
  ghost predicate Ranks(g: Graph, k: Ranker, hops: seq<PathHop>, r: RankedRoute)
    requires RowsInRange(g) && IsArtistIndex(g, k.artistIndex)
  {
    && StripAlbumAnchors(hops) == Some(r.route)
    && r.usedEdgeKeys == EdgeKeysForHops(hops)
    && AreFacts(g, k, r.route.hops, r.facts)
  }

  ghost predicate RanksWalk(g: Graph, k: Ranker, q: Query, start: nat, goal: nat, depth: nat, r: RankedRoute, w: Walk)
    requires RowsInRange(g) && IsArtistIndex(g, k.artistIndex)
  {
    Guided(g, q, start, goal, depth, w) && InBounds(g, w) && Ranks(g, k, HopsOf(g, w), r)
  }

  /** All the routes of exactly `depth` anchor-to-anchor hops the guide lets through, ranked. */
  ghost function Layer(g: Graph, k: Ranker, q: Query, start: nat, goal: nat, depth: nat): iset<RankedRoute>
    requires RowsInRange(g) && IsArtistIndex(g, k.artistIndex)
  {
    iset r: RankedRoute | HasWalk(g, k, q, start, goal, depth, r)
  }

  ghost predicate HasWalk(g: Graph, k: Ranker, q: Query, start: nat, goal: nat, depth: nat, r: RankedRoute)
    requires RowsInRange(g) && IsArtistIndex(g, k.artistIndex)
  {
    exists w :: RanksWalk(g, k, q, start, goal, depth, r, w)
  }

  ghost predicate IsBest(layer: iset<RankedRoute>, r: RankedRoute) {
    r in layer && forall other :: other in layer ==> NoWorse(r, other)
  }

  lemma BestCompares(layer: iset<RankedRoute>, r: RankedRoute)
    ensures IsBest(layer, r) <==> r in layer && forall other :: other in layer ==> CompareRanked(r, other) <= 0
  {
    forall other ensures NoWorse(r, other) <==> CompareRanked(r, other) <= 0 { CompareRankedMeans(r, other); }
  }

  /** Every route of the layer is evidenced at the worst severity; an unknown severity is not the worst. */
  ghost predicate AllWorst(layer: iset<RankedRoute>) {
    forall r :: r in layer ==> r.facts.worstCaveatSeverity == Some(WORST_SEVERITY)
  }

  /** A route not known to be evidenced at the worst severity. */
  predicate Milder(r: RankedRoute) {
    r.facts.worstCaveatSeverity.None? || r.facts.worstCaveatSeverity.value < WORST_SEVERITY
  }

  datatype RankedLayer = RankedLayer(targetDepth: nat, candidates: seq<RankedRoute>, complete: bool)

  /** Two virtual endpoints of a graph the loader accepted. */
  ghost predicate Endpoints(g: Graph, start: nat, goal: nat) {
    && WellFormed(g) && start < |g.nodeIds| && goal < |g.nodeIds| && Virtual(g, start) && Virtual(g, goal)
  }

  /** Whatever ranks `w` is among `ranked`. */
  ghost predicate Covers(g: Graph, k: Ranker, q: Query, start: nat, goal: nat, depth: nat, ranked: seq<RankedRoute>, w: Walk)
    requires RowsInRange(g) && IsArtistIndex(g, k.artistIndex)
  {
    forall r :: RanksWalk(g, k, q, start, goal, depth, r, w) ==> r in ranked
  }

  /** Ranks one raw candidate; nothing to rank when it has no two anchors to strip. */
  method RankOne(g: Graph, k: Ranker, ghost filter: EdgeFilter, ghost start: nat, ghost goal: nat, ghost depth: nat, w: Walk)
    returns (ranked: seq<RankedRoute>)
    requires Endpoints(g, start, goal) && IsArtistIndex(g, k.artistIndex)
    requires Guided(g, AlbumQuery(filter, None), start, goal, depth, w)
    ensures if depth < 2 then ranked == []
      else |ranked| == 1 && RanksWalk(g, k, AlbumQuery(filter, None), start, goal, depth, ranked[0], w)
    ensures Covers(g, k, AlbumQuery(filter, None), start, goal, depth, ranked, w)
  {
    ghost var q := AlbumQuery(filter, None);
    WalkInBounds(g, q, start, goal, w);
    StrippedRoute(g, filter, q.excludes, start, goal, w);
    var hops := HopsOf(g, w);
    var stripped := StripAlbumAnchors(hops);
    if stripped.None? { return []; }
    var facts := ComputeRouteFacts(g, k, stripped.value.hops);
    forall other | Ranks(g, k, hops, other) ensures other.facts == facts {
      FactsUnique(g, k, stripped.value.hops, facts, other.facts);
    }
    ranked := [RankedRoute(stripped.value, EdgeKeysForHops(hops), facts)];
  }

  lemma CoversMore(g: Graph, k: Ranker, q: Query, start: nat, goal: nat, depth: nat,
                   some: seq<RankedRoute>, more: seq<RankedRoute>, w: Walk)
    requires RowsInRange(g) && IsArtistIndex(g, k.artistIndex)
    requires Covers(g, k, q, start, goal, depth, some, w) && forall r :: r in some ==> r in more
    ensures Covers(g, k, q, start, goal, depth, more, w)
  {
  }

  /** Some of the routes ranks as `r`. */
  ghost predicate RankedBy(g: Graph, k: Ranker, q: Query, start: nat, goal: nat, depth: nat, routes: seq<Walk>, r: RankedRoute)
    requires RowsInRange(g) && IsArtistIndex(g, k.artistIndex)
  {
    exists w :: w in routes && RanksWalk(g, k, q, start, goal, depth, r, w)
  }

  ghost predicate RankedByRoutes(g: Graph, k: Ranker, q: Query, start: nat, goal: nat, depth: nat,
                                 routes: seq<Walk>, ranked: seq<RankedRoute>)
    requires RowsInRange(g) && IsArtistIndex(g, k.artistIndex)
  {
    forall r :: r in ranked ==> RankedBy(g, k, q, start, goal, depth, routes, r)
  }

  /** `ranked` is what the candidates `routes` of one layer come to. */
  ghost predicate RankedFrom(g: Graph, k: Ranker, q: Query, start: nat, goal: nat, depth: nat,
                             routes: seq<Walk>, ranked: seq<RankedRoute>)
    requires RowsInRange(g) && IsArtistIndex(g, k.artistIndex)
  {
    && |ranked| == (if depth < 2 then 0 else |routes|)
    && RankedByRoutes(g, k, q, start, goal, depth, routes, ranked)
    && (forall w :: w in routes ==> Covers(g, k, q, start, goal, depth, ranked, w))
  }

  lemma CoversStep(g: Graph, k: Ranker, q: Query, start: nat, goal: nat, depth: nat,
                   routes: seq<Walk>, ranked: seq<RankedRoute>, w: Walk, one: seq<RankedRoute>)
    requires RowsInRange(g) && IsArtistIndex(g, k.artistIndex)
    requires forall v :: v in routes ==> Covers(g, k, q, start, goal, depth, ranked, v)
    requires Covers(g, k, q, start, goal, depth, one, w)
    ensures forall v :: v in routes + [w] ==> Covers(g, k, q, start, goal, depth, ranked + one, v)
  {
    forall v | v in routes + [w] ensures Covers(g, k, q, start, goal, depth, ranked + one, v) {
      if v in routes {
        CoversMore(g, k, q, start, goal, depth, ranked, ranked + one, v);
      } else {
        CoversMore(g, k, q, start, goal, depth, one, ranked + one, v);
      }
    }
  }

  lemma RankedByMore(g: Graph, k: Ranker, q: Query, start: nat, goal: nat, depth: nat,
                     routes: seq<Walk>, ranked: seq<RankedRoute>, w: Walk, one: RankedRoute)
    requires RowsInRange(g) && IsArtistIndex(g, k.artistIndex)
    requires RankedByRoutes(g, k, q, start, goal, depth, routes, ranked) && RanksWalk(g, k, q, start, goal, depth, one, w)
    ensures RankedByRoutes(g, k, q, start, goal, depth, routes + [w], ranked + [one])
  {
    assert w in routes + [w];
    forall r | r in ranked + [one] ensures RankedBy(g, k, q, start, goal, depth, routes + [w], r) {
      if r in ranked {
        assert RankedBy(g, k, q, start, goal, depth, routes, r);
        var v :| v in routes && RanksWalk(g, k, q, start, goal, depth, r, v);
        assert v in routes + [w];
      }
    }
  }

  lemma RankedStep(g: Graph, k: Ranker, q: Query, start: nat, goal: nat, depth: nat,
                   routes: seq<Walk>, ranked: seq<RankedRoute>, w: Walk, one: seq<RankedRoute>)
    requires RowsInRange(g) && IsArtistIndex(g, k.artistIndex)
    requires RankedFrom(g, k, q, start, goal, depth, routes, ranked)
    requires if depth < 2 then one == [] else |one| == 1 && RanksWalk(g, k, q, start, goal, depth, one[0], w)
    requires Covers(g, k, q, start, goal, depth, one, w)
    ensures RankedFrom(g, k, q, start, goal, depth, routes + [w], ranked + one)
  {
    CoversStep(g, k, q, start, goal, depth, routes, ranked, w, one);
    if depth >= 2 {
      RankedByMore(g, k, q, start, goal, depth, routes, ranked, w, one[0]);
      assert one == [one[0]];
    } else {
      assert ranked + one == [];
    }
  }

  method RankCandidates(g: Graph, k: Ranker, ghost filter: EdgeFilter, ghost start: nat, ghost goal: nat,
                        ghost depth: nat, routes: seq<Walk>)
    returns (ranked: seq<RankedRoute>)
    requires Endpoints(g, start, goal) && IsArtistIndex(g, k.artistIndex)
    requires forall w :: w in routes ==> Guided(g, AlbumQuery(filter, None), start, goal, depth, w)
    ensures RankedFrom(g, k, AlbumQuery(filter, None), start, goal, depth, routes, ranked)
  {
    ranked := [];
    ghost var q := AlbumQuery(filter, None);
    for i := 0 to |routes|
      invariant RankedFrom(g, k, q, start, goal, depth, routes[..i], ranked)
    {
      assert routes[i] in routes;
      var one := RankOne(g, k, filter, start, goal, depth, routes[i]);
      RankedStep(g, k, q, start, goal, depth, routes[..i], ranked, routes[i], one);
      assert routes[..i + 1] == routes[..i] + [routes[i]];
      ranked := ranked + one;
    }
    assert routes[..|routes|] == routes;
  }

  /** The ranked forms of some routes of one length. */
  ghost function Pool(g: Graph, k: Ranker, q: Query, start: nat, goal: nat, depth: nat, routes: seq<Walk>): iset<RankedRoute>
    requires RowsInRange(g) && IsArtistIndex(g, k.artistIndex)
  {
    iset r: RankedRoute | RankedBy(g, k, q, start, goal, depth, routes, r)
  }

  /** What the candidates come to is the pool of their routes. */
  lemma RankedIsPool(g: Graph, k: Ranker, q: Query, start: nat, goal: nat, depth: nat, routes: seq<Walk>, ranked: seq<RankedRoute>)
    requires RowsInRange(g) && IsArtistIndex(g, k.artistIndex) && RankedFrom(g, k, q, start, goal, depth, routes, ranked)
    ensures forall r :: r in ranked <==> r in Pool(g, k, q, start, goal, depth, routes)
  {
    forall r | r in Pool(g, k, q, start, goal, depth, routes) ensures r in ranked {
      assert RankedBy(g, k, q, start, goal, depth, routes, r);
      var w :| w in routes && RanksWalk(g, k, q, start, goal, depth, r, w);
      assert Covers(g, k, q, start, goal, depth, ranked, w);
    }
  }

  /** The pool of all the routes is the layer. */
  lemma WholePoolIsLayer(g: Graph, k: Ranker, q: Query, start: nat, goal: nat, depth: nat)
    requires RowsInRange(g) && start < |g.nodeIds| && IsArtistIndex(g, k.artistIndex)
    ensures Pool(g, k, q, start, goal, depth, ExactRoutes(g, q, start, goal, depth)) == Layer(g, k, q, start, goal, depth)
  {
    var all := ExactRoutes(g, q, start, goal, depth);
    ExactRoutesExact(g, q, start, goal, depth);
    forall r ensures RankedBy(g, k, q, start, goal, depth, all, r) <==> HasWalk(g, k, q, start, goal, depth, r) {
      if HasWalk(g, k, q, start, goal, depth, r) {
        var w :| RanksWalk(g, k, q, start, goal, depth, r, w);
        assert w in all;
      }
    }
  }

  method SortRanked(ranked: seq<RankedRoute>) returns (sorted: seq<RankedRoute>)
    ensures multiset(sorted) == multiset(ranked)
    ensures forall i, j :: 0 <= i < j < |sorted| ==> NoWorse(sorted[i], sorted[j])
    ensures forall r :: r in sorted <==> r in ranked
  {
    CompareRankedIsTotal();
    Sorting.SortSorts(ranked, CompareRanked);
    Sorting.SortKeeps(ranked, CompareRanked);
    sorted := Sorting.Sort(ranked, CompareRanked);
    assert forall r :: r in sorted <==> r in multiset(sorted);
    forall i, j | 0 <= i < j < |sorted| ensures NoWorse(sorted[i], sorted[j]) {
      CompareRankedMeans(sorted[i], sorted[j]);
    }
  }

  // ---------- One layer ----------

  /** The routes of one length a budget of reads and a cap let through. */
  ghost function InReach(g: Graph, q: Query, start: nat, goal: nat, depth: nat, left: int, maxRoutes: int): seq<Walk>
    requires RowsInRange(g)
  {
    First(RoutesWithin(g, q, start, goal, depth, left), maxRoutes)
  }

  /** A layer can be enumerated to the end: the budget covers its cost and its routes fit the cap. */
  ghost predicate LayerFits(g: Graph, q: Query, start: nat, goal: nat, depth: nat, left: int, maxRoutes: int)
    requires RowsInRange(g)
  {
    Affords(left, WalkCost(g, q, start, goal, depth)) && |ExactRoutes(g, q, start, goal, depth)| <= Max(0, maxRoutes)
  }

  /** Whatever is in reach is routes of the layer, each once; all of them when the layer fits. */
  lemma ReachIsExact(g: Graph, q: Query, start: nat, goal: nat, depth: nat, left: int, maxRoutes: int)
    requires RowsInRange(g) && start < |g.nodeIds|
    ensures forall w :: w in InReach(g, q, start, goal, depth, left, maxRoutes) ==> Guided(g, q, start, goal, depth, w)
    ensures Distinct(InReach(g, q, start, goal, depth, left, maxRoutes))
    ensures LayerFits(g, q, start, goal, depth, left, maxRoutes) ==>
      InReach(g, q, start, goal, depth, left, maxRoutes) == ExactRoutes(g, q, start, goal, depth)
  {
    var trace := Trace(g, q, goal, [start], [], depth);
    var all, routes := ExactRoutes(g, q, start, goal, depth), InReach(g, q, start, goal, depth, left, maxRoutes);
    ExactRoutesExact(g, q, start, goal, depth);
    PaidIsPrefix(trace, left);
    assert routes <= all;
    assert forall i :: 0 <= i < |routes| ==> routes[i] == all[i] && all[i] in all;
    if LayerFits(g, q, start, goal, depth, left, maxRoutes) { PaidInFull(trace, left); }
  }

  /** What is seen of a layer that fits is the layer. */
  lemma SeesLayer(g: Graph, k: Ranker, q: Query, start: nat, goal: nat, depth: nat, left: int, maxRoutes: int)
    requires RowsInRange(g) && start < |g.nodeIds| && IsArtistIndex(g, k.artistIndex)
    requires LayerFits(g, q, start, goal, depth, left, maxRoutes)
    ensures Seen(g, k, q, start, goal, depth, left, maxRoutes) == Layer(g, k, q, start, goal, depth)
  {
    ReachIsExact(g, q, start, goal, depth, left, maxRoutes);
    WholePoolIsLayer(g, k, q, start, goal, depth);
  }

  /** All the routes of one layer the walk could afford. */
  method CollectExactDepthRoutes(g: Graph, q: Query, start: nat, goal: nat, targetDepth: nat,
                                 distances: map<nat, nat>, budget: Budget, maxRoutes: int, ghost maxDepth: int)
    returns (routes: seq<Walk>, complete: bool)
    requires RowsInRange(g) && ExcludesNothing(q.excludes) && start < |g.nodeIds|
    requires Measures(g, q, goal, maxDepth, distances) && (targetDepth <= maxDepth || start == goal)
    modifies budget
    ensures routes == InReach(g, q, start, goal, targetDepth, old(budget.remaining), maxRoutes)
    ensures complete <==> LayerFits(g, q, start, goal, targetDepth, old(budget.remaining), maxRoutes)
    ensures complete ==> budget.remaining == old(budget.remaining) - WalkCost(g, q, start, goal, targetDepth)
    ensures 0 <= old(budget.remaining) - budget.remaining <= Max(0, old(budget.remaining))
  {
    var collector := new RouteCollector(g, q, start, goal, targetDepth, distances, budget, maxRoutes, maxDepth);
    RunIs(collector.Now(true), collector.Ahead(0), maxRoutes);
    complete := collector.Walk(start, 0);
    routes := collector.routes;
  }

  /** A sorted list of exactly the routes of a pool. */
  ghost predicate IsSortedPool(pool: iset<RankedRoute>, candidates: seq<RankedRoute>) {
    && (forall i, j :: 0 <= i < j < |candidates| ==> NoWorse(candidates[i], candidates[j]))
    && forall r :: r in candidates <==> r in pool
  }

  /** Ranks what a budget and the cap let through of one layer. */
  method RankExactDepthLayer(g: Graph, k: Ranker, ghost filter: EdgeFilter, q: Query, start: nat, goal: nat,
                             targetDepth: nat, distances: map<nat, nat>, budget: Budget, maxRoutes: int, ghost maxDepth: int)
    returns (layer: RankedLayer)
    requires Endpoints(g, start, goal) && IsArtistIndex(g, k.artistIndex)
    requires q == AlbumQuery(filter, None) && ExcludesNothing(q.excludes)
    requires Measures(g, q, goal, maxDepth, distances) && (targetDepth <= maxDepth || start == goal)
    modifies budget
    ensures IsSortedPool(Seen(g, k, q, start, goal, targetDepth, old(budget.remaining), maxRoutes), layer.candidates)
    ensures layer.candidates != [] <==> targetDepth >= 2 && InReach(g, q, start, goal, targetDepth, old(budget.remaining), maxRoutes) != []
    ensures layer.complete <==> LayerFits(g, q, start, goal, targetDepth, old(budget.remaining), maxRoutes)
    ensures layer.complete ==> budget.remaining == old(budget.remaining) - WalkCost(g, q, start, goal, targetDepth)
    ensures 0 <= old(budget.remaining) - budget.remaining <= Max(0, old(budget.remaining))
  {
    ReachIsExact(g, q, start, goal, targetDepth, budget.remaining, maxRoutes);
    var routes, complete :=
      CollectExactDepthRoutes(g, q, start, goal, targetDepth, distances, budget, maxRoutes, maxDepth);
    var ranked := RankCandidates(g, k, filter, start, goal, targetDepth, routes);
    RankedIsPool(g, k, q, start, goal, targetDepth, routes, ranked);
    var candidates := SortRanked(ranked);
    layer := RankedLayer(targetDepth, candidates, complete);
  }

  // ---------- What the engine answers ----------

  datatype Recommendation = Recommendation(
    recommended: RankedRoute,
    usedPlusOneHop: bool,
    shortestLayerComplete: bool,
    rankingDegraded: bool)

  /** The two limits of one recommendation. */
  datatype Caps = Caps(maxRoutes: int, maxExpansions: int)

  /** What the caps and the graph leave to choose from, for a shortest layer at one depth: the routes of
      that layer and of the next the engine comes to see, whether each layer fits the caps, whether there
      is a route to rank at all, and whether one hop further is within the hop bound. */
  datatype Outlook = Outlook(
    shortest: iset<RankedRoute>, any: bool, fits: bool, mayLook: bool, next: iset<RankedRoute>, nextFits: bool)

  /** What is seen of one layer. */
  ghost function Seen(g: Graph, k: Ranker, q: Query, start: nat, goal: nat, depth: nat, left: int, maxRoutes: int): iset<RankedRoute>
    requires RowsInRange(g) && IsArtistIndex(g, k.artistIndex)
  {
    Pool(g, k, q, start, goal, depth, InReach(g, q, start, goal, depth, left, maxRoutes))
  }

  /** What the guide leaves of the budget, and what the shortest layer leaves of that. */
  ghost function LeftOver(g: Graph, q: Query, goal: nat, maxUserHops: int, caps: Caps): int
    requires RowsInRange(g)
  {
    caps.maxExpansions - GuideCost(g, q, goal, maxUserHops + ALBUM_ANCHOR_HOP_BUDGET)
  }

  ghost function LeftThen(g: Graph, q: Query, start: nat, goal: nat, maxUserHops: int, caps: Caps, d: nat): int
    requires RowsInRange(g)
  {
    LeftOver(g, q, goal, maxUserHops, caps) - WalkCost(g, q, start, goal, d)
  }

  ghost function OutlookAt(g: Graph, k: Ranker, filter: EdgeFilter, start: nat, goal: nat, maxUserHops: int, caps: Caps, d: nat): Outlook
    requires RowsInRange(g) && IsArtistIndex(g, k.artistIndex)
  {
    var q := AlbumQuery(filter, None);
    var left, after := LeftOver(g, q, goal, maxUserHops, caps), LeftThen(g, q, start, goal, maxUserHops, caps, d);
    Outlook(
      Seen(g, k, q, start, goal, d, left, caps.maxRoutes),
      d >= 2 && InReach(g, q, start, goal, d, left, caps.maxRoutes) != [],
      LayerFits(g, q, start, goal, d, left, caps.maxRoutes),
      d + 1 <= maxUserHops + ALBUM_ANCHOR_HOP_BUDGET,
      Seen(g, k, q, start, goal, d + 1, after, caps.maxRoutes),
      LayerFits(g, q, start, goal, d + 1, after, caps.maxRoutes))
  }

  /** The engine looks one hop further: the whole shortest layer is known and at the worst severity. */
  ghost predicate Looks(o: Outlook) {
    o.fits && o.mayLook && AllWorst(o.shortest)
  }

  ghost predicate HasBetter(pool: iset<RankedRoute>) {
    exists r :: r in pool && Milder(r)
  }

  /** One hop further if that is where a better route is seen, and otherwise the shortest; the best of what
      is seen of that layer; and flags that say what was not. */
  ghost predicate Recommends(o: Outlook, rec: Recommendation) {
    if Looks(o) && HasBetter(o.next)
    then
      && rec.usedPlusOneHop && rec.shortestLayerComplete && (rec.rankingDegraded <==> !o.nextFits)
      && IsBest(o.next, rec.recommended)
    else
      && !rec.usedPlusOneHop && (rec.shortestLayerComplete <==> o.fits) && (rec.rankingDegraded <==> !o.fits)
      && IsBest(o.shortest, rec.recommended)
  }

  function DepthOf(rec: Recommendation, shortest: nat): nat {
    if rec.usedPlusOneHop then shortest + 1 else shortest
  }

  /** The plain search's route, claiming no ranking. */
  function Unranked(found: FoundRoute): Recommendation {
    Recommendation(RankedRoute(found.route, found.usedEdgeKeys, RouteFacts(|found.route.hops|, None, 0, 0)), false, false, true)
  }

  /** The answer is the plain search's. */
  ghost predicate FallsBack(g: Graph, filter: EdgeFilter, start: nat, goal: nat, maxUserHops: int, r: Result<Recommendation>, w: Walk)
    requires RowsInRange(g) && start < |g.nodeIds|
  {
    match r
    case Err(reason) => AlbumAnswer(g, filter, None, start, goal, maxUserHops, Err(reason), w)
    case Ok(rec) =>
      var best := rec.recommended;
      && AlbumAnswer(g, filter, None, start, goal, maxUserHops, Ok(FoundRoute(best.route, best.usedEdgeKeys)), w)
      && !rec.usedPlusOneHop && !rec.shortestLayerComplete && rec.rankingDegraded
      && best.facts.hopCount == |w.slots| - ALBUM_ANCHOR_HOP_BUDGET && best.facts.worstCaveatSeverity == None
      && best.facts.maxInteriorDegree == 0 && best.facts.performerHopCount == 0
  }

  /** The answer when the guide meets the start `d` hops out. */
  ghost predicate AnswerAt(g: Graph, k: Ranker, filter: EdgeFilter, start: nat, goal: nat, maxUserHops: int, caps: Caps, d: nat,
                           r: Result<Recommendation>, w: Walk)
    requires RowsInRange(g) && IsArtistIndex(g, k.artistIndex) && start < |g.nodeIds|
  {
    var o := OutlookAt(g, k, filter, start, goal, maxUserHops, caps, d);
    if o.any then
      && r.Ok? && Recommends(o, r.value)
      && RanksWalk(g, k, AlbumQuery(filter, None), start, goal, DepthOf(r.value, d), r.value.recommended, w)
    else if o.fits then r == Err(NoPath)
    else FallsBack(g, filter, start, goal, maxUserHops, r, w)
  }

  /** The guide meets `v` exactly `d` hops out. */
  ghost predicate Met(g: Graph, q: Query, goal: nat, v: nat, d: nat)
    requires RowsInRange(g)
  {
    Spreads(g, q, goal, v, d) && (d > 0 ==> !Spreads(g, q, goal, v, d - 1))
  }

  /** All the engine may answer, over any graph, for any filter and under any caps. */
  ghost predicate EngineAnswer(g: Graph, k: Ranker, filter: EdgeFilter, start: nat, goal: nat, maxUserHops: int, caps: Caps,
                               r: Result<Recommendation>, w: Walk)
    requires RowsInRange(g) && IsArtistIndex(g, k.artistIndex) && start < |g.nodeIds|
  {
    var q, maxDepth := AlbumQuery(filter, None), maxUserHops + ALBUM_ANCHOR_HOP_BUDGET;
    if !Affords(caps.maxExpansions, GuideCost(g, q, goal, maxDepth)) then FallsBack(g, filter, start, goal, maxUserHops, r, w)
    else if exists d: nat :: d <= maxDepth && Met(g, q, goal, start, d)
    then exists d: nat :: d <= maxDepth && Met(g, q, goal, start, d) && AnswerAt(g, k, filter, start, goal, maxUserHops, caps, d, r, w)
    else r == Err(NoPath)
  }

  // ---------- Steps of the argument ----------

  lemma {:induction false} MetOnce(g: Graph, q: Query, goal: nat, v: nat, d: nat, e: nat)
    requires RowsInRange(g) && Met(g, q, goal, v, d) && Met(g, q, goal, v, e)
    ensures d == e
  {
    if d < e { SpreadsMore(g, q, goal, v, d, e - 1); }
    if e < d { SpreadsMore(g, q, goal, v, e, d - 1); }
  }

  /** The guide's entry for a node is how far out it is met. */
  lemma GuideSaysWhen(g: Graph, q: Query, goal: nat, maxDepth: int, distances: map<nat, nat>, v: nat)
    requires RowsInRange(g) && Measures(g, q, goal, maxDepth, distances)
    ensures v in distances ==> Met(g, q, goal, v, distances[v])
    ensures v !in distances ==> forall d: nat :: d <= maxDepth ==> !Met(g, q, goal, v, d)
  {
    if v in distances {
      if v == goal { assert Spreads(g, q, goal, v, 0); }
      else {
        assert Spreads(g, q, goal, v, distances[v]);
        if distances[v] > 0 { assert !Spreads(g, q, goal, v, distances[v] - 1); }
      }
    }
  }

  /** The head of a sorted pool is the best of it. */
  lemma HeadIsBest(pool: iset<RankedRoute>, candidates: seq<RankedRoute>)
    requires candidates != [] && IsSortedPool(pool, candidates)
    ensures IsBest(pool, candidates[0])
  {
    var best := candidates[0];
    forall other | other in pool ensures NoWorse(best, other) {
      var i :| 0 <= i < |candidates| && candidates[i] == other;
      BeforeIsPrecedes(KeyText(best.usedEdgeKeys), KeyText(best.usedEdgeKeys));
      BeforeTrichotomy(KeyText(best.usedEdgeKeys), KeyText(best.usedEdgeKeys));
    }
  }

  /** The best of a pool tells whether it has a route below the worst severity. */
  lemma BestTellsBetter(pool: iset<RankedRoute>, best: RankedRoute)
    requires IsBest(pool, best)
    ensures HasBetter(pool) <==> Milder(best)
  {
    if HasBetter(pool) {
      var r :| r in pool && Milder(r);
      assert NoWorse(best, r);
    }
  }

  /** So does the head of the sorted pool. */
  lemma HeadTells(pool: iset<RankedRoute>, candidates: seq<RankedRoute>)
    requires IsSortedPool(pool, candidates)
    ensures HasBetter(pool) <==> candidates != [] && CaveatOf(candidates[0]) < WORST_SEVERITY
    ensures candidates != [] ==> IsBest(pool, candidates[0])
  {
    if candidates != [] {
      HeadIsBest(pool, candidates);
      BestTellsBetter(pool, candidates[0]);
    }
  }

  lemma CandidatesTellWorst(pool: iset<RankedRoute>, candidates: seq<RankedRoute>)
    requires IsSortedPool(pool, candidates)
    ensures AllWorst(pool) <==> forall i :: 0 <= i < |candidates| ==> CaveatOf(candidates[i]) == WORST_SEVERITY
  {
    if AllWorst(pool) {
      forall i | 0 <= i < |candidates| ensures CaveatOf(candidates[i]) == WORST_SEVERITY { assert candidates[i] in candidates; }
    }
  }

  // ---------- The engine ----------

  method Fallback(g: Graph, k: Ranker, albumIndex: map<string, int>, fromAlbumId: string, toAlbumId: string,
                  maxUserHops: int, filter: EdgeFilter)
    returns (r: Result<Recommendation>, ghost w: Walk)
    requires WellFormed(g) && IsArtistIndex(g, k.artistIndex) && IsAlbumIndex(g, albumIndex)
    requires fromAlbumId in albumIndex && toAlbumId in albumIndex
    requires Known(k.artistIndex, albumIndex, fromAlbumId) && Known(k.artistIndex, albumIndex, toAlbumId)
    ensures FallsBack(g, filter, k.artistIndex[albumIndex[fromAlbumId]], k.artistIndex[albumIndex[toAlbumId]], maxUserHops, r, w)
  {
    var plain;
    plain, w := FindAlbumRoute.FindAlbumRoute(g, k.artistIndex, albumIndex, fromAlbumId, toAlbumId, maxUserHops, filter, None);
    if plain.Err? { return Err(plain.reason), w; }
    r := Ok(Unranked(plain.value));
  }

  /** Checks one hop further than the shortest layer for a better-evidenced route. */
  method LookOneHopFurther(g: Graph, k: Ranker, filter: EdgeFilter, q: Query, start: nat, goal: nat, shortest: nat,
                           maxUserHops: int, maxRoutes: int, distances: map<nat, nat>, budget: Budget)
    returns (better: Option<RankedRoute>, complete: bool)
    requires Endpoints(g, start, goal) && IsArtistIndex(g, k.artistIndex)
    requires q == AlbumQuery(filter, None) && ExcludesNothing(q.excludes)
    requires Measures(g, q, goal, maxUserHops + ALBUM_ANCHOR_HOP_BUDGET, distances)
    requires shortest < maxUserHops + ALBUM_ANCHOR_HOP_BUDGET
    modifies budget
    ensures 0 <= old(budget.remaining) - budget.remaining <= Max(0, old(budget.remaining))
    ensures complete <==> LayerFits(g, q, start, goal, shortest + 1, old(budget.remaining), maxRoutes)
    ensures var next := Seen(g, k, q, start, goal, shortest + 1, old(budget.remaining), maxRoutes);
      (better.Some? <==> HasBetter(next)) && (better.Some? ==> IsBest(next, better.value))
  {
    ghost var pool := Seen(g, k, q, start, goal, shortest + 1, budget.remaining, maxRoutes);
    var next := RankExactDepthLayer(g, k, filter, q, start, goal, shortest + 1, distances, budget, maxRoutes,
                                    maxUserHops + ALBUM_ANCHOR_HOP_BUDGET);
    complete := next.complete;
    better := None;
    HeadTells(pool, next.candidates);
    if |next.candidates| > 0 {
      if CaveatOf(next.candidates[0]) < WORST_SEVERITY { better := Some(next.candidates[0]); }
    }
  }

  /** The sole exception to recommending from the shortest layer: every route of the complete
      layer is at the worst severity and the next layer has a better one. */
  method TryPlusOne(g: Graph, k: Ranker, filter: EdgeFilter, q: Query, start: nat, goal: nat, shortest: nat,
                    maxUserHops: int, maxRoutes: int, distances: map<nat, nat>, budget: Budget,
                    layer: RankedLayer, ghost o: Outlook)
    returns (better: Option<RankedRoute>, cut: bool)
    requires Endpoints(g, start, goal) && IsArtistIndex(g, k.artistIndex)
    requires q == AlbumQuery(filter, None) && ExcludesNothing(q.excludes)
    requires Measures(g, q, goal, maxUserHops + ALBUM_ANCHOR_HOP_BUDGET, distances)
    requires layer.candidates != [] && IsSortedPool(o.shortest, layer.candidates) && o.fits == layer.complete
    requires o.mayLook <==> shortest + 1 <= maxUserHops + ALBUM_ANCHOR_HOP_BUDGET
    requires o.fits ==>
      && o.nextFits == LayerFits(g, q, start, goal, shortest + 1, budget.remaining, maxRoutes)
      && o.next == Seen(g, k, q, start, goal, shortest + 1, budget.remaining, maxRoutes)
    modifies budget
    ensures 0 <= old(budget.remaining) - budget.remaining <= Max(0, old(budget.remaining))
    ensures better.Some? <==> Looks(o) && HasBetter(o.next)
    ensures better.Some? ==> IsBest(o.next, better.value) && cut == !o.nextFits
  {
    better, cut := None, false;
    var best := layer.candidates[0];
    var everyCandidateWorstTier := forall i :: 0 <= i < |layer.candidates| ==> CaveatOf(layer.candidates[i]) == WORST_SEVERITY;
    CandidatesTellWorst(o.shortest, layer.candidates);
    assert everyCandidateWorstTier ==> CaveatOf(best) == WORST_SEVERITY;
    if layer.complete && everyCandidateWorstTier && best.facts.worstCaveatSeverity == Some(WORST_SEVERITY)
       && shortest + 1 <= maxUserHops + ALBUM_ANCHOR_HOP_BUDGET {
      var complete;
      better, complete :=
        LookOneHopFurther(g, k, filter, q, start, goal, shortest, maxUserHops, maxRoutes, distances, budget);
      cut := !complete;
    }
  }

  /** Recommends from the candidates of the shortest layer, or from one hop further. */
  method RecommendFrom(g: Graph, k: Ranker, filter: EdgeFilter, q: Query, start: nat, goal: nat, shortest: nat,
                       maxUserHops: int, maxRoutes: int, distances: map<nat, nat>, budget: Budget, layer: RankedLayer, ghost o: Outlook)
    returns (rec: Recommendation)
    requires Endpoints(g, start, goal) && IsArtistIndex(g, k.artistIndex)
    requires q == AlbumQuery(filter, None) && ExcludesNothing(q.excludes)
    requires Measures(g, q, goal, maxUserHops + ALBUM_ANCHOR_HOP_BUDGET, distances)
    requires layer.candidates != [] && IsSortedPool(o.shortest, layer.candidates) && o.fits == layer.complete
    requires o.mayLook <==> shortest + 1 <= maxUserHops + ALBUM_ANCHOR_HOP_BUDGET
    requires o.fits ==>
      && o.nextFits == LayerFits(g, q, start, goal, shortest + 1, budget.remaining, maxRoutes)
      && o.next == Seen(g, k, q, start, goal, shortest + 1, budget.remaining, maxRoutes)
    modifies budget
    ensures 0 <= old(budget.remaining) - budget.remaining <= Max(0, old(budget.remaining))
    ensures Recommends(o, rec)
  {
    HeadIsBest(o.shortest, layer.candidates);
    var better, cut := TryPlusOne(g, k, filter, q, start, goal, shortest, maxUserHops, maxRoutes, distances, budget, layer, o);
    if better.Some? {
      rec := Recommendation(better.value, true, layer.complete, cut);
    } else {
      rec := Recommendation(layer.candidates[0], false, layer.complete, !layer.complete);
    }
  }

  /** A recommended route has a walk of the length it is recommended at. */
  lemma RecommendedWalk(g: Graph, k: Ranker, filter: EdgeFilter, start: nat, goal: nat, maxUserHops: int, caps: Caps, d: nat,
                        rec: Recommendation) returns (w: Walk)
    requires RowsInRange(g) && IsArtistIndex(g, k.artistIndex)
    requires Recommends(OutlookAt(g, k, filter, start, goal, maxUserHops, caps, d), rec)
    ensures RanksWalk(g, k, AlbumQuery(filter, None), start, goal, DepthOf(rec, d), rec.recommended, w)
  {
    var q := AlbumQuery(filter, None);
    var left := if rec.usedPlusOneHop then LeftThen(g, q, start, goal, maxUserHops, caps, d) else LeftOver(g, q, goal, maxUserHops, caps);
    var routes := InReach(g, q, start, goal, DepthOf(rec, d), left, caps.maxRoutes);
    assert RankedBy(g, k, q, start, goal, DepthOf(rec, d), routes, rec.recommended);
    w :| w in routes && RanksWalk(g, k, q, start, goal, DepthOf(rec, d), rec.recommended, w);
  }

  /** The outcome of ranking the shortest layer, and perhaps the next one. `None` asks for the fallback. */
  method RankShortest(g: Graph, k: Ranker, filter: EdgeFilter, q: Query, start: nat, goal: nat, shortest: nat,
                      maxUserHops: int, ghost caps: Caps, maxRoutes: int, distances: map<nat, nat>, budget: Budget)
    returns (r: Option<Result<Recommendation>>)
    requires Endpoints(g, start, goal) && IsArtistIndex(g, k.artistIndex)
    requires q == AlbumQuery(filter, None) && ExcludesNothing(q.excludes) && maxRoutes == caps.maxRoutes
    requires Measures(g, q, goal, maxUserHops + ALBUM_ANCHOR_HOP_BUDGET, distances)
    requires shortest <= maxUserHops + ALBUM_ANCHOR_HOP_BUDGET
    requires budget.remaining == LeftOver(g, q, goal, maxUserHops, caps)
    modifies budget
    ensures 0 <= old(budget.remaining) - budget.remaining <= Max(0, old(budget.remaining))
    ensures var o := OutlookAt(g, k, filter, start, goal, maxUserHops, caps, shortest);
      match r
      case None => !o.any && !o.fits
      case Some(Err(reason)) => !o.any && o.fits && reason == NoPath
      case Some(Ok(rec)) => o.any && Recommends(o, rec)
  {
    ghost var o := OutlookAt(g, k, filter, start, goal, maxUserHops, caps, shortest);
    var layer := RankExactDepthLayer(g, k, filter, q, start, goal, shortest, distances, budget, maxRoutes,
                                     maxUserHops + ALBUM_ANCHOR_HOP_BUDGET);
    if |layer.candidates| == 0 {
      return if layer.complete then Some(Err(NoPath)) else None;
    }
    var rec := RecommendFrom(g, k, filter, q, start, goal, shortest, maxUserHops, maxRoutes, distances, budget, layer, o);
    r := Some(Ok(rec));
  }

  method SelectRecommendedRoute(g: Graph, k: Ranker, albumIndex: map<string, int>, fromAlbumId: string, toAlbumId: string,
                                maxUserHops: int, filter: EdgeFilter, maxRoutes: int, maxExpansions: int)
    returns (r: Result<Recommendation>, ghost w: Walk, ghost charged: int)
    requires WellFormed(g) && IsArtistIndex(g, k.artistIndex) && IsAlbumIndex(g, albumIndex)
    ensures fromAlbumId !in albumIndex || toAlbumId !in albumIndex ==> r == Err(UnknownAlbum)
    ensures fromAlbumId in albumIndex && toAlbumId in albumIndex ==>
      && Known(k.artistIndex, albumIndex, fromAlbumId) && Known(k.artistIndex, albumIndex, toAlbumId)
      && EngineAnswer(g, k, filter, k.artistIndex[albumIndex[fromAlbumId]], k.artistIndex[albumIndex[toAlbumId]],
                      maxUserHops, Caps(maxRoutes, maxExpansions), r, w)
    ensures 0 <= charged <= Max(0, maxExpansions)
  {
    w, charged := Walk([], []), 0;
    if fromAlbumId !in albumIndex || toAlbumId !in albumIndex {
      return Err(UnknownAlbum), w, charged;
    }
    AlbumIndexHitsVirtualNode(g, albumIndex, k.artistIndex, fromAlbumId);
    AlbumIndexHitsVirtualNode(g, albumIndex, k.artistIndex, toAlbumId);
    var start, goal := k.artistIndex[albumIndex[fromAlbumId]], k.artistIndex[albumIndex[toAlbumId]];
    var maxDepth := maxUserHops + ALBUM_ANCHOR_HOP_BUDGET;
    ghost var caps := Caps(maxRoutes, maxExpansions);
    var q := AlbumQuery(filter, None);
    var budget := new Budget(maxExpansions);
    var distances, exhausted := ReverseDistances.ReverseDistances(g, goal, maxDepth, budget, q);
    charged := maxExpansions - budget.remaining;
    if exhausted {
      r, w := Fallback(g, k, albumIndex, fromAlbumId, toAlbumId, maxUserHops, filter);
      return;
    }
    GuideSaysWhen(g, q, goal, maxDepth, distances, start);
    if start !in distances {
      return Err(NoPath), w, charged;
    }
    var shortestPossible := distances[start];
    if shortestPossible > maxDepth {
      NeverNear(g, q, goal, start, shortestPossible, maxDepth);
      return Err(NoPath), w, charged;
    }
    var ranked := RankShortest(g, k, filter, q, start, goal, shortestPossible, maxUserHops, caps, maxRoutes, distances, budget);
    charged := maxExpansions - budget.remaining;
    if ranked.None? {
      r, w := Fallback(g, k, albumIndex, fromAlbumId, toAlbumId, maxUserHops, filter);
    } else {
      r := ranked.value;
      if r.Ok? { w := RecommendedWalk(g, k, filter, start, goal, maxUserHops, caps, shortestPossible, r.value); }
    }
    assert AnswerAt(g, k, filter, start, goal, maxUserHops, caps, shortestPossible, r, w);
  }

  lemma NeverNear(g: Graph, q: Query, goal: nat, v: nat, d: nat, maxDepth: int)
    requires RowsInRange(g) && Met(g, q, goal, v, d) && d > maxDepth
    ensures forall e: nat :: e <= maxDepth ==> !Met(g, q, goal, v, e)
  {
    forall e: nat | e <= maxDepth ensures !Met(g, q, goal, v, e) {
      if Met(g, q, goal, v, e) { MetOnce(g, q, goal, v, d, e); }
    }
  }

  // ---------- What that means where edges and filters have no direction ----------

  /** How long the shortest route is, given the recommended one. */
  function ShortestOf(rec: Recommendation, w: Walk): int {
    if rec.usedPlusOneHop then |w.slots| - 1 else |w.slots|
  }

  ghost predicate ShortestIn(g: Graph, filter: EdgeFilter, start: nat, goal: nat, d: int)
    requires RowsInRange(g)
  {
    d >= 2 && Distance(g, AlbumQuery(filter, None), goal, start, d)
  }

  /** The recommended route is real, and as long as the engine says it is. */
  ghost predicate RealRoute(g: Graph, filter: EdgeFilter, start: nat, goal: nat, maxUserHops: int, rec: Recommendation, w: Walk)
    requires RowsInRange(g)
  {
    var q := AlbumQuery(filter, None);
    var best := rec.recommended;
    && IsRoute(g, q, start, goal, w) && InBounds(g, w)
    && StripAlbumAnchors(HopsOf(g, w)) == Some(best.route)
    && best.usedEdgeKeys == EdgeKeysForHops(HopsOf(g, w))
    && ShowsWalk(g, w, best.route) && KeysOfWalk(g, w, best.usedEdgeKeys)
    && |w.slots| == |best.route.hops| + ALBUM_ANCHOR_HOP_BUDGET
    && |best.route.hops| <= maxUserHops
    && Chains(best.route) && Clean(best.route, filter)
    && ShortestIn(g, filter, start, goal, ShortestOf(rec, w))
  }

  ghost predicate RanksRoute(g: Graph, k: Ranker, q: Query, start: nat, goal: nat, depth: nat, r: RankedRoute, w: Walk)
    requires RowsInRange(g) && IsArtistIndex(g, k.artistIndex)
  {
    IsRoute(g, q, start, goal, w) && |w.slots| == depth && InBounds(g, w) && Ranks(g, k, HopsOf(g, w), r)
  }

  /** Every simple admissible route of one length, ranked; no guide has a say in it. */
  ghost function EveryRoute(g: Graph, k: Ranker, q: Query, start: nat, goal: nat, depth: nat): iset<RankedRoute>
    requires RowsInRange(g) && IsArtistIndex(g, k.artistIndex)
  {
    iset r: RankedRoute | HasRoute(g, k, q, start, goal, depth, r)
  }

  ghost predicate HasRoute(g: Graph, k: Ranker, q: Query, start: nat, goal: nat, depth: nat, r: RankedRoute)
    requires RowsInRange(g) && IsArtistIndex(g, k.artistIndex)
  {
    exists w :: RanksRoute(g, k, q, start, goal, depth, r, w)
  }

  /** The answer in terms of the graph alone: a real route of the shortest length, or one longer only when
      every shortest one is at the worst severity; the best of its length unless it says otherwise; or the
      fact that there is none. */
  ghost predicate SelectAnswer(g: Graph, k: Ranker, filter: EdgeFilter, start: nat, goal: nat, maxUserHops: int,
                               r: Result<Recommendation>, w: Walk)
    requires RowsInRange(g) && IsArtistIndex(g, k.artistIndex)
  {
    var q := AlbumQuery(filter, None);
    match r
    case Ok(rec) =>
      && RealRoute(g, filter, start, goal, maxUserHops, rec, w)
      && (!rec.rankingDegraded ==> IsBest(EveryRoute(g, k, q, start, goal, |w.slots|), rec.recommended))
      && (rec.usedPlusOneHop ==>
            && AllWorst(EveryRoute(g, k, q, start, goal, |w.slots| - 1))
            && rec.recommended in EveryRoute(g, k, q, start, goal, |w.slots|) && Milder(rec.recommended))
    case Err(reason) =>
      && reason == NoPath
      && forall d: nat :: 2 <= d <= maxUserHops + ALBUM_ANCHOR_HOP_BUDGET ==> !Distance(g, q, goal, start, d)
  }

  /** A graph, a query and two albums for which the guide measures the way in. */
  ghost predicate TwoWay(g: Graph, filter: EdgeFilter, start: nat, goal: nat) {
    Endpoints(g, start, goal) && Undirected(g) && RoleSymmetric(filter)
  }

  lemma QueryUnrestricted(filter: EdgeFilter)
    requires RoleSymmetric(filter)
    ensures Unrestricted(AlbumQuery(filter, None))
  {
    AnchorAwareSymmetric(filter);
  }

  lemma MetIsDistance(g: Graph, filter: EdgeFilter, start: nat, goal: nat, d: nat)
    requires TwoWay(g, filter, start, goal)
    ensures Met(g, AlbumQuery(filter, None), goal, start, d) <==> Distance(g, AlbumQuery(filter, None), goal, start, d)
  {
    var q := AlbumQuery(filter, None);
    QueryUnrestricted(filter);
    SpreadsIffReaches(g, q, goal, start, d);
    if d > 0 { SpreadsIffReaches(g, q, goal, start, d - 1); }
  }

  /** There the layer is every route of its length. */
  lemma LayerIsEveryRoute(g: Graph, k: Ranker, filter: EdgeFilter, start: nat, goal: nat, depth: nat)
    requires TwoWay(g, filter, start, goal) && IsArtistIndex(g, k.artistIndex)
    ensures Layer(g, k, AlbumQuery(filter, None), start, goal, depth) == EveryRoute(g, k, AlbumQuery(filter, None), start, goal, depth)
  {
    var q := AlbumQuery(filter, None);
    QueryUnrestricted(filter);
    forall r ensures HasWalk(g, k, q, start, goal, depth, r) <==> HasRoute(g, k, q, start, goal, depth, r) {
      if HasWalk(g, k, q, start, goal, depth, r) {
        var w :| RanksWalk(g, k, q, start, goal, depth, r, w);
        assert RanksRoute(g, k, q, start, goal, depth, r, w);
      }
      if w :| RanksRoute(g, k, q, start, goal, depth, r, w) {
        EveryRouteIsGuided(g, q, start, goal, w);
        assert RanksWalk(g, k, q, start, goal, depth, r, w);
      }
    }
  }

  /** What is seen of a layer that fits is every route of its length. */
  lemma SeesAll(g: Graph, k: Ranker, filter: EdgeFilter, start: nat, goal: nat, depth: nat, left: int, maxRoutes: int)
    requires TwoWay(g, filter, start, goal) && IsArtistIndex(g, k.artistIndex)
    requires LayerFits(g, AlbumQuery(filter, None), start, goal, depth, left, maxRoutes)
    ensures var q := AlbumQuery(filter, None);
      Seen(g, k, q, start, goal, depth, left, maxRoutes) == EveryRoute(g, k, q, start, goal, depth)
  {
    var q := AlbumQuery(filter, None);
    SeesLayer(g, k, q, start, goal, depth, left, maxRoutes);
    LayerIsEveryRoute(g, k, filter, start, goal, depth);
  }

  /** Where edges and filters have no direction, whatever the engine answers is right. */
  lemma EngineIsRight(g: Graph, k: Ranker, filter: EdgeFilter, start: nat, goal: nat, maxUserHops: int, caps: Caps,
                      r: Result<Recommendation>, w: Walk)
    requires TwoWay(g, filter, start, goal) && IsArtistIndex(g, k.artistIndex)
    requires EngineAnswer(g, k, filter, start, goal, maxUserHops, caps, r, w)
    ensures SelectAnswer(g, k, filter, start, goal, maxUserHops, r, w)
  {
    var q, maxDepth := AlbumQuery(filter, None), maxUserHops + ALBUM_ANCHOR_HOP_BUDGET;
    if !Affords(caps.maxExpansions, GuideCost(g, q, goal, maxDepth)) {
    } else if exists d: nat :: d <= maxDepth && Met(g, q, goal, start, d) {
      var d: nat :| d <= maxDepth && Met(g, q, goal, start, d) && AnswerAt(g, k, filter, start, goal, maxUserHops, caps, d, r, w);
      AnswerAtIsRight(g, k, filter, start, goal, maxUserHops, caps, d, r, w);
    } else {
      forall d: nat | 2 <= d <= maxDepth ensures !Distance(g, q, goal, start, d) {
        MetIsDistance(g, filter, start, goal, d);
      }
    }
  }

  lemma AnswerAtIsRight(g: Graph, k: Ranker, filter: EdgeFilter, start: nat, goal: nat, maxUserHops: int, caps: Caps, d: nat,
                        r: Result<Recommendation>, w: Walk)
    requires TwoWay(g, filter, start, goal) && IsArtistIndex(g, k.artistIndex)
    requires Met(g, AlbumQuery(filter, None), goal, start, d) && d <= maxUserHops + ALBUM_ANCHOR_HOP_BUDGET
    requires AnswerAt(g, k, filter, start, goal, maxUserHops, caps, d, r, w)
    ensures SelectAnswer(g, k, filter, start, goal, maxUserHops, r, w)
  {
    var o := OutlookAt(g, k, filter, start, goal, maxUserHops, caps, d);
    MetIsDistance(g, filter, start, goal, d);
    if o.any {
      var rec := r.value;
      RecommendedIsReal(g, k, filter, start, goal, maxUserHops, d, rec, w);
      RecommendedIsBest(g, k, filter, start, goal, maxUserHops, caps, d, rec, o);
      RankedIsRight(g, k, filter, start, goal, maxUserHops, d, rec, w);
    } else if o.fits {
      NothingToRank(g, filter, start, goal, d, LeftOver(g, AlbumQuery(filter, None), goal, maxUserHops, caps), caps.maxRoutes);
    }
  }

  lemma RankedIsRight(g: Graph, k: Ranker, filter: EdgeFilter, start: nat, goal: nat, maxUserHops: int, d: nat,
                      rec: Recommendation, w: Walk)
    requires RowsInRange(g) && IsArtistIndex(g, k.artistIndex)
    requires RealRoute(g, filter, start, goal, maxUserHops, rec, w) && |w.slots| == DepthOf(rec, d)
    requires BestOfLength(g, k, filter, start, goal, d, rec)
    requires RanksWalk(g, k, AlbumQuery(filter, None), start, goal, DepthOf(rec, d), rec.recommended, w)
    ensures SelectAnswer(g, k, filter, start, goal, maxUserHops, Ok(rec), w)
  {
    assert RanksRoute(g, k, AlbumQuery(filter, None), start, goal, DepthOf(rec, d), rec.recommended, w);
  }

  ghost predicate BestOfLength(g: Graph, k: Ranker, filter: EdgeFilter, start: nat, goal: nat, d: nat, rec: Recommendation)
    requires RowsInRange(g) && IsArtistIndex(g, k.artistIndex)
  {
    var q := AlbumQuery(filter, None);
    && (!rec.rankingDegraded ==> IsBest(EveryRoute(g, k, q, start, goal, DepthOf(rec, d)), rec.recommended))
    && (rec.usedPlusOneHop ==> AllWorst(EveryRoute(g, k, q, start, goal, d)) && Milder(rec.recommended))
  }

  lemma RecommendedIsReal(g: Graph, k: Ranker, filter: EdgeFilter, start: nat, goal: nat, maxUserHops: int, d: nat,
                          rec: Recommendation, w: Walk)
    requires Endpoints(g, start, goal) && IsArtistIndex(g, k.artistIndex) && ShortestIn(g, filter, start, goal, d)
    requires DepthOf(rec, d) <= maxUserHops + ALBUM_ANCHOR_HOP_BUDGET
    requires RanksWalk(g, k, AlbumQuery(filter, None), start, goal, DepthOf(rec, d), rec.recommended, w)
    ensures RealRoute(g, filter, start, goal, maxUserHops, rec, w)
  {
    StrippedRoute(g, filter, AlbumQuery(filter, None).excludes, start, goal, w);
    HopKeys(g, w);
  }

  lemma RecommendedIsBest(g: Graph, k: Ranker, filter: EdgeFilter, start: nat, goal: nat, maxUserHops: int, caps: Caps, d: nat,
                          rec: Recommendation, o: Outlook)
    requires TwoWay(g, filter, start, goal) && IsArtistIndex(g, k.artistIndex)
    requires o == OutlookAt(g, k, filter, start, goal, maxUserHops, caps, d) && Recommends(o, rec)
    ensures BestOfLength(g, k, filter, start, goal, d, rec)
  {
    var q := AlbumQuery(filter, None);
    if o.fits { SeesAll(g, k, filter, start, goal, d, LeftOver(g, q, goal, maxUserHops, caps), caps.maxRoutes); }
    if o.nextFits { SeesAll(g, k, filter, start, goal, d + 1, LeftThen(g, q, start, goal, maxUserHops, caps, d), caps.maxRoutes); }
    BestOfSeen(EveryRoute(g, k, q, start, goal, d), EveryRoute(g, k, q, start, goal, d + 1), o, rec);
  }

  lemma BestOfSeen(shortest: iset<RankedRoute>, next: iset<RankedRoute>, o: Outlook, rec: Recommendation)
    requires (o.fits ==> o.shortest == shortest) && (o.nextFits ==> o.next == next) && Recommends(o, rec)
    ensures !rec.rankingDegraded ==> IsBest(if rec.usedPlusOneHop then next else shortest, rec.recommended)
    ensures rec.usedPlusOneHop ==> AllWorst(shortest) && Milder(rec.recommended)
  {
    if rec.usedPlusOneHop { BestTellsBetter(o.next, rec.recommended); }
  }

  /** Some route of the distance's length is listed. */
  lemma ShortestIsListed(g: Graph, filter: EdgeFilter, start: nat, goal: nat, d: nat)
    requires TwoWay(g, filter, start, goal) && Distance(g, AlbumQuery(filter, None), goal, start, d)
    ensures ExactRoutes(g, AlbumQuery(filter, None), start, goal, d) != []
  {
    var q := AlbumQuery(filter, None);
    QueryUnrestricted(filter);
    var w := ShortestRoute(g, q, goal, start, d);
    DescendingIsSimple(g, q, goal, w);
    EveryRouteIsGuided(g, q, start, goal, w);
    ExactRoutesExact(g, q, start, goal, d);
    assert w in ExactRoutes(g, q, start, goal, d);
  }

  /** With all of a layer seen and nothing in it to rank, there is no route between the albums' people. */
  lemma NothingToRank(g: Graph, filter: EdgeFilter, start: nat, goal: nat, d: nat, left: int, maxRoutes: int)
    requires TwoWay(g, filter, start, goal) && Distance(g, AlbumQuery(filter, None), goal, start, d)
    requires LayerFits(g, AlbumQuery(filter, None), start, goal, d, left, maxRoutes)
    requires d < 2 || InReach(g, AlbumQuery(filter, None), start, goal, d, left, maxRoutes) == []
    ensures forall e: nat :: 2 <= e ==> !Distance(g, AlbumQuery(filter, None), goal, start, e)
  {
    var q := AlbumQuery(filter, None);
    ShortestIsListed(g, filter, start, goal, d);
    ReachIsExact(g, q, start, goal, d, left, maxRoutes);
    assert d < 2;
    forall e: nat | 2 <= e ensures !Distance(g, q, goal, start, e) {
      if Distance(g, q, goal, start, e) { DistanceUnique(g, q, goal, start, d, e); }
    }
  }

  // ---------- Agreement with the plain search ----------

  /** Both searches, on any query and under any caps, find a route or fail together; the
      recommended route is as long as the plain one, or one hop longer and says so. */
  lemma AgreesWithPlainSearch(g: Graph, k: Ranker, filter: EdgeFilter, start: nat, goal: nat, maxUserHops: int,
                              plain: Result<FoundRoute>, wp: Walk, caps: Caps, ranked: Result<Recommendation>, wr: Walk)
    requires TwoWay(g, filter, start, goal) && IsArtistIndex(g, k.artistIndex)
    requires AlbumAnswer(g, filter, None, start, goal, maxUserHops, plain, wp)
    requires EngineAnswer(g, k, filter, start, goal, maxUserHops, caps, ranked, wr)
    ensures plain.Ok? <==> ranked.Ok?
    ensures plain.Err? ==> plain.reason == ranked.reason
    ensures plain.Ok? ==>
      |ranked.value.recommended.route.hops| - |plain.value.route.hops| == (if ranked.value.usedPlusOneHop then 1 else 0)
  {
    var q := AlbumQuery(filter, None);
    EngineIsRight(g, k, filter, start, goal, maxUserHops, caps, ranked, wr);
    if plain.Ok? && ranked.Ok? {
      DistanceUnique(g, q, goal, start, |wp.slots|, ShortestOf(ranked.value, wr));
    }
  }
}
