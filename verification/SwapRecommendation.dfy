/** Swapping the two records: read back to front, the best route one way is the best route the other way. */
module SwapRecommendation {
  import opened Text
  import opened PathfindingGraph
  import opened Routes
  import opened FindPath
  import opened FindAlbumRoute
  import opened SwapRoute
  import opened RouteRanking
  import opened RecommendedRoute
  import opened OrderIndependence

  /** A ranked route read back to front. */
  function Turned(r: RankedRoute): RankedRoute {
    RankedRoute(ReverseRoute(r.route), r.usedEdgeKeys, r.facts)
  }

  lemma TurnedKeepsRank(a: RankedRoute, b: RankedRoute)
    ensures CompareRanked(Turned(a), Turned(b)) == CompareRanked(a, b)
    ensures Turned(Turned(a)) == a
  {
    ReverseRouteInvolution(a.route);
  }

  lemma TwoWayBack(g: Graph, filter: EdgeFilter, start: nat, goal: nat)
    requires TwoWay(g, filter, start, goal)
    ensures TwoWay(g, filter, goal, start)
  {
  }

  lemma TurnedRanks(g: Graph, k: Ranker, hops: seq<PathHop>, r: RankedRoute)
    requires RowsInRange(g) && IsArtistIndex(g, k.artistIndex) && Ranks(g, k, hops, r)
    ensures Ranks(g, k, ReverseHops(hops), Turned(r))
  {
    StripReversed(hops);
    ReverseKeepsEdgeKeys(hops);
    ReverseKeepsFacts(g, k, r.route.hops, r.facts);
  }

  lemma TurnedWalk(g: Graph, k: Ranker, filter: EdgeFilter, start: nat, goal: nat, depth: nat, r: RankedRoute, w: Walk)
    returns (v: Walk)
    requires RowsInRange(g) && Undirected(g) && RoleSymmetric(filter) && IsArtistIndex(g, k.artistIndex)
    requires RanksRoute(g, k, AlbumQuery(filter, None), start, goal, depth, r, w)
    ensures RanksRoute(g, k, AlbumQuery(filter, None), goal, start, depth, Turned(r), v)
  {
    AlbumQueryDirectionless(filter, None);
    v := ReversedWalk(g, AlbumQuery(filter, None), start, goal, w);
    TurnedRanks(g, k, HopsOf(g, w), r);
  }

  /** Every route one way is a route the other way, turned. */
  lemma TurnedIsRoute(g: Graph, k: Ranker, filter: EdgeFilter, start: nat, goal: nat, depth: nat, r: RankedRoute)
    requires RowsInRange(g) && Undirected(g) && RoleSymmetric(filter) && IsArtistIndex(g, k.artistIndex)
    requires r in EveryRoute(g, k, AlbumQuery(filter, None), start, goal, depth)
    ensures Turned(r) in EveryRoute(g, k, AlbumQuery(filter, None), goal, start, depth)
  {
    var q := AlbumQuery(filter, None);
    assert HasRoute(g, k, q, start, goal, depth, r);
    var w :| RanksRoute(g, k, q, start, goal, depth, r, w);
    var v := TurnedWalk(g, k, filter, start, goal, depth, r, w);
  }

  /** The best routes of one length, one way and the other, are each other turned. */
  lemma BestIsTurned(g: Graph, k: Ranker, filter: EdgeFilter, start: nat, goal: nat, depth: nat, a: RankedRoute, b: RankedRoute)
    requires TwoWay(g, filter, start, goal) && NoTwinSlots(g) && IsArtistIndex(g, k.artistIndex)
    requires IsBest(EveryRoute(g, k, AlbumQuery(filter, None), start, goal, depth), a)
    requires IsBest(EveryRoute(g, k, AlbumQuery(filter, None), goal, start, depth), b)
    ensures b == Turned(a)
  {
    TwoWayBack(g, filter, start, goal);
    TurnedIsRoute(g, k, filter, start, goal, depth, a);
    TurnedIsRoute(g, k, filter, goal, start, depth, b);
    TurnedKeepsRank(a, Turned(b));
    TurnedKeepsRank(b, b);
    BestCompares(EveryRoute(g, k, AlbumQuery(filter, None), start, goal, depth), a);
    BestCompares(EveryRoute(g, k, AlbumQuery(filter, None), goal, start, depth), b);
    CompareRankedIsTotal();
    assert CompareRanked(b, Turned(a)) == 0;
    LayerIsEveryRoute(g, k, filter, goal, start, depth);
    NoTiesInLayer(g, k, AlbumQuery(filter, None), goal, start, depth, b, Turned(a));
  }

  /** Two fully ranked recommendations between the same two records, one each way and each under caps of its
      own, are each other read back to front, over the same edges and with the same facts, whenever they
      look equally far. */
  lemma SwappedRecommendation(
      g: Graph, k: Ranker, filter: EdgeFilter, start: nat, goal: nat, maxUserHops: int,
      caps: Caps, a: Recommendation, wa: Walk, caps': Caps, b: Recommendation, wb: Walk)
    requires TwoWay(g, filter, start, goal) && NoTwinSlots(g) && IsArtistIndex(g, k.artistIndex)
    requires EngineAnswer(g, k, filter, start, goal, maxUserHops, caps, Ok(a), wa)
    requires EngineAnswer(g, k, filter, goal, start, maxUserHops, caps', Ok(b), wb)
    requires !a.rankingDegraded && !b.rankingDegraded && a.usedPlusOneHop == b.usedPlusOneHop
    ensures b.recommended == Turned(a.recommended)
  {
    TwoWayBack(g, filter, start, goal);
    EngineIsRight(g, k, filter, start, goal, maxUserHops, caps, Ok(a), wa);
    EngineIsRight(g, k, filter, goal, start, maxUserHops, caps', Ok(b), wb);
    SwappedAnswer(g, k, filter, start, goal, maxUserHops, a, wa, b, wb);
  }

  lemma SwappedAnswer(g: Graph, k: Ranker, filter: EdgeFilter, start: nat, goal: nat, maxUserHops: int,
                      a: Recommendation, wa: Walk, b: Recommendation, wb: Walk)
    requires TwoWay(g, filter, start, goal) && NoTwinSlots(g) && IsArtistIndex(g, k.artistIndex)
    requires SelectAnswer(g, k, filter, start, goal, maxUserHops, Ok(a), wa)
    requires SelectAnswer(g, k, filter, goal, start, maxUserHops, Ok(b), wb)
    requires !a.rankingDegraded && !b.rankingDegraded && a.usedPlusOneHop == b.usedPlusOneHop
    ensures b.recommended == Turned(a.recommended)
  {
    RecommendsBest(g, k, filter, start, goal, maxUserHops, a, wa);
    RecommendsBest(g, k, filter, goal, start, maxUserHops, b, wb);
    SameLength(g, filter, start, goal, ShortestOf(a, wa), ShortestOf(b, wb));
    BestIsTurned(g, k, filter, start, goal, |wa.slots|, a.recommended, b.recommended);
  }

  lemma RecommendsBest(g: Graph, k: Ranker, filter: EdgeFilter, start: nat, goal: nat, maxUserHops: int, a: Recommendation, w: Walk)
    requires RowsInRange(g) && IsArtistIndex(g, k.artistIndex) && SelectAnswer(g, k, filter, start, goal, maxUserHops, Ok(a), w)
    requires !a.rankingDegraded
    ensures IsBest(EveryRoute(g, k, AlbumQuery(filter, None), start, goal, |w.slots|), a.recommended)
    ensures ShortestIn(g, filter, start, goal, ShortestOf(a, w))
  {
  }

  lemma SameLength(g: Graph, filter: EdgeFilter, start: nat, goal: nat, d: int, e: int)
    requires TwoWay(g, filter, start, goal) && ShortestIn(g, filter, start, goal, d) && ShortestIn(g, filter, goal, start, e)
    ensures d == e
  {
    var q := AlbumQuery(filter, None);
    AlbumQueryDirectionless(filter, None);
    DistanceBack(g, q, start, goal, d);
    DistanceUnique(g, q, start, goal, d, e);
  }

  lemma TurnedWorst(g: Graph, k: Ranker, filter: EdgeFilter, start: nat, goal: nat, depth: nat)
    requires TwoWay(g, filter, start, goal) && IsArtistIndex(g, k.artistIndex)
    requires AllWorst(EveryRoute(g, k, AlbumQuery(filter, None), start, goal, depth))
    ensures AllWorst(EveryRoute(g, k, AlbumQuery(filter, None), goal, start, depth))
  {
    var q := AlbumQuery(filter, None);
    TwoWayBack(g, filter, start, goal);
    forall r | r in EveryRoute(g, k, q, goal, start, depth) ensures r.facts.worstCaveatSeverity == Some(WORST_SEVERITY) {
      TurnedIsRoute(g, k, filter, goal, start, depth, r);
    }
  }

  /** They do look equally far when the way back can read the next layer whenever it looks at it. */
  lemma LooksAsFarBack(
      g: Graph, k: Ranker, filter: EdgeFilter, start: nat, goal: nat, maxUserHops: int,
      caps: Caps, a: Recommendation, wa: Walk, caps': Caps, b: Recommendation, wb: Walk, d: nat)
    requires TwoWay(g, filter, start, goal) && IsArtistIndex(g, k.artistIndex)
    requires EngineAnswer(g, k, filter, start, goal, maxUserHops, caps, Ok(a), wa) && a.usedPlusOneHop
    requires EngineAnswer(g, k, filter, goal, start, maxUserHops, caps', Ok(b), wb) && !b.rankingDegraded
    requires Met(g, AlbumQuery(filter, None), start, goal, d)
    requires OutlookAt(g, k, filter, goal, start, maxUserHops, caps', d).nextFits
    ensures b.usedPlusOneHop
  {
    TwoWayBack(g, filter, start, goal);
    EngineIsRight(g, k, filter, start, goal, maxUserHops, caps, Ok(a), wa);
    var e := Undegraded(g, k, filter, goal, start, maxUserHops, caps', b, wb);
    MetOnce(g, AlbumQuery(filter, None), start, goal, d, e);
    BetterRouteBack(g, k, filter, start, goal, maxUserHops, a, wa, d);
    SeesBetter(g, k, filter, goal, start, maxUserHops, caps', d, b);
  }

  lemma SameDepthBack(g: Graph, filter: EdgeFilter, start: nat, goal: nat, d: nat, e: nat)
    requires TwoWay(g, filter, start, goal) && Met(g, AlbumQuery(filter, None), start, goal, d)
    requires Distance(g, AlbumQuery(filter, None), goal, start, e)
    ensures d == e
  {
    var q := AlbumQuery(filter, None);
    TwoWayBack(g, filter, start, goal);
    MetIsDistance(g, filter, goal, start, d);
    AlbumQueryDirectionless(filter, None);
    DistanceBack(g, q, start, goal, e);
    DistanceUnique(g, q, start, goal, d, e);
  }

  /** The better route found one way is there the other way. */
  lemma BetterRouteBack(g: Graph, k: Ranker, filter: EdgeFilter, start: nat, goal: nat, maxUserHops: int,
                        a: Recommendation, w: Walk, d: nat)
    requires TwoWay(g, filter, start, goal) && IsArtistIndex(g, k.artistIndex) && a.usedPlusOneHop
    requires SelectAnswer(g, k, filter, start, goal, maxUserHops, Ok(a), w)
    requires Met(g, AlbumQuery(filter, None), start, goal, d)
    ensures AllWorst(EveryRoute(g, k, AlbumQuery(filter, None), goal, start, d))
    ensures HasBetter(EveryRoute(g, k, AlbumQuery(filter, None), goal, start, d + 1))
    ensures d + 1 <= maxUserHops + ALBUM_ANCHOR_HOP_BUDGET
  {
    SameDepthBack(g, filter, start, goal, d, ShortestOf(a, w));
    TurnedWorst(g, k, filter, start, goal, d);
    TurnedIsRoute(g, k, filter, start, goal, d + 1, a.recommended);
    TurnedKeepsRank(a.recommended, a.recommended);
  }

  lemma SeesBetter(g: Graph, k: Ranker, filter: EdgeFilter, start: nat, goal: nat, maxUserHops: int, caps: Caps, d: nat,
                   b: Recommendation)
    requires TwoWay(g, filter, start, goal) && IsArtistIndex(g, k.artistIndex)
    requires var o := OutlookAt(g, k, filter, start, goal, maxUserHops, caps, d);
      Recommends(o, b) && !b.rankingDegraded && o.nextFits && o.mayLook
    requires AllWorst(EveryRoute(g, k, AlbumQuery(filter, None), start, goal, d))
    requires HasBetter(EveryRoute(g, k, AlbumQuery(filter, None), start, goal, d + 1))
    ensures b.usedPlusOneHop
  {
    var q := AlbumQuery(filter, None);
    var o := OutlookAt(g, k, filter, start, goal, maxUserHops, caps, d);
    SeesAll(g, k, filter, start, goal, d + 1, LeftThen(g, q, start, goal, maxUserHops, caps, d), caps.maxRoutes);
    if o.fits { SeesAll(g, k, filter, start, goal, d, LeftOver(g, q, goal, maxUserHops, caps), caps.maxRoutes); }
  }
}
