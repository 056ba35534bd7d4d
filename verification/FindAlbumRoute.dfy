/** Record-to-record search: a path between two album anchors, with the anchors stripped off. */
module FindAlbumRoute {
  import opened Text
  import opened PathfindingGraph
  import opened Routes
  import opened SlotOrder
  import opened FindPath

  datatype FoundRoute = FoundRoute(route: AlbumRoute, usedEdgeKeys: set<string>)

  /** The route reads hop by hop from one endpoint's artist to the other's. */
  ghost predicate Chains(route: AlbumRoute) {
    if route.hops == [] then route.endpointA.artistId == route.endpointB.artistId
    else
      && route.hops[0].artistAId == route.endpointA.artistId
      && route.hops[|route.hops| - 1].artistBId == route.endpointB.artistId
      && forall i :: 0 <= i < |route.hops| - 1 ==> route.hops[i].artistBId == route.hops[i + 1].artistAId
  }

  predicate RealHop(hop: PathHop, filter: EdgeFilter) {
    && hop.artistAId >= 0 && hop.artistBId >= 0
    && hop.roleA != ALBUM_ANCHOR_SENTINEL && hop.roleB != ALBUM_ANCHOR_SENTINEL
    && filter(hop.roleA, hop.roleB)
  }

  predicate RealEndpoint(e: AlbumEndpoint) {
    e.artistId >= 0 && e.roleText != ALBUM_ANCHOR_SENTINEL
  }

  /** No synthetic node or role shows, and every hop passes the caller's own filter. */
  ghost predicate Clean(route: AlbumRoute, filter: EdgeFilter) {
    && RealEndpoint(route.endpointA) && RealEndpoint(route.endpointB)
    && forall h :: h in route.hops ==> RealHop(h, filter)
  }

  /** Hop `i` of a stripped route shows slot `i + 1` of its walk. */
  ghost predicate ShowsSlot(g: Graph, w: Walk, hop: PathHop, i: nat)
    requires RowsInRange(g) && InBounds(g, w) && i + 1 < |w.slots|
  {
    var slot := w.slots[i + 1];
    && hop.releaseId == g.evidenceReleaseIds[slot]
    && hop.artistAId == g.nodeIds[w.nodes[i + 1]] && hop.artistBId == g.nodeIds[w.nodes[i + 2]]
    && hop.roleA == g.edgeRoleA[slot] && hop.roleB == g.edgeRoleB[slot]
  }

  /** The route shows its walk: at each end the person next to the album, under the role credited there, and
      between them the slots of the walk one by one. */
  ghost predicate ShowsWalk(g: Graph, w: Walk, route: AlbumRoute) {
    && RowsInRange(g) && InBounds(g, w) && |w.slots| >= 2
    && var last := |w.slots| - 1;
      && route.endpointA.artistId == g.nodeIds[w.nodes[1]] && route.endpointA.roleText == g.edgeRoleB[w.slots[0]]
      && route.endpointB.artistId == g.nodeIds[w.nodes[last]] && route.endpointB.roleText == g.edgeRoleA[w.slots[last]]
      && |route.hops| == last - 1
      && forall i :: 0 <= i < |route.hops| ==> ShowsSlot(g, w, route.hops[i], i)
  }

  /** The keys of all the edges walked, anchors included. */
  ghost predicate KeysOfWalk(g: Graph, w: Walk, keys: set<string>) {
    && RowsInRange(g) && InBounds(g, w)
    && forall key :: key in keys <==> exists i :: 0 <= i < |w.slots| && IsKeyOf(g, w, i, key)
  }

  /** The smaller id, the greater one and the release, with colons between them. */
  predicate IsKeyOf(g: Graph, w: Walk, i: nat, key: string)
    requires RowsInRange(g) && InBounds(g, w) && i < |w.slots|
  {
    var a, b, release := g.nodeIds[w.nodes[i]], g.nodeIds[w.nodes[i + 1]], g.evidenceReleaseIds[w.slots[i]];
    key == (if a <= b then IntText(a) + ":" + IntText(b) else IntText(b) + ":" + IntText(a)) + ":" + IntText(release)
  }

  lemma HopKey(g: Graph, w: Walk, i: nat, key: string)
    requires RowsInRange(g) && InBounds(g, w) && i < |w.slots|
    ensures key == HopEdgeKey(HopsOf(g, w)[i]) <==> IsKeyOf(g, w, i, key)
  {
    KeyIs(g.nodeIds[w.nodes[i]], g.nodeIds[w.nodes[i + 1]], g.evidenceReleaseIds[w.slots[i]]);
  }

  lemma KeyIs(a: int, b: int, release: int)
    ensures EdgeKey(a, b, release) == (if a <= b then IntText(a) + ":" + IntText(b) else IntText(b) + ":" + IntText(a)) + ":" + IntText(release)
  {
  }

  lemma HopKeys(g: Graph, w: Walk)
    requires RowsInRange(g) && InBounds(g, w)
    ensures KeysOfWalk(g, w, EdgeKeysForHops(HopsOf(g, w)))
  {
    var hops := HopsOf(g, w);
    forall key ensures key in EdgeKeysForHops(hops) <==> exists i :: 0 <= i < |w.slots| && IsKeyOf(g, w, i, key) {
      forall i | 0 <= i < |w.slots| ensures key == HopEdgeKey(hops[i]) <==> IsKeyOf(g, w, i, key) { HopKey(g, w, i, key); }
    }
  }

  lemma StrippedShows(g: Graph, w: Walk)
    requires RowsInRange(g) && InBounds(g, w) && StripAlbumAnchors(HopsOf(g, w)).Some?
    ensures ShowsWalk(g, w, StripAlbumAnchors(HopsOf(g, w)).value)
  {
    var hops, route := HopsOf(g, w), StripAlbumAnchors(HopsOf(g, w)).value;
    forall i | 0 <= i < |route.hops| ensures ShowsSlot(g, w, route.hops[i], i) {
      assert route.hops[i] == hops[i + 1];
    }
  }

  function AlbumQuery(filter: EdgeFilter, excludeEdgeKeys: Option<set<string>>): Query {
    Query(AnchorAware(filter), Excluding(excludeEdgeKeys))
  }

  /** Only the two ends of a route are virtual. */
  lemma InteriorIsReal(g: Graph, q: Query, start: nat, goal: nat, w: Walk, i: nat)
    requires RowsInRange(g) && IsRoute(g, q, start, goal, w) && 0 < i < |w.slots|
    ensures w.nodes[i] < |g.nodeIds| && !Virtual(g, w.nodes[i])
  {
    assert Step(g, q, goal, w.nodes[i - 1], w.slots[i - 1]);
    assert w.nodes[i] != w.nodes[|w.slots|];
  }

  /** What the hop at place `i` of a route shows at each end. */
  lemma HopShows(g: Graph, filter: EdgeFilter, ex: (int, int, int) -> bool, start: nat, goal: nat, w: Walk, i: nat)
    requires WellFormed(g) && start < |g.nodeIds|
    requires IsRoute(g, Query(AnchorAware(filter), ex), start, goal, w) && InBounds(g, w) && i < |w.slots|
    ensures var h := HopsOf(g, w)[i];
      && h.artistAId == g.nodeIds[w.nodes[i]] && h.artistBId == g.nodeIds[w.nodes[i + 1]]
      && (h.roleA == ALBUM_ANCHOR_SENTINEL <==> h.artistAId < 0)
      && (h.roleB == ALBUM_ANCHOR_SENTINEL <==> h.artistBId < 0)
      && (i > 0 ==> h.artistAId >= 0)
      && (i + 1 < |w.slots| ==> h.artistBId >= 0)
      && (0 < i < |w.slots| - 1 ==> filter(h.roleA, h.roleB))
  {
    var q := Query(AnchorAware(filter), ex);
    assert Step(g, q, goal, w.nodes[i], w.slots[i]);
    assert InRow(g, w.nodes[i], w.slots[i]);
    if i > 0 { InteriorIsReal(g, q, start, goal, w, i); }
    if i + 1 < |w.slots| { InteriorIsReal(g, q, start, goal, w, i + 1); }
  }

  /** Stripping a route between two album anchors succeeds exactly when it has the two anchor
      hops, and what is left is a real, connected, filter-abiding route. */
  lemma StrippedRoute(g: Graph, filter: EdgeFilter, ex: (int, int, int) -> bool, start: nat, goal: nat, w: Walk)
    requires WellFormed(g) && start < |g.nodeIds| && goal < |g.nodeIds| && Virtual(g, start) && Virtual(g, goal)
    requires IsRoute(g, Query(AnchorAware(filter), ex), start, goal, w) && InBounds(g, w)
    ensures StripAlbumAnchors(HopsOf(g, w)).Some? <==> |w.slots| >= 2
    ensures |w.slots| >= 2 ==>
      var route := StripAlbumAnchors(HopsOf(g, w)).value;
      ShowsWalk(g, w, route) && Chains(route) && Clean(route, filter)
  {
    AnchorsStrip(g, filter, ex, start, goal, w);
    if |w.slots| >= 2 {
      StrippedShows(g, w);
      MiddleChains(g, w);
      MiddleIsReal(g, filter, ex, start, goal, w);
    }
  }

  /** There is something to strip exactly from two hops on, and then real people stand at both ends. */
  lemma AnchorsStrip(g: Graph, filter: EdgeFilter, ex: (int, int, int) -> bool, start: nat, goal: nat, w: Walk)
    requires WellFormed(g) && start < |g.nodeIds| && goal < |g.nodeIds| && Virtual(g, start) && Virtual(g, goal)
    requires IsRoute(g, Query(AnchorAware(filter), ex), start, goal, w) && InBounds(g, w)
    ensures StripAlbumAnchors(HopsOf(g, w)).Some? <==> |w.slots| >= 2
    ensures |w.slots| >= 2 ==>
      var route := StripAlbumAnchors(HopsOf(g, w)).value;
      RealEndpoint(route.endpointA) && RealEndpoint(route.endpointB) && route.hops == HopsOf(g, w)[1..|w.slots| - 1]
  {
    var hops := HopsOf(g, w);
    if |hops| >= 2 {
      HopShows(g, filter, ex, start, goal, w, 0);
      HopShows(g, filter, ex, start, goal, w, |hops| - 1);
    }
  }

  lemma MiddleIsReal(g: Graph, filter: EdgeFilter, ex: (int, int, int) -> bool, start: nat, goal: nat, w: Walk)
    requires WellFormed(g) && start < |g.nodeIds| && |w.slots| >= 2
    requires IsRoute(g, Query(AnchorAware(filter), ex), start, goal, w) && InBounds(g, w)
    ensures forall h :: h in HopsOf(g, w)[1..|w.slots| - 1] ==> RealHop(h, filter)
  {
    var hops := HopsOf(g, w);
    forall i | 1 <= i < |w.slots| - 1 ensures RealHop(hops[i], filter) {
      HopShows(g, filter, ex, start, goal, w, i);
    }
    RealMiddle(hops, filter);
  }

  lemma RealMiddle(hops: seq<PathHop>, filter: EdgeFilter)
    requires |hops| >= 2 && forall i :: 1 <= i < |hops| - 1 ==> RealHop(hops[i], filter)
    ensures forall h :: h in hops[1..|hops| - 1] ==> RealHop(h, filter)
  {
  }

  lemma MiddleChains(g: Graph, w: Walk)
    requires RowsInRange(g) && InBounds(g, w) && |w.slots| >= 2
    requires StripAlbumAnchors(HopsOf(g, w)).Some?
    ensures Chains(StripAlbumAnchors(HopsOf(g, w)).value)
  {
    var hops := HopsOf(g, w);
    var middle := hops[1..|hops| - 1];
    forall i | 0 <= i < |middle| - 1 ensures middle[i].artistBId == middle[i + 1].artistAId {
      assert middle[i] == hops[i + 1] && middle[i + 1] == hops[i + 2];
    }
  }

  /** The answer to a record-to-record search, in terms of the graph alone: a shortest route of
      at most `maxHops` hops between people, or the fact that there is none. */
  ghost predicate AlbumAnswer(g: Graph, filter: EdgeFilter, keys: Option<set<string>>, start: nat, goal: nat, maxHops: int,
                              r: Result<FoundRoute>, w: Walk)
    requires RowsInRange(g) && start < |g.nodeIds|
  {
    var q := AlbumQuery(filter, keys);
    match r
    case Ok(found) =>
      && IsRoute(g, q, start, goal, w) && InBounds(g, w)
      && |w.slots| == |found.route.hops| + ALBUM_ANCHOR_HOP_BUDGET
      && ShowsWalk(g, w, found.route) && KeysOfWalk(g, w, found.usedEdgeKeys)
      && StripAlbumAnchors(HopsOf(g, w)) == Some(found.route)
      && found.usedEdgeKeys == EdgeKeysForHops(HopsOf(g, w))
      && Distance(g, q, goal, start, |w.slots|)
      && |found.route.hops| <= maxHops
      && Chains(found.route) && Clean(found.route, filter)
    case Err(reason) =>
      && reason == NoPath
      && forall d: nat :: 2 <= d <= maxHops + ALBUM_ANCHOR_HOP_BUDGET ==> !Distance(g, q, goal, start, d)
  }

  /** A shortest route between two albums, stripped, is an answer. */
  lemma ShortestAnswers(g: Graph, filter: EdgeFilter, keys: Option<set<string>>, start: nat, goal: nat, maxHops: int, w: Walk)
    returns (found: FoundRoute)
    requires WellFormed(g) && start < |g.nodeIds| && goal < |g.nodeIds| && Virtual(g, start) && Virtual(g, goal)
    requires IsRoute(g, AlbumQuery(filter, keys), start, goal, w) && InBounds(g, w)
    requires Distance(g, AlbumQuery(filter, keys), goal, start, |w.slots|) && 2 <= |w.slots| <= maxHops + ALBUM_ANCHOR_HOP_BUDGET
    ensures StripAlbumAnchors(HopsOf(g, w)) == Some(found.route) && found.usedEdgeKeys == EdgeKeysForHops(HopsOf(g, w))
    ensures AlbumAnswer(g, filter, keys, start, goal, maxHops, Ok(found), w)
  {
    StrippedRoute(g, filter, AlbumQuery(filter, keys).excludes, start, goal, w);
    HopKeys(g, w);
    found := FoundRoute(StripAlbumAnchors(HopsOf(g, w)).value, EdgeKeysForHops(HopsOf(g, w)));
  }

  /** Both lookups a search makes before it can start. */
  predicate Known(artistIndex: map<int, nat>, albumIndex: map<string, int>, albumId: string) {
    albumId in albumIndex && albumIndex[albumId] in artistIndex
  }

  method FindAlbumRoute(g: Graph, artistIndex: map<int, nat>, albumIndex: map<string, int>,
                        fromAlbumId: string, toAlbumId: string, maxHops: int,
                        filter: EdgeFilter, excludeEdgeKeys: Option<set<string>>)
    returns (r: Result<FoundRoute>, ghost w: Walk)
    requires WellFormed(g) && IsArtistIndex(g, artistIndex) && IsAlbumIndex(g, albumIndex)
    ensures fromAlbumId !in albumIndex || toAlbumId !in albumIndex ==> r == Err(UnknownAlbum)
    ensures fromAlbumId in albumIndex && toAlbumId in albumIndex ==>
      && Known(artistIndex, albumIndex, fromAlbumId) && Known(artistIndex, albumIndex, toAlbumId)
      && AlbumAnswer(g, filter, excludeEdgeKeys, artistIndex[albumIndex[fromAlbumId]],
                     artistIndex[albumIndex[toAlbumId]], maxHops, r, w)
      && (r.Ok? ==> IsFirst(g, AlbumQuery(filter, excludeEdgeKeys), artistIndex[albumIndex[fromAlbumId]],
                            artistIndex[albumIndex[toAlbumId]], w))
  {
    w := Walk([], []);
    if fromAlbumId !in albumIndex || toAlbumId !in albumIndex {
      return Err(UnknownAlbum), w;
    }
    AlbumIndexHitsVirtualNode(g, albumIndex, artistIndex, fromAlbumId);
    AlbumIndexHitsVirtualNode(g, albumIndex, artistIndex, toAlbumId);
    var q := AlbumQuery(filter, excludeEdgeKeys);
    var result;
    result, w := FindPath.FindPath(g, artistIndex, albumIndex[fromAlbumId], albumIndex[toAlbumId],
                                   maxHops + ALBUM_ANCHOR_HOP_BUDGET, q);
    ghost var start, goal := artistIndex[albumIndex[fromAlbumId]], artistIndex[albumIndex[toAlbumId]];
    if result.Err? {
      return Err(result.reason), w;
    }
    StrippedRoute(g, filter, q.excludes, start, goal, w);
    var stripped := StripAlbumAnchors(result.value);
    if stripped.None? {
      forall d: nat | 2 <= d ensures !Distance(g, q, goal, start, d) {
        if Distance(g, q, goal, start, d) { DistanceUnique(g, q, goal, start, d, |result.value|); }
      }
      return Err(NoPath), w;
    }
    ghost var found := ShortestAnswers(g, filter, excludeEdgeKeys, start, goal, maxHops, w);
    return Ok(FoundRoute(stripped.value, EdgeKeysForHops(result.value))), w;
  }

  // ---------- The distinct alternate ----------

  /** A search that excludes the edges of an earlier route shares none of them, anchors included. */
  lemma AlternateIsDisjoint(g: Graph, filter: EdgeFilter, used: set<string>, start: nat, goal: nat, w: Walk)
    requires RowsInRange(g) && InBounds(g, w) && IsRoute(g, AlbumQuery(filter, Some(used)), start, goal, w)
    ensures EdgeKeysForHops(HopsOf(g, w)) !! used
  {
    var hops := HopsOf(g, w);
    forall key | key in EdgeKeysForHops(hops) ensures key !in used {
      var i :| 0 <= i < |hops| && HopEdgeKey(hops[i]) == key;
      assert Step(g, AlbumQuery(filter, Some(used)), goal, w.nodes[i], w.slots[i]);
    }
  }

  /** Two distinct album anchors are never joined by a single edge. */
  ghost predicate AnchorsApart(g: Graph)
    requires RowsInRange(g)
  {
    forall n: nat, s: nat :: InRow(g, n, s) ==> !(Virtual(g, n) && Virtual(g, g.neighbors[s]))
  }

  lemma OneHopIsNotEnough(g: Graph, q: Query, start: nat, goal: nat)
    requires RowsInRange(g) && AnchorsApart(g) && start < |g.nodeIds| && goal < |g.nodeIds|
    requires Virtual(g, start) && Virtual(g, goal) && start != goal
    ensures !Reaches(g, q, goal, start, 1)
  {
    forall s: nat | Step(g, q, goal, start, s) ensures g.neighbors[s] != goal {
      assert InRow(g, start, s);
    }
  }

  /** Between different albums of a built graph, `no-path` is the whole truth: no admissible walk
      within the hop budget, of any shape. */
  lemma NoPathIsConclusive(g: Graph, filter: EdgeFilter, keys: Option<set<string>>, start: nat, goal: nat, maxHops: int,
                           w: Walk, any: Walk)
    requires WellFormed(g) && AnchorsApart(g) && start < |g.nodeIds| && goal < |g.nodeIds|
    requires Virtual(g, start) && Virtual(g, goal) && start != goal
    requires AlbumAnswer(g, filter, keys, start, goal, maxHops, Err(NoPath), w)
    requires |any.slots| <= maxHops + ALBUM_ANCHOR_HOP_BUDGET
    ensures !IsWalk(g, AlbumQuery(filter, keys), start, goal, any)
  {
    var q := AlbumQuery(filter, keys);
    if IsWalk(g, q, start, goal, any) {
      WalkReaches(g, q, start, goal, any);
      var d := ReachesDistance(g, q, goal, start, |any.slots|);
      OneHopIsNotEnough(g, q, start, goal);
    }
  }
}
