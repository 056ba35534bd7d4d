/** Only a filter that cares which way an edge is read makes the two searches disagree, and each such filter does. */
module OneWayFilter {
  import opened Text
  import opened PathfindingGraph
  import opened Routes
  import opened FindPath
  import opened FindAlbumRoute
  import opened ReverseDistances
  import opened RowSums
  import opened RouteRanking
  import opened RecommendedRoute

  // Two albums (nodes 0 and 1), a person on each (nodes 2 and 3), and one release they share, on which
  // the first has role x and the second role y.

  const S := ALBUM_ANCHOR_SENTINEL

  function Joined(x: string, y: string): Graph {
    Graph(
      [-2, -1, 1, 2], ["", "", "p", "q"],
      [0, 1, 2, 4, 6],
      [2, 3, 0, 3, 1, 2],
      [1, 2, 1, 10, 2, 10],
      [S, S, "a", x, "a", y],
      ["a", "a", S, y, S, x],
      [AlbumVirtualNode("first", -2, 1), AlbumVirtualNode("second", -1, 2)])
  }

  /** The arrays a search runs over, with the roles of the shared release. */
  ghost predicate Shape(g: Graph, x: string, y: string) {
    && RowsInRange(g)
    && g.nodeIds == [-2, -1, 1, 2] && g.offsets == [0, 1, 2, 4, 6] && g.neighbors == [2, 3, 0, 3, 1, 2]
    && g.edgeRoleA == [S, S, "a", x, "a", y] && g.edgeRoleB == ["a", "a", S, y, S, x]
  }

  lemma RowsOf(g: Graph, x: string, y: string, n: nat, s: nat)
    requires Shape(g, x, y) && InRow(g, n, s)
    ensures (n == 0 && s == 0) || (n == 1 && s == 1) || (n == 2 && s in {2, 3}) || (n == 3 && s in {4, 5})
  {
  }

  lemma JoinedShape(x: string, y: string)
    ensures Shape(Joined(x, y), x, y)
  {
    var g := Joined(x, y);
    assert forall n :: 0 <= n < 4 ==> GoodRow(g, n);
    assert forall s :: 0 <= s < 6 ==> g.neighbors[s] < 4;
  }

  lemma JoinedWellFormed(x: string, y: string)
    requires x != S && y != S && Shape(Joined(x, y), x, y)
    ensures WellFormed(Joined(x, y))
  {
    var g := Joined(x, y);
    assert "a" != S by { assert |S| > 1; }
    forall n: nat, s: nat | InRow(g, n, s)
      ensures (g.edgeRoleA[s] == S <==> Virtual(g, n)) && (g.edgeRoleB[s] == S <==> Virtual(g, g.neighbors[s]))
    {
      RowsOf(g, x, y, n, s);
    }
    assert g.nodeIds[0] == -2 && g.nodeIds[1] == -1;
  }

  lemma JoinedUndirected(x: string, y: string)
    requires Shape(Joined(x, y), x, y)
    ensures Undirected(Joined(x, y))
  {
    var g := Joined(x, y);
    assert GoodRow(g, 0) && GoodRow(g, 1) && GoodRow(g, 2) && GoodRow(g, 3);
    forall n: nat, s: nat | InRow(g, n, s) ensures HasMirror(g, n, s) {
      RowsOf(g, x, y, n, s);
      assert Mirrors(g, n, s, [2, 4, 0, 5, 1, 3][s]);
    }
  }

  // ---------- The plain search finds the route ----------

  const ROUTE := Walk([0, 2, 3, 1], [0, 3, 4])

  lemma Steps(g: Graph, x: string, y: string, filter: EdgeFilter, q: Query)
    requires Shape(g, x, y) && filter(x, y) && q == AlbumQuery(filter, None)
    ensures Step(g, q, 1, 0, 0) && Step(g, q, 1, 2, 3) && Step(g, q, 1, 3, 4)
  {
    assert GoodRow(g, 0) && GoodRow(g, 2) && GoodRow(g, 3);
  }

  lemma RouteIsThere(g: Graph, x: string, y: string, filter: EdgeFilter, q: Query)
    requires Shape(g, x, y) && filter(x, y) && q == AlbumQuery(filter, None)
    ensures IsRoute(g, q, 0, 1, ROUTE) && InBounds(g, ROUTE) && Reaches(g, q, 1, 0, 3)
  {
    Steps(g, x, y, filter, q);
    WalkReaches(g, q, 0, 1, ROUTE);
  }

  lemma NoShorter(g: Graph, x: string, y: string, q: Query)
    requires Shape(g, x, y)
    ensures !Reaches(g, q, 1, 0, 2)
  {
    forall s: nat | Step(g, q, 1, 2, s) ensures g.neighbors[s] != 1 { RowsOf(g, x, y, 2, s); }
    assert !Reaches(g, q, 1, 2, 1);
    forall s: nat | Step(g, q, 1, 0, s) ensures g.neighbors[s] == 2 { RowsOf(g, x, y, 0, s); }
  }

  lemma ThreeApart(g: Graph, x: string, y: string, filter: EdgeFilter, q: Query)
    requires Shape(g, x, y) && filter(x, y) && q == AlbumQuery(filter, None)
    ensures Distance(g, q, 1, 0, 3)
  {
    RouteIsThere(g, x, y, filter, q);
    NoShorter(g, x, y, q);
  }

  // ---------- The guide never meets the first album ----------

  lemma NeverMet(g: Graph, x: string, y: string, filter: EdgeFilter, q: Query, k: nat)
    requires Shape(g, x, y) && x != S && y != S && !filter(y, x) && q == AlbumQuery(filter, None)
    ensures !Spreads(g, q, 1, 2, k) && !Spreads(g, q, 1, 0, k)
  {
    forall u: nat, s: nat ensures !Leads(g, q, 1, u, s, 2) {
      if Leads(g, q, 1, u, s, 2) { RowsOf(g, x, y, u, s); }
    }
    OnlyThrough(g, x, y, q, k);
  }

  lemma OnlyThrough(g: Graph, x: string, y: string, q: Query, k: nat)
    requires Shape(g, x, y) && forall u: nat, s: nat :: !Leads(g, q, 1, u, s, 2)
    ensures !Spreads(g, q, 1, 0, k)
  {
    forall u: nat, s: nat | Leads(g, q, 1, u, s, 0) ensures u == 2 { RowsOf(g, x, y, u, s); }
    if k > 0 { assert !Spreads(g, q, 1, 2, k - 1); }
  }

  // ---------- So they disagree ----------

  const CAPS := Caps(300, 400000)

  /** The guide is paid for, and what it misses is answered with no-path. */
  lemma EngineSeesNothing(g: Graph, x: string, y: string, k: Ranker, filter: EdgeFilter, r: Result<Recommendation>, w: Walk)
    requires Shape(g, x, y) && x != S && y != S && !filter(y, x) && IsArtistIndex(g, k.artistIndex)
    ensures EngineAnswer(g, k, filter, 0, 1, 4, CAPS, r, w) <==> r == Err(NoPath)
  {
    var q := AlbumQuery(filter, None);
    RowsAtMost(g, ExpandedNodes(g, q, 1, 6), 4);
    forall d: nat ensures !Met(g, q, 1, 0, d) { NeverMet(g, x, y, filter, q, d); }
  }

  /** What the plain search finds. */
  lemma PlainFinds(g: Graph, x: string, y: string, filter: EdgeFilter) returns (found: FoundRoute)
    requires Shape(g, x, y) && WellFormed(g) && filter(x, y)
    ensures AlbumAnswer(g, filter, None, 0, 1, 4, Ok(found), ROUTE)
  {
    var q := AlbumQuery(filter, None);
    RouteIsThere(g, x, y, filter, q);
    ThreeApart(g, x, y, filter, q);
    found := ShortestAnswers(g, filter, None, 0, 1, 4, ROUTE);
  }

  function Index(): map<int, nat> {
    map[-2 := 0, -1 := 1, 1 := 2, 2 := 3]
  }

  lemma IndexFits(x: string, y: string)
    ensures IsArtistIndex(Joined(x, y), Index())
  {
  }

  const ALBUMS := map["first" := -2, "second" := -1]

  lemma JoinedAlbums(x: string, y: string)
    ensures IsAlbumIndex(Joined(x, y), ALBUMS)
  {
    var nodes := Joined(x, y).albumVirtualNodes;
    assert nodes[0].albumId == "first" && nodes[1].albumId == "second";
    assert "first" != "second" by { assert |"first"| != |"second"|; }
  }

  method PlainSearch(g: Graph, x: string, y: string, filter: EdgeFilter) returns (r: Result<FoundRoute>)
    requires WellFormed(g) && Shape(g, x, y) && filter(x, y) && IsArtistIndex(g, Index()) && IsAlbumIndex(g, ALBUMS)
    ensures r.Ok?
  {
    ghost var w;
    r, w := FindAlbumRoute.FindAlbumRoute(g, Index(), ALBUMS, "first", "second", 4, filter, None);
    AlbumsThere();
    PlainFindsSome(g, x, y, filter, r, w);
  }

  lemma PlainFindsSome(g: Graph, x: string, y: string, filter: EdgeFilter, r: Result<FoundRoute>, w: Walk)
    requires RowsInRange(g) && 0 < |g.nodeIds| && Shape(g, x, y) && filter(x, y) && AlbumAnswer(g, filter, None, 0, 1, 4, r, w)
    ensures r.Ok?
  {
    ThreeApart(g, x, y, filter, AlbumQuery(filter, None));
  }

  lemma AlbumsThere()
    ensures "first" in ALBUMS && "second" in ALBUMS && "first" != "second"
    ensures ALBUMS["first"] in Index() && ALBUMS["second"] in Index()
    ensures Index()[ALBUMS["first"]] == 0 && Index()[ALBUMS["second"]] == 1
  {
    assert |"first"| != |"second"|;
  }

  method RankedSearch(g: Graph, k: Ranker, x: string, y: string, filter: EdgeFilter) returns (r: Result<Recommendation>)
    requires WellFormed(g) && Shape(g, x, y) && x != S && y != S && !filter(y, x)
    requires k.artistIndex == Index() && IsArtistIndex(g, Index()) && IsAlbumIndex(g, ALBUMS)
    ensures r == Err(NoPath)
  {
    ghost var w, charged;
    r, w, charged := SelectRecommendedRoute(g, k, ALBUMS, "first", "second", 4, filter, 300, 400000);
    AlbumsThere();
    EngineSeesNothing(g, x, y, k, filter, r, w);
  }

  /** For any filter that admits some edge one way only, the two searches run over one graph: the plain one
      finds a route, the recommending one says there is none. */
  method OneWaySplitsTheSearches(x: string, y: string, filter: EdgeFilter)
    returns (plain: Result<FoundRoute>, ranked: Result<Recommendation>)
    requires x != S && y != S && filter(x, y) && !filter(y, x)
    ensures Shape(Joined(x, y), x, y) && WellFormed(Joined(x, y)) && Undirected(Joined(x, y))
    ensures plain.Ok? && ranked == Err(NoPath)
  {
    JoinedShape(x, y);
    JoinedWellFormed(x, y);
    JoinedUndirected(x, y);
    IndexFits(x, y);
    JoinedAlbums(x, y);
    plain := PlainSearch(Joined(x, y), x, y, filter);
    ranked := RankedSearch(Joined(x, y), Ranker(Index(), EvidenceIndex(map[], []), (role: string) => true), x, y, filter);
  }

  // ---------- And only such filters do that ----------

  /** Over every undirected graph the loader accepts, between any two albums and under any caps, both
      searches find a route or neither does. */
  ghost predicate SearchesAgree(filter: EdgeFilter) {
    forall g: Graph, k: Ranker, start: nat, goal: nat, maxUserHops: int, caps: Caps,
           plain: Result<FoundRoute>, wp: Walk, ranked: Result<Recommendation>, wr: Walk ::
      Answers(g, k, filter, start, goal, maxUserHops, caps, plain, wp, ranked, wr) ==> (plain.Ok? <==> ranked.Ok?)
  }

  /** What the two searches may answer to one question. */
  ghost predicate Answers(g: Graph, k: Ranker, filter: EdgeFilter, start: nat, goal: nat, maxUserHops: int, caps: Caps,
                          plain: Result<FoundRoute>, wp: Walk, ranked: Result<Recommendation>, wr: Walk) {
    && Endpoints(g, start, goal) && Undirected(g) && IsArtistIndex(g, k.artistIndex)
    && AlbumAnswer(g, filter, None, start, goal, maxUserHops, plain, wp)
    && EngineAnswer(g, k, filter, start, goal, maxUserHops, caps, ranked, wr)
  }

  /** The two searches agree on every such graph exactly when the filter does not care which way an edge
      between people is read. */
  lemma SearchesAgreeIffSymmetric(filter: EdgeFilter)
    ensures SearchesAgree(filter) <==> RoleSymmetric(filter)
  {
    if RoleSymmetric(filter) {
      forall g: Graph, k: Ranker, start: nat, goal: nat, maxUserHops: int, caps: Caps,
             plain: Result<FoundRoute>, wp: Walk, ranked: Result<Recommendation>, wr: Walk
        | Answers(g, k, filter, start, goal, maxUserHops, caps, plain, wp, ranked, wr)
        ensures plain.Ok? <==> ranked.Ok?
      {
        AgreesWithPlainSearch(g, k, filter, start, goal, maxUserHops, plain, wp, caps, ranked, wr);
      }
    } else {
      var a, b :| a != S && b != S && filter(a, b) != filter(b, a);
      if filter(a, b) { Disagree(a, b, filter); } else { Disagree(b, a, filter); }
    }
  }

  lemma Disagree(x: string, y: string, filter: EdgeFilter)
    requires x != S && y != S && filter(x, y) && !filter(y, x)
    ensures !SearchesAgree(filter)
  {
    JoinedShape(x, y);
    JoinedWellFormed(x, y);
    JoinedUndirected(x, y);
    IndexFits(x, y);
    DisagreeOver(Joined(x, y), x, y, Ranker(Index(), EvidenceIndex(map[], []), (role: string) => true), filter);
  }

  lemma DisagreeOver(g: Graph, x: string, y: string, k: Ranker, filter: EdgeFilter)
    requires Shape(g, x, y) && Endpoints(g, 0, 1) && Undirected(g) && IsArtistIndex(g, k.artistIndex)
    requires x != S && y != S && filter(x, y) && !filter(y, x)
    ensures !SearchesAgree(filter)
  {
    var found := PlainFinds(g, x, y, filter);
    EngineSeesNothing(g, x, y, k, filter, Err(NoPath), ROUTE);
    assert Answers(g, k, filter, 0, 1, 4, CAPS, Ok(found), ROUTE, Err(NoPath), ROUTE);
  }
}
