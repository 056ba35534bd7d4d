/** The loaded graph: a CSR adjacency of credited people, plus one virtual node per album. */
module PathfindingGraph {
  import opened Text

  /** The role text on the virtual side of an album-anchor edge. */
  const ALBUM_ANCHOR_SENTINEL := "__np_album_anchor__"

  /** The two anchor edges every album-to-album search walks on top of the user's hops. */
  const ALBUM_ANCHOR_HOP_BUDGET := 2

  datatype AlbumVirtualNode = AlbumVirtualNode(albumId: string, virtualArtistId: int, mainReleaseId: int)

  datatype Graph = Graph(
    nodeIds: seq<int>,
    names: seq<string>,
    offsets: seq<nat>,
    neighbors: seq<nat>,
    evidenceReleaseIds: seq<int>,
    edgeRoleA: seq<string>,
    edgeRoleB: seq<string>,
    albumVirtualNodes: seq<AlbumVirtualNode>)

  datatype PathHop = PathHop(releaseId: int, artistAId: int, artistBId: int, roleA: string, roleB: string)

  // ---------- What the loader checks ----------

  predicate GoodRow(g: Graph, n: nat) {
    n + 1 < |g.offsets| && g.offsets[n] <= g.offsets[n + 1] <= |g.neighbors|
  }

  predicate RowsInRange(g: Graph) {
    && |g.names| == |g.nodeIds|
    && |g.offsets| == |g.nodeIds| + 1
    && g.offsets[0] == 0
    && g.offsets[|g.nodeIds|] == |g.neighbors|
    && |g.evidenceReleaseIds| == |g.edgeRoleA| == |g.edgeRoleB| == |g.neighbors|
    && (forall n :: 0 <= n < |g.nodeIds| ==> GoodRow(g, n))
    && (forall s :: 0 <= s < |g.neighbors| ==> g.neighbors[s] < |g.nodeIds|)
  }

  predicate SortedIds(g: Graph) {
    forall i, j :: 0 <= i < j < |g.nodeIds| ==> g.nodeIds[i] < g.nodeIds[j]
  }

  /** `s` is one of the adjacency slots of node `n`. */
  predicate InRow(g: Graph, n: nat, s: nat)
    requires RowsInRange(g)
    ensures InRow(g, n, s) ==> s < |g.neighbors|
  {
    n < |g.nodeIds| && GoodRow(g, n) && g.offsets[n] <= s < g.offsets[n + 1]
  }

  predicate Virtual(g: Graph, n: nat)
    requires n < |g.nodeIds|
  {
    g.nodeIds[n] < 0
  }

  /** The sentinel role stands on exactly the virtual side of every slot. */
  ghost predicate SentinelSides(g: Graph)
    requires RowsInRange(g)
  {
    forall n: nat, s: nat :: InRow(g, n, s) ==>
      && (g.edgeRoleA[s] == ALBUM_ANCHOR_SENTINEL <==> Virtual(g, n))
      && (g.edgeRoleB[s] == ALBUM_ANCHOR_SENTINEL <==> Virtual(g, g.neighbors[s]))
  }

  ghost predicate AlbumsResolve(g: Graph) {
    && (forall i, j :: 0 <= i < j < |g.albumVirtualNodes| ==>
          && g.albumVirtualNodes[i].albumId != g.albumVirtualNodes[j].albumId
          && g.albumVirtualNodes[i].virtualArtistId != g.albumVirtualNodes[j].virtualArtistId)
    && (forall i :: 0 <= i < |g.albumVirtualNodes| ==>
          && g.albumVirtualNodes[i].albumId != ""
          && g.albumVirtualNodes[i].virtualArtistId < 0
          && g.albumVirtualNodes[i].virtualArtistId in g.nodeIds)
  }

  /** Everything `validatePathfindingGraph` establishes about the arrays. */
  ghost predicate WellFormed(g: Graph) {
    && g.nodeIds != []
    && SortedIds(g)
    && RowsInRange(g)
    && SentinelSides(g)
    && AlbumsResolve(g)
  }

  // ---------- What the builder guarantees and the loader takes on trust ----------

  /** Slot `t` is slot `s` of row `n`, stored from the other end. */
  predicate Mirrors(g: Graph, n: nat, s: nat, t: nat)
    requires RowsInRange(g) && InRow(g, n, s)
  {
    && InRow(g, g.neighbors[s], t)
    && g.neighbors[t] == n
    && g.evidenceReleaseIds[t] == g.evidenceReleaseIds[s]
    && g.edgeRoleA[t] == g.edgeRoleB[s]
    && g.edgeRoleB[t] == g.edgeRoleA[s]
  }

  ghost predicate HasMirror(g: Graph, n: nat, s: nat)
    requires RowsInRange(g) && InRow(g, n, s)
  {
    exists t: nat :: Mirrors(g, n, s, t)
  }

  /** Every edge is stored both ways, with the roles swapped. */
  ghost predicate Undirected(g: Graph)
    requires RowsInRange(g)
  {
    forall n: nat, s: nat {:trigger HasMirror(g, n, s)} :: InRow(g, n, s) ==> HasMirror(g, n, s)
  }

  /** Within a row no two slots share both neighbour and release. */
  ghost predicate NoTwinSlots(g: Graph)
    requires RowsInRange(g)
  {
    forall n: nat, s: nat, t: nat :: InRow(g, n, s) && InRow(g, n, t) && s != t ==>
      g.neighbors[s] != g.neighbors[t] || g.evidenceReleaseIds[s] != g.evidenceReleaseIds[t]
  }

  // ---------- Lookup tables ----------

  ghost predicate IsArtistIndex(g: Graph, index: map<int, nat>) {
    && (forall i :: 0 <= i < |g.nodeIds| ==> g.nodeIds[i] in index && index[g.nodeIds[i]] == i)
    && (forall id :: id in index ==> index[id] < |g.nodeIds| && g.nodeIds[index[id]] == id)
  }

  ghost predicate IsAlbumIndex(g: Graph, index: map<string, int>) {
    && (forall i :: 0 <= i < |g.albumVirtualNodes| ==>
          && g.albumVirtualNodes[i].albumId in index
          && index[g.albumVirtualNodes[i].albumId] == g.albumVirtualNodes[i].virtualArtistId)
    && (forall id :: id in index ==>
          exists i :: 0 <= i < |g.albumVirtualNodes| && g.albumVirtualNodes[i].albumId == id)
  }

  method BuildArtistIndex(g: Graph) returns (index: map<int, nat>)
    requires SortedIds(g)
    ensures IsArtistIndex(g, index)
  {
    index := map[];
    for i := 0 to |g.nodeIds|
      invariant forall j :: 0 <= j < i ==> g.nodeIds[j] in index && index[g.nodeIds[j]] == j
      invariant forall id :: id in index ==> index[id] < i && g.nodeIds[index[id]] == id
    {
      index := index[g.nodeIds[i] := i];
    }
  }

  method BuildAlbumIndex(g: Graph) returns (index: map<string, int>)
    requires AlbumsResolve(g)
    ensures IsAlbumIndex(g, index)
  {
    index := map[];
    for i := 0 to |g.albumVirtualNodes|
      invariant forall j :: 0 <= j < i ==>
        && g.albumVirtualNodes[j].albumId in index
        && index[g.albumVirtualNodes[j].albumId] == g.albumVirtualNodes[j].virtualArtistId
      invariant forall id :: id in index ==> exists j :: 0 <= j < i && g.albumVirtualNodes[j].albumId == id
    {
      index := index[g.albumVirtualNodes[i].albumId := g.albumVirtualNodes[i].virtualArtistId];
    }
  }

  /** An indexed album's virtual id is the id of a virtual node. */
  lemma AlbumIndexHitsVirtualNode(g: Graph, albums: map<string, int>, artists: map<int, nat>, id: string)
    requires WellFormed(g) && IsAlbumIndex(g, albums) && IsArtistIndex(g, artists)
    requires id in albums
    ensures albums[id] in artists && artists[albums[id]] < |g.nodeIds| && Virtual(g, artists[albums[id]])
  {
    var i :| 0 <= i < |g.albumVirtualNodes| && g.albumVirtualNodes[i].albumId == id;
    var k :| 0 <= k < |g.nodeIds| && g.nodeIds[k] == g.albumVirtualNodes[i].virtualArtistId;
  }

  // ---------- Edge keys ----------

  function Min(a: int, b: int): int { if a <= b then a else b }
  function Max(a: int, b: int): int { if a >= b then a else b }

  function ColonTriple(lo: int, hi: int, releaseId: int): string {
    IntText(lo) + ":" + IntText(hi) + ":" + IntText(releaseId)
  }

  /** One undirected edge: the artist pair and its evidence release. */
  function EdgeKey(a: int, b: int, releaseId: int): string {
    ColonTriple(Min(a, b), Max(a, b), releaseId)
  }

  function HopEdgeKey(hop: PathHop): string {
    EdgeKey(hop.artistAId, hop.artistBId, hop.releaseId)
  }

  function EdgeKeysForHops(hops: seq<PathHop>): set<string> {
    set i | 0 <= i < |hops| :: HopEdgeKey(hops[i])
  }

  lemma SplitTriple(a: string, b: string, r: string, c: string, d: string, q: string)
    requires a + ":" + b + ":" + r == c + ":" + d + ":" + q
    requires ':' !in a && ':' !in b && ':' !in c && ':' !in d
    ensures a == c && b == d && r == q
  {
    assert a + ":" + b + ":" + r == a + [':'] + (b + ":" + r);
    assert c + ":" + d + ":" + q == c + [':'] + (d + ":" + q);
    SplitAtSeparator(a, c, b + ":" + r, d + ":" + q, ':');
    SplitAtSeparator(b, d, r, q, ':');
  }

  lemma ColonTripleInjective(a: int, b: int, r: int, c: int, d: int, q: int)
    requires ColonTriple(a, b, r) == ColonTriple(c, d, q)
    ensures a == c && b == d && r == q
  {
    IntTextLacks(a, ':'); IntTextLacks(b, ':'); IntTextLacks(c, ':'); IntTextLacks(d, ':');
    SplitTriple(IntText(a), IntText(b), IntText(r), IntText(c), IntText(d), IntText(q));
    IntTextInjective(a, c);
    IntTextInjective(b, d);
    IntTextInjective(r, q);
  }

  predicate SamePair(a: int, b: int, c: int, d: int) { (a == c && b == d) || (a == d && b == c) }

  /** A key names exactly one unordered pair and one release. */
  lemma EdgeKeyInjective(a: int, b: int, r: int, c: int, d: int, q: int)
    ensures EdgeKey(a, b, r) == EdgeKey(c, d, q) <==> SamePair(a, b, c, d) && r == q
  {
    if EdgeKey(a, b, r) == EdgeKey(c, d, q) {
      ColonTripleInjective(Min(a, b), Max(a, b), r, Min(c, d), Max(c, d), q);
    }
  }

  // ---------- Stripping the anchors, and walking a route backwards ----------

  datatype AlbumEndpoint = AlbumEndpoint(artistId: int, roleText: string)

  datatype AlbumRoute = AlbumRoute(endpointA: AlbumEndpoint, hops: seq<PathHop>, endpointB: AlbumEndpoint)

  function StripAlbumAnchors(hops: seq<PathHop>): Option<AlbumRoute> {
    if |hops| < 2 then None
    else
      var first := hops[0];
      var last := hops[|hops| - 1];
      if first.roleA != ALBUM_ANCHOR_SENTINEL then None
      else if last.roleB != ALBUM_ANCHOR_SENTINEL then None
      else Some(AlbumRoute(
        AlbumEndpoint(first.artistBId, first.roleB),
        hops[1..|hops| - 1],
        AlbumEndpoint(last.artistAId, last.roleA)))
  }

  function ReverseHop(hop: PathHop): PathHop {
    PathHop(hop.releaseId, hop.artistBId, hop.artistAId, hop.roleB, hop.roleA)
  }

  function ReverseHops(hops: seq<PathHop>): (r: seq<PathHop>)
    ensures |r| == |hops|
    ensures forall i {:trigger r[i]} :: 0 <= i < |hops| ==> r[i] == ReverseHop(hops[|hops| - 1 - i])
  {
    seq(|hops|, i requires 0 <= i < |hops| => ReverseHop(hops[|hops| - 1 - i]))
  }

  function ReverseRoute(route: AlbumRoute): AlbumRoute {
    AlbumRoute(route.endpointB, ReverseHops(route.hops), route.endpointA)
  }

  lemma ReverseRouteInvolution(route: AlbumRoute)
    ensures ReverseRoute(ReverseRoute(route)) == route
  {
    var hops := route.hops;
    var back := ReverseHops(ReverseHops(hops));
    forall i | 0 <= i < |hops| ensures back[i] == hops[i] {
      assert ReverseHops(hops)[|hops| - 1 - i] == ReverseHop(hops[i]);
    }
    assert back == hops;
  }

  lemma ReverseKeepsEdgeKeys(hops: seq<PathHop>)
    ensures EdgeKeysForHops(ReverseHops(hops)) == EdgeKeysForHops(hops)
  {
    var r := ReverseHops(hops);
    forall k | k in EdgeKeysForHops(hops) ensures k in EdgeKeysForHops(r) {
      var i :| 0 <= i < |hops| && HopEdgeKey(hops[i]) == k;
      assert HopEdgeKey(r[|hops| - 1 - i]) == k;
    }
    forall k | k in EdgeKeysForHops(r) ensures k in EdgeKeysForHops(hops) {
      var i :| 0 <= i < |r| && HopEdgeKey(r[i]) == k;
      assert HopEdgeKey(hops[|hops| - 1 - i]) == k;
    }
  }
}
