/** Two graphs that differ in the order of two slots: one answer is fully ranked, the other degraded and longer. */
module SlotOrderWitness {
  import opened Text
  import opened PathfindingGraph
  import opened Routes
  import opened BudgetedRun
  import opened FindPath
  import opened FindAlbumRoute
  import opened ReverseDistances
  import opened ExactDepthRoutes
  import opened RowSums
  import opened RouteRanking
  import opened RecommendedRoute
  import opened OrderIndependence

  // Two albums (nodes 0 and 1) and three people p, q, r (nodes 2, 3, 4). p played on the first album and
  // q on the second; p and q share release 10, r and q release 21, p and r releases 10 and 20.

  const S := ALBUM_ANCHOR_SENTINEL

  /** The graph with p's two slots to r holding releases `x` and `y` in that order. */
  function Built(x: int, y: int): Graph {
    Graph(
      [-2, -1, 1, 2, 3], ["", "", "p", "q", "r"],
      [0, 1, 2, 6, 9, 12],
      [2, 3, 0, 3, 4, 4, 1, 2, 4, 2, 2, 3],
      [1, 2, 1, 10, x, y, 2, 10, 21, 10, 20, 21],
      [S, S, "a", "a", "a", "a", "a", "a", "a", "a", "a", "a"],
      ["a", "a", S, "a", "a", "a", S, "a", "a", "a", "a", "a"],
      [AlbumVirtualNode("first", -2, 1), AlbumVirtualNode("second", -1, 2)])
  }

  /** The arrays the routes run over; they are the same in both orders. */
  ghost predicate Shape(g: Graph) {
    && RowsInRange(g)
    && g.nodeIds == [-2, -1, 1, 2, 3]
    && g.offsets == [0, 1, 2, 6, 9, 12]
    && g.neighbors == [2, 3, 0, 3, 4, 4, 1, 2, 4, 2, 2, 3]
  }

  function Everything(): EdgeFilter {
    (a, b) => true
  }

  ghost predicate Admits(q: Query) {
    (forall a, b :: q.filter(a, b)) && ExcludesNothing(q.excludes)
  }

  // ---------- What the guide meets ----------

  /** The second album leads to q, and q to p and r. */
  lemma Meets(g: Graph, q: Query)
    requires Shape(g) && Admits(q)
    ensures Spreads(g, q, 1, 3, 1) && Spreads(g, q, 1, 2, 2) && Spreads(g, q, 1, 4, 2) && Spreads(g, q, 1, 2, 3)
  {
    assert GoodRow(g, 1) && GoodRow(g, 3);
    assert Spreads(g, q, 1, 1, 0);
    assert Leads(g, q, 1, 1, 1, 3) && Leads(g, q, 1, 3, 7, 2) && Leads(g, q, 1, 3, 8, 4);
    SpreadsMore(g, q, 1, 2, 2, 3);
  }

  lemma TwoAreTooFew(g: Graph, q: Query)
    requires Shape(g)
    ensures !Spreads(g, q, 1, 0, 2)
  {
    forall u: nat, s: nat | Leads(g, q, 1, u, s, 2) ensures u != 1 { RowsOf(g, u, s); }
    assert !Spreads(g, q, 1, 2, 1);
    forall u: nat, s: nat | Leads(g, q, 1, u, s, 0) ensures u == 2 { RowsOf(g, u, s); }
  }

  /** The first album is met three hops out, through p. */
  lemma ThreeHops(g: Graph, q: Query)
    requires Shape(g) && Admits(q)
    ensures Met(g, q, 1, 0, 3)
  {
    TwoAreTooFew(g, q);
    Meets(g, q);
    ThroughP(g, q, 2);
  }

  lemma ThroughP(g: Graph, q: Query, k: nat)
    requires Shape(g) && Admits(q) && Spreads(g, q, 1, 2, k)
    ensures Spreads(g, q, 1, 0, k + 1)
  {
    assert GoodRow(g, 2);
    Onward(g, q, 2, 2, 0, k);
  }

  lemma Onward(g: Graph, q: Query, u: nat, s: nat, v: nat, k: nat)
    requires Shape(g) && Admits(q) && InRow(g, u, s) && u > 0 && g.neighbors[s] == v && Spreads(g, q, 1, u, k)
    ensures Spreads(g, q, 1, v, k + 1)
  {
    assert g.nodeIds[u] == [-2, -1, 1, 2, 3][u];
    assert Leads(g, q, 1, u, s, v);
  }

  // ---------- The routes between the albums ----------

  /** The routes from a partial one, those behind one of its slots, and those from a slot on. */
  ghost function On(g: Graph, q: Query, nodes: seq<nat>, slots: seq<nat>, k: nat): seq<Walk>
    requires RowsInRange(g) && nodes != []
  {
    Items(Trace(g, q, 1, nodes, slots, k))
  }

  ghost function Via(g: Graph, q: Query, nodes: seq<nat>, slots: seq<nat>, k: nat, slot: nat): seq<Walk>
    requires RowsInRange(g) && nodes != [] && k > 0
  {
    Items(TraceBehind(g, q, 1, nodes, slots, k, slot))
  }

  ghost function Rest(g: Graph, q: Query, nodes: seq<nat>, slots: seq<nat>, k: nat, slot: nat): seq<Walk>
    requires RowsInRange(g) && nodes != [] && nodes[|nodes| - 1] < |g.nodeIds| && k > 0
    requires slot <= g.offsets[nodes[|nodes| - 1] + 1]
  {
    Items(TraceFrom(g, q, 1, nodes, slots, k, slot))
  }

  lemma RestIs(g: Graph, q: Query, nodes: seq<nat>, slots: seq<nat>, k: nat, slot: nat)
    requires RowsInRange(g) && nodes != [] && nodes[|nodes| - 1] < |g.nodeIds| && k > 0
    requires slot <= g.offsets[nodes[|nodes| - 1] + 1]
    ensures Rest(g, q, nodes, slots, k, slot)
         == if slot == g.offsets[nodes[|nodes| - 1] + 1] then []
            else Via(g, q, nodes, slots, k, slot) + Rest(g, q, nodes, slots, k, slot + 1)
  {
    if slot < g.offsets[nodes[|nodes| - 1] + 1] { ItemsFrom(g, q, 1, nodes, slots, k, slot); }
  }

  /** A person's row of three slots, and p's of four. */
  lemma ThreeSlots(g: Graph, q: Query, nodes: seq<nat>, slots: seq<nat>, k: nat, n: nat)
    requires Shape(g) && nodes != [] && nodes[|nodes| - 1] == n && n in {3, 4} && k > 0
    ensures var from := g.offsets[n];
      On(g, q, nodes, slots, k)
        == Via(g, q, nodes, slots, k, from) + (Via(g, q, nodes, slots, k, from + 1) + Via(g, q, nodes, slots, k, from + 2))
  {
    assert GoodRow(g, n);
    var from := g.offsets[n];
    assert g.offsets[n + 1] == from + 3;
    RestIs(g, q, nodes, slots, k, from);
    RestIs(g, q, nodes, slots, k, from + 1);
    RestIs(g, q, nodes, slots, k, from + 2);
    RestIs(g, q, nodes, slots, k, from + 3);
    assert On(g, q, nodes, slots, k) == Rest(g, q, nodes, slots, k, from);
  }

  lemma FourSlots(g: Graph, q: Query, k: nat)
    requires Shape(g) && k > 0
    ensures On(g, q, [0, 2], [0], k)
         == Via(g, q, [0, 2], [0], k, 2)
            + (Via(g, q, [0, 2], [0], k, 3) + (Via(g, q, [0, 2], [0], k, 4) + Via(g, q, [0, 2], [0], k, 5)))
  {
    assert GoodRow(g, 2);
    RestIs(g, q, [0, 2], [0], k, 2);
    RestIs(g, q, [0, 2], [0], k, 3);
    RestIs(g, q, [0, 2], [0], k, 4);
    RestIs(g, q, [0, 2], [0], k, 5);
    RestIs(g, q, [0, 2], [0], k, 6);
    assert On(g, q, [0, 2], [0], k) == Rest(g, q, [0, 2], [0], k, 2);
  }

  /** Every slot may be walked but those back to the first album. */
  lemma Walks(g: Graph, q: Query, n: nat, slot: nat)
    requires Shape(g) && Admits(q) && n < 5 && g.offsets[n] <= slot < g.offsets[n + 1] && g.neighbors[slot] != 0
    ensures InRow(g, n, slot) && Step(g, q, 1, n, slot)
  {
    assert GoodRow(g, n);
    NothingExcluded(q, g.nodeIds[n], g.nodeIds[g.neighbors[slot]], g.evidenceReleaseIds[slot]);
    assert g.neighbors[slot] in {1, 2, 3, 4};
  }

  /** With one hop to go, only the second album is entered. */
  lemma LastHop(g: Graph, q: Query, nodes: seq<nat>, slots: seq<nat>, slot: nat)
    requires Shape(g) && nodes != [] && slot < 12 && g.neighbors[slot] != 1
    ensures Via(g, q, nodes, slots, 1, slot) == []
  {
  }

  lemma Visited(g: Graph, q: Query, nodes: seq<nat>, slots: seq<nat>, k: nat, slot: nat)
    requires Shape(g) && nodes != [] && k > 0 && slot < 12 && g.neighbors[slot] in nodes
    ensures Via(g, q, nodes, slots, k, slot) == []
  {
  }

  /** From q with one hop to go, the second album is reached. */
  lemma FromQLast(g: Graph, q: Query, nodes: seq<nat>, slots: seq<nat>)
    requires Shape(g) && Admits(q) && nodes != [] && nodes[|nodes| - 1] == 3 && 1 !in nodes
    ensures On(g, q, nodes, slots, 1) == [Walk(nodes + [1], slots + [6])]
  {
    Walks(g, q, 3, 6);
    assert Spreads(g, q, 1, 1, 0);
    OneItem(Walk(nodes + [1], slots + [6]));
    assert Via(g, q, nodes, slots, 1, 6) == [Walk(nodes + [1], slots + [6])];
    LastHop(g, q, nodes, slots, 7);
    LastHop(g, q, nodes, slots, 8);
    ThreeSlots(g, q, nodes, slots, 1, 3);
  }

  /** From r with one hop to go, nothing. */
  lemma FromRLast(g: Graph, q: Query, nodes: seq<nat>, slots: seq<nat>)
    requires Shape(g) && nodes != [] && nodes[|nodes| - 1] == 4
    ensures On(g, q, nodes, slots, 1) == []
  {
    LastHop(g, q, nodes, slots, 9);
    LastHop(g, q, nodes, slots, 10);
    LastHop(g, q, nodes, slots, 11);
    ThreeSlots(g, q, nodes, slots, 1, 4);
  }

  /** From r with two hops to go, on through q. */
  lemma FromR(g: Graph, q: Query, nodes: seq<nat>, slots: seq<nat>)
    requires Shape(g) && Admits(q) && nodes != [] && nodes[|nodes| - 1] == 4 && 1 !in nodes && 2 in nodes && 3 !in nodes
    ensures On(g, q, nodes, slots, 2) == [Walk(nodes + [3] + [1], slots + [11] + [6])]
  {
    Visited(g, q, nodes, slots, 2, 9);
    Visited(g, q, nodes, slots, 2, 10);
    Walks(g, q, 4, 11);
    Meets(g, q);
    FromQLast(g, q, nodes + [3], slots + [11]);
    assert Via(g, q, nodes, slots, 2, 11) == On(g, q, nodes + [3], slots + [11], 1);
    ThreeSlots(g, q, nodes, slots, 2, 4);
  }

  /** From q with two hops to go, nothing: the second album is too near, and r leads back. */
  lemma FromQ(g: Graph, q: Query, nodes: seq<nat>, slots: seq<nat>)
    requires Shape(g) && nodes != [] && nodes[|nodes| - 1] == 3 && 2 in nodes
    ensures On(g, q, nodes, slots, 2) == []
  {
    assert Via(g, q, nodes, slots, 2, 6) == [];
    Visited(g, q, nodes, slots, 2, 7);
    FromRLast(g, q, nodes + [4], slots + [8]);
    ThreeSlots(g, q, nodes, slots, 2, 3);
  }

  const SHORT := Walk([0, 2, 3, 1], [0, 3, 6])
  const VIA_FOUR := Walk([0, 2, 4, 3, 1], [0, 4, 11, 6])
  const VIA_FIVE := Walk([0, 2, 4, 3, 1], [0, 5, 11, 6])

  lemma EntersAt(g: Graph, q: Query, nodes: seq<nat>, slots: seq<nat>, k: nat, slot: nat)
    requires RowsInRange(g) && nodes != [] && k > 0 && Continues(g, q, 1, nodes, slot)
    requires Spreads(g, q, 1, g.neighbors[slot], k - 1)
    ensures Via(g, q, nodes, slots, k, slot) == On(g, q, nodes + [g.neighbors[slot]], slots + [slot], k - 1)
  {
  }

  lemma EntersR(g: Graph, q: Query, slot: nat)
    requires Shape(g) && Admits(q) && slot in {4, 5}
    ensures Via(g, q, [0, 2], [0], 3, slot) == On(g, q, [0, 2] + [4], [0] + [slot], 2)
  {
    Walks(g, q, 2, slot);
    Meets(g, q);
    EntersAt(g, q, [0, 2], [0], 3, slot);
  }

  lemma RIsTooLate(g: Graph, q: Query, slot: nat)
    requires Shape(g) && slot in {4, 5}
    ensures Via(g, q, [0, 2], [0], 2, slot) == []
  {
    assert g.neighbors[slot] == 4;
    FromRLast(g, q, [0, 2] + [4], [0] + [slot]);
  }

  lemma EntersQ(g: Graph, q: Query)
    requires Shape(g) && Admits(q)
    ensures Via(g, q, [0, 2], [0], 2, 3) == On(g, q, [0, 2] + [3], [0] + [3], 1)
    ensures Via(g, q, [0, 2], [0], 3, 3) == []
  {
    Walks(g, q, 2, 3);
    Meets(g, q);
    QIsTooSoon(g, q);
  }

  lemma QIsTooSoon(g: Graph, q: Query)
    requires Shape(g)
    ensures Via(g, q, [0, 2], [0], 3, 3) == []
  {
    assert g.neighbors[3] == 3;
    FromQ(g, q, [0, 2] + [3], [0] + [3]);
  }

  lemma FromFirstAlbum(g: Graph, q: Query, k: nat)
    requires Shape(g) && Admits(q) && k in {2, 3}
    ensures ExactRoutes(g, q, 0, 1, k + 1) == On(g, q, [0, 2], [0], k)
  {
    assert GoodRow(g, 0);
    Walks(g, q, 0, 0);
    Meets(g, q);
    var none: seq<nat> := [];
    assert [0] + [g.neighbors[0]] == [0, 2] && none + [0] == [0];
    OneSlot(g, q, none, k);
    assert Via(g, q, [0], none, k + 1, 0) == On(g, q, [0, 2], [0], k);
  }

  lemma OneSlot(g: Graph, q: Query, none: seq<nat>, k: nat)
    requires Shape(g) && none == []
    ensures ExactRoutes(g, q, 0, 1, k + 1) == Via(g, q, [0], none, k + 1, 0)
  {
    assert GoodRow(g, 0);
    RestIs(g, q, [0], none, k + 1, 0);
    RestIs(g, q, [0], none, k + 1, 1);
  }

  lemma FromP(g: Graph, q: Query)
    requires Shape(g) && Admits(q)
    ensures On(g, q, [0, 2], [0], 2) == On(g, q, [0, 2] + [3], [0] + [3], 1)
    ensures On(g, q, [0, 2], [0], 3) == On(g, q, [0, 2] + [4], [0] + [4], 2) + On(g, q, [0, 2] + [4], [0] + [5], 2)
  {
    FourSlots(g, q, 2);
    Visited(g, q, [0, 2], [0], 2, 2);
    EntersQ(g, q);
    RIsTooLate(g, q, 4);
    RIsTooLate(g, q, 5);
    FourSlots(g, q, 3);
    Visited(g, q, [0, 2], [0], 3, 2);
    EntersR(g, q, 4);
    EntersR(g, q, 5);
  }

  /** One route of three hops. */
  lemma ShortRoutes(g: Graph, q: Query)
    requires Shape(g) && Admits(q)
    ensures ExactRoutes(g, q, 0, 1, 3) == [SHORT]
  {
    FromFirstAlbum(g, q, 2);
    FromP(g, q);
    FromQLast(g, q, [0, 2] + [3], [0] + [3]);
    assert Walk([0, 2] + [3] + [1], [0] + [3] + [6]) == SHORT;
  }

  /** Two routes of four hops, in the order of p's slots. */
  lemma LongRoutes(g: Graph, q: Query)
    requires Shape(g) && Admits(q)
    ensures ExactRoutes(g, q, 0, 1, 4) == [VIA_FOUR, VIA_FIVE]
  {
    FromFirstAlbum(g, q, 3);
    FromP(g, q);
    FromR(g, q, [0, 2] + [4], [0] + [4]);
    FromR(g, q, [0, 2] + [4], [0] + [5]);
    assert Walk([0, 2] + [4] + [3] + [1], [0] + [4] + [11] + [6]) == VIA_FOUR;
    assert Walk([0, 2] + [4] + [3] + [1], [0] + [5] + [11] + [6]) == VIA_FIVE;
  }

  // ---------- The caps ----------

  /** What a walk of `k` hops costs at most when no row has more than four slots. */
  function AtMost(k: nat): nat {
    if k == 0 then 0 else 4 * (1 + AtMost(k - 1))
  }

  lemma {:induction false} TallyAtMost(g: Graph, q: Query, nodes: seq<nat>, k: nat)
    requires Shape(g) && nodes != []
    ensures Tally(g, q, 1, nodes, k, false) <= AtMost(k)
    decreases k, 100
  {
    var n := nodes[|nodes| - 1];
    if n != 1 && k > 0 && n < 5 {
      assert GoodRow(g, n);
      assert g.offsets[n + 1] - g.offsets[n] <= 4;
      RowAtMost(g, q, nodes, k, g.offsets[n], g.offsets[n + 1] - g.offsets[n]);
    }
  }

  lemma {:induction false} RowAtMost(g: Graph, q: Query, nodes: seq<nat>, k: nat, slot: nat, left: nat)
    requires Shape(g) && nodes != [] && k > 0 && nodes[|nodes| - 1] < 5
    requires slot + left == g.offsets[nodes[|nodes| - 1] + 1] && left <= 4
    ensures TallyFrom(g, q, 1, nodes, k, slot, false) <= left * (1 + AtMost(k - 1))
    decreases k, left
  {
    if left > 0 {
      if Enters(g, q, 1, nodes, k, slot) { TallyAtMost(g, q, nodes + [g.neighbors[slot]], k - 1); }
      RowAtMost(g, q, nodes, k, slot + 1, left - 1);
      assert left * (1 + AtMost(k - 1)) == (left - 1) * (1 + AtMost(k - 1)) + (1 + AtMost(k - 1));
    }
  }

  const CAPS := Caps(1, 1000)

  /** The whole budget covers the guide and both layers. */
  lemma Covered(g: Graph, q: Query)
    requires Shape(g)
    ensures GuideCost(g, q, 1, 6) <= 12 && WalkCost(g, q, 0, 1, 3) <= 84 && WalkCost(g, q, 0, 1, 4) <= 340
  {
    RowsAtMost(g, ExpandedNodes(g, q, 1, 6), 5);
    TallyAtMost(g, q, [0], 3);
    TallyAtMost(g, q, [0], 4);
    TallyCounts(g, q, 1, [0], [], 3, false);
    TallyCounts(g, q, 1, [0], [], 4, false);
    assert AtMost(1) == 4 && AtMost(2) == 20 && AtMost(3) == 84 && AtMost(4) == 340;
  }

  lemma PaidLayer(g: Graph, q: Query, depth: nat, left: int)
    requires RowsInRange(g) && Affords(left, WalkCost(g, q, 0, 1, depth))
    ensures InReach(g, q, 0, 1, depth, left, 1) == First(ExactRoutes(g, q, 0, 1, depth), 1)
  {
    PaidInFull(Trace(g, q, 1, [0], [], depth), left);
  }

  /** One route more than the cap allows stands in the second layer, and the first of it is seen. */
  lemma WhatFits(g: Graph, k: Ranker)
    requires Shape(g) && IsArtistIndex(g, k.artistIndex)
    ensures Affords(CAPS.maxExpansions, GuideCost(g, AlbumQuery(Everything(), None), 1, 6))
    ensures var o, q := OutlookAt(g, k, Everything(), 0, 1, 4, CAPS, 3), AlbumQuery(Everything(), None);
      o.any && o.mayLook && o.fits && !o.nextFits
      && o.shortest == Pool(g, k, q, 0, 1, 3, [SHORT]) && o.next == Pool(g, k, q, 0, 1, 4, [VIA_FOUR])
  {
    var q := AlbumQuery(Everything(), None);
    assert Admits(q);
    Covered(g, q);
    ShortRoutes(g, q);
    LongRoutes(g, q);
    PaidLayer(g, q, 3, LeftOver(g, q, 1, 4, CAPS));
    PaidLayer(g, q, 4, LeftThen(g, q, 0, 1, 4, CAPS, 3));
    assert First([SHORT], 1) == [SHORT] && First([VIA_FOUR, VIA_FIVE], 1) == [VIA_FOUR];
  }

  // ---------- The evidence ----------

  /** Release 10 is unofficial; releases 20 and 21 carry no caveat. */
  function Judge(): Ranker {
    Ranker(map[-2 := 0, -1 := 1, 1 := 2, 2 := 3, 3 := 4],
           EvidenceIndex(map[10 := 1, 20 := 0, 21 := 0], ["unofficial"]), (role: string) => true)
  }

  lemma Severities(hop: PathHop)
    ensures hop.releaseId == 10 ==> HopSeverity(Judge(), hop) == 3
    ensures hop.releaseId == 20 || hop.releaseId == 21 ==> HopSeverity(Judge(), hop) == 0
  {
    assert Pow2(0) == 1;
    assert BitSet(1, 0) && !BitSet(0, 0);
    assert SeverityUpTo(1, ["unofficial"], 0) == 0 && SeverityUpTo(0, ["unofficial"], 0) == 0;
    assert SeverityUpTo(1, ["unofficial"], 1) == 3 && SeverityUpTo(0, ["unofficial"], 1) == 0;
  }

  lemma BuiltShape(x: int, y: int)
    ensures Shape(Built(x, y)) && IsArtistIndex(Built(x, y), Judge().artistIndex)
  {
    var g := Built(x, y);
    assert forall n :: 0 <= n < 5 ==> GoodRow(g, n);
    assert forall s :: 0 <= s < 12 ==> g.neighbors[s] < 5;
  }

  /** What a route's caveat is, from the hops between people. */
  lemma CaveatIsWorst(g: Graph, r: RankedRoute, w: Walk, depth: nat)
    requires RowsInRange(g) && IsArtistIndex(g, Judge().artistIndex)
    requires RanksWalk(g, Judge(), AlbumQuery(Everything(), None), 0, 1, depth, r, w)
    ensures |w.slots| >= 2 && IsWorst(Judge(), HopsOf(g, w)[1..|w.slots| - 1], CaveatOf(r))
  {
  }

  lemma ShortCaveat(x: int, y: int, r: RankedRoute)
    requires Shape(Built(x, y)) && IsArtistIndex(Built(x, y), Judge().artistIndex)
    requires RanksWalk(Built(x, y), Judge(), AlbumQuery(Everything(), None), 0, 1, 3, r, SHORT)
    ensures CaveatOf(r) == WORST_SEVERITY
  {
    var g := Built(x, y);
    CaveatIsWorst(g, r, SHORT, 3);
    var middle := HopsOf(g, SHORT)[1..2];
    assert middle[0].releaseId == 10;
    Severities(middle[0]);
  }

  lemma LongCaveat(x: int, y: int, r: RankedRoute)
    requires Shape(Built(x, y)) && IsArtistIndex(Built(x, y), Judge().artistIndex) && x in {10, 20}
    requires RanksWalk(Built(x, y), Judge(), AlbumQuery(Everything(), None), 0, 1, 4, r, VIA_FOUR)
    ensures CaveatOf(r) == if x == 10 then WORST_SEVERITY else 0
  {
    var g := Built(x, y);
    CaveatIsWorst(g, r, VIA_FOUR, 4);
    var middle := HopsOf(g, VIA_FOUR)[1..3];
    assert middle[0].releaseId == x && middle[1].releaseId == 21;
    Severities(middle[0]);
    Severities(middle[1]);
  }

  lemma PoolOfOne(g: Graph, k: Ranker, q: Query, depth: nat, w: Walk, r: RankedRoute)
    requires RowsInRange(g) && IsArtistIndex(g, k.artistIndex)
    ensures r in Pool(g, k, q, 0, 1, depth, [w]) <==> RanksWalk(g, k, q, 0, 1, depth, r, w)
  {
    assert w in [w];
    assert RankedBy(g, k, q, 0, 1, depth, [w], r) <==> RanksWalk(g, k, q, 0, 1, depth, r, w);
  }

  lemma ShortIsWorst(x: int, y: int)
    requires Shape(Built(x, y)) && IsArtistIndex(Built(x, y), Judge().artistIndex)
    ensures AllWorst(Pool(Built(x, y), Judge(), AlbumQuery(Everything(), None), 0, 1, 3, [SHORT]))
  {
    var g, q := Built(x, y), AlbumQuery(Everything(), None);
    forall r | r in Pool(g, Judge(), q, 0, 1, 3, [SHORT]) ensures r.facts.worstCaveatSeverity == Some(WORST_SEVERITY) {
      PoolOfOne(g, Judge(), q, 3, SHORT, r);
      ShortCaveat(x, y, r);
    }
  }

  // ---------- The clean route can be ranked ----------

  /** The hops between people on the first of the longer routes, when release 20 comes first. */
  const CLEAN := [PathHop(20, 1, 3, "a", "a"), PathHop(21, 3, 2, "a", "a")]

  lemma CleanHops(y: int)
    requires Shape(Built(20, y))
    ensures InBounds(Built(20, y), VIA_FOUR)
    ensures StripAlbumAnchors(HopsOf(Built(20, y), VIA_FOUR)).Some?
    ensures StripAlbumAnchors(HopsOf(Built(20, y), VIA_FOUR)).value.hops == CLEAN
  {
    var hops := HopsOf(Built(20, y), VIA_FOUR);
    assert hops[0].roleA == S && hops[3].roleB == S;
    assert hops[1] == CLEAN[0] && hops[2] == CLEAN[1];
    assert hops[1..3] == CLEAN;
  }

  lemma CleanFacts(y: int)
    requires Shape(Built(20, y)) && IsArtistIndex(Built(20, y), Judge().artistIndex)
    ensures AreFacts(Built(20, y), Judge(), CLEAN, RouteFacts(2, Some(0), 4, CountPerformers(Judge(), CLEAN)))
  {
    var g, k := Built(20, y), Judge();
    Severities(CLEAN[0]);
    Severities(CLEAN[1]);
    assert IsWorst(k, CLEAN, 0) && !MissingEvidence(k, CLEAN);
    forall n: nat | OnRoute(k, CLEAN, n) ensures n < 5 && RowLength(g, n) <= 4 {
      assert n in {2, 3, 4};
    }
    assert Touches(k, CLEAN[0], 2) && OnRoute(k, CLEAN, 2) && RowLength(g, 2) == 4;
  }

  lemma CleanIsBetter(y: int)
    requires Shape(Built(20, y)) && IsArtistIndex(Built(20, y), Judge().artistIndex)
    ensures HasBetter(Pool(Built(20, y), Judge(), AlbumQuery(Everything(), None), 0, 1, 4, [VIA_FOUR]))
  {
    var g, k, q := Built(20, y), Judge(), AlbumQuery(Everything(), None);
    CleanHops(y);
    CleanFacts(y);
    LongRoutes(g, q);
    assert VIA_FOUR in ExactRoutes(g, q, 0, 1, 4);
    ExactRoutesExact(g, q, 0, 1, 4);
    var hops := HopsOf(g, VIA_FOUR);
    var r := RankedRoute(StripAlbumAnchors(hops).value, EdgeKeysForHops(hops),
                         RouteFacts(2, Some(0), 4, CountPerformers(k, CLEAN)));
    assert RanksWalk(g, k, q, 0, 1, 4, r, VIA_FOUR);
    PoolOfOne(g, k, q, 4, VIA_FOUR, r);
    assert Milder(r);
  }

  lemma WorstIsNotBetter(y: int)
    requires Shape(Built(10, y)) && IsArtistIndex(Built(10, y), Judge().artistIndex)
    ensures !HasBetter(Pool(Built(10, y), Judge(), AlbumQuery(Everything(), None), 0, 1, 4, [VIA_FOUR]))
  {
    var g, k, q := Built(10, y), Judge(), AlbumQuery(Everything(), None);
    forall r | r in Pool(g, k, q, 0, 1, 4, [VIA_FOUR]) ensures !Milder(r) {
      PoolOfOne(g, k, q, 4, VIA_FOUR, r);
      LongCaveat(10, y, r);
    }
  }

  // ---------- Two answers ----------

  /** What the caps and the evidence come to in one of the graphs. */
  lemma Situation(x: int, y: int)
    requires x in {10, 20} && Shape(Built(x, y)) && IsArtistIndex(Built(x, y), Judge().artistIndex)
    ensures var g, k := Built(x, y), Judge();
      var o := OutlookAt(g, k, Everything(), 0, 1, 4, CAPS, 3);
      && Met(g, AlbumQuery(Everything(), None), 1, 0, 3)
      && Affords(CAPS.maxExpansions, GuideCost(g, AlbumQuery(Everything(), None), 1, 6))
      && o.any && o.fits && !o.nextFits && Looks(o) && (HasBetter(o.next) <==> x == 20)
  {
    ThreeHops(Built(x, y), AlbumQuery(Everything(), None));
    WhatFits(Built(x, y), Judge());
    ShortIsWorst(x, y);
    if x == 20 { CleanIsBetter(y); } else { WorstIsNotBetter(y); }
  }

  /** What an answer over one of the graphs must say. */
  lemma AnswerSays(x: int, y: int, g: Graph, k: Ranker, r: Result<Recommendation>, w: Walk)
    requires x in {10, 20} && g == Built(x, y) && k == Judge() && Shape(g) && IsArtistIndex(g, k.artistIndex)
    requires EngineAnswer(g, k, Everything(), 0, 1, 4, CAPS, r, w)
    ensures r.Ok? && (r.value.usedPlusOneHop <==> x == 20) && (r.value.rankingDegraded <==> x == 20)
  {
    Situation(x, y);
    AnswerDepth(g, k, Everything(), 0, 1, 4, CAPS, 3, r, w);
    AnswerFlags(g, k, Everything(), 0, 1, 4, CAPS, 3, r.value, w);
  }

  // ---------- They are proper graphs, and permutations of each other ----------

  lemma RowsOf(g: Graph, n: nat, s: nat)
    requires Shape(g) && InRow(g, n, s)
    ensures (s == 0 && n == 0) || (s == 1 && n == 1) || (2 <= s < 6 && n == 2) || (6 <= s < 9 && n == 3) || (9 <= s < 12 && n == 4)
  {
  }

  lemma BuiltWellFormed(x: int, y: int)
    requires Shape(Built(x, y))
    ensures WellFormed(Built(x, y))
  {
    var g := Built(x, y);
    assert "a" != S by { assert |S| > 1; }
    forall n: nat, s: nat | InRow(g, n, s)
      ensures (g.edgeRoleA[s] == S <==> Virtual(g, n)) && (g.edgeRoleB[s] == S <==> Virtual(g, g.neighbors[s]))
    {
      RowsOf(g, n, s);
      assert s in {0, 1, 2, 3, 4, 5, 6, 7, 8, 9, 10, 11};
    }
    assert g.nodeIds[0] == -2 && g.nodeIds[1] == -1;
  }

  /** Where each slot is stored from the other end. */
  function Mate(x: int, s: nat): nat
    requires s < 12
  {
    [2, 6, 0, 7, if x == 10 then 9 else 10, if x == 10 then 10 else 9, 1, 3, 11,
     if x == 10 then 4 else 5, if x == 10 then 5 else 4, 8][s]
  }

  lemma BuiltUndirected(x: int, y: int)
    requires Shape(Built(x, y)) && ((x == 10 && y == 20) || (x == 20 && y == 10))
    ensures Undirected(Built(x, y))
  {
    var g := Built(x, y);
    assert forall n :: 0 <= n < 5 ==> GoodRow(g, n);
    forall n: nat, s: nat | InRow(g, n, s) ensures HasMirror(g, n, s) {
      RowsOf(g, n, s);
      MateMirrors(x, y, n, s);
    }
  }

  lemma MateMirrors(x: int, y: int, n: nat, s: nat)
    requires Shape(Built(x, y)) && ((x == 10 && y == 20) || (x == 20 && y == 10)) && InRow(Built(x, y), n, s)
    ensures Mirrors(Built(x, y), n, s, Mate(x, s))
  {
    var g := Built(x, y);
    RowsOf(g, n, s);
    assert GoodRow(g, 0) && GoodRow(g, 1) && GoodRow(g, 2) && GoodRow(g, 3) && GoodRow(g, 4);
    assert s in {0, 1, 2, 3, 4, 5, 6, 7, 8, 9, 10, 11};
  }

  lemma BuiltNoTwins(x: int, y: int)
    requires Shape(Built(x, y)) && x != y
    ensures NoTwinSlots(Built(x, y))
  {
    var g := Built(x, y);
    forall n: nat, s: nat, t: nat | InRow(g, n, s) && InRow(g, n, t) && s != t
      ensures g.neighbors[s] != g.neighbors[t] || g.evidenceReleaseIds[s] != g.evidenceReleaseIds[t]
    {
      RowsOf(g, n, s);
      RowsOf(g, n, t);
    }
  }

  lemma TwinOf(x: int, y: int, n: nat, s: nat)
    requires Shape(Built(x, y)) && Shape(Built(y, x)) && InRow(Built(x, y), n, s)
    ensures HasTwin(Built(x, y), n, s, Built(y, x))
  {
    var g, h := Built(x, y), Built(y, x);
    RowsOf(g, n, s);
    assert GoodRow(h, n);
    var t := if s == 4 then 5 else if s == 5 then 4 else s;
    assert InRow(h, n, t) && SameSlot(g, s, h, t);
  }

  lemma BuiltPermuted(x: int, y: int)
    requires Shape(Built(x, y)) && Shape(Built(y, x))
    ensures PermutedRows(Built(x, y), Built(y, x))
  {
    forall n: nat, s: nat | InRow(Built(x, y), n, s) ensures HasTwin(Built(x, y), n, s, Built(y, x)) { TwinOf(x, y, n, s); }
    forall n: nat, s: nat | InRow(Built(y, x), n, s) ensures HasTwin(Built(y, x), n, s, Built(x, y)) { TwinOf(y, x, n, s); }
  }

  const ALBUMS := map["first" := -2, "second" := -1]

  lemma BuiltAlbums(x: int, y: int)
    ensures IsAlbumIndex(Built(x, y), ALBUMS)
  {
    var nodes := Built(x, y).albumVirtualNodes;
    assert nodes[0].albumId == "first" && nodes[1].albumId == "second";
    assert "first" != "second" by { assert |"first"| != |"second"|; }
  }

  /** The engine's answer from the first album to the second. */
  method Ask(g: Graph, k: Ranker) returns (r: Result<Recommendation>, ghost w: Walk)
    requires WellFormed(g) && IsArtistIndex(g, k.artistIndex) && IsAlbumIndex(g, ALBUMS)
    requires -2 in k.artistIndex && -1 in k.artistIndex && k.artistIndex[-2] == 0 && k.artistIndex[-1] == 1
    ensures EngineAnswer(g, k, Everything(), 0, 1, 4, CAPS, r, w)
  {
    assert "first" != "second" by { assert |"first"| != |"second"|; }
    ghost var charged;
    r, w, charged := SelectRecommendedRoute(g, k, ALBUMS, "first", "second", 4, Everything(), 1, 1000);
  }

  method Recommend(x: int, y: int) returns (a: Recommendation)
    requires (x == 10 && y == 20) || (x == 20 && y == 10)
    ensures (a.usedPlusOneHop <==> x == 20) && (a.rankingDegraded <==> x == 20)
  {
    BuiltShape(x, y);
    BuiltWellFormed(x, y);
    BuiltAlbums(x, y);
    var r;
    ghost var w;
    r, w := Ask(Built(x, y), Judge());
    AnswerSays(x, y, Built(x, y), Judge(), r, w);
    a := r.value;
  }

  /** With one route allowed, the order of two slots decides between a fully ranked answer of the shortest
      length and a degraded one that is a hop longer. */
  method OrderDecidesTheFlags() returns (a: Recommendation, b: Recommendation)
    ensures RowsInRange(Built(10, 20)) && Undirected(Built(10, 20)) && NoTwinSlots(Built(10, 20))
    ensures PermutedRows(Built(10, 20), Built(20, 10))
    ensures !a.rankingDegraded && !a.usedPlusOneHop && b.rankingDegraded && b.usedPlusOneHop
  {
    BuiltShape(10, 20);
    BuiltShape(20, 10);
    BuiltUndirected(10, 20);
    BuiltPermuted(10, 20);
    BuiltNoTwins(10, 20);
    a := Recommend(10, 20);
    b := Recommend(20, 10);
  }
}
