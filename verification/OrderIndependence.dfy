/** What the order of the slots inside the graph's rows can decide about a recommendation, and what it cannot. */
module OrderIndependence {
  import opened Text
  import opened PathfindingGraph
  import opened Routes
  import opened BudgetedRun
  import opened FindPath
  import opened FindAlbumRoute
  import opened ReverseDistances
  import opened ExactDepthRoutes
  import opened RowSums
  import opened RouteRanking
  import opened RecommendedRoute

  // ---------- The same edges, stored in another order ----------

  /** Slot `t` of `h` holds what slot `s` of `g` holds. */
  predicate SameSlot(g: Graph, s: nat, h: Graph, t: nat)
    requires RowsInRange(g) && RowsInRange(h) && s < |g.neighbors| && t < |h.neighbors|
  {
    && g.neighbors[s] == h.neighbors[t]
    && g.evidenceReleaseIds[s] == h.evidenceReleaseIds[t]
    && g.edgeRoleA[s] == h.edgeRoleA[t]
    && g.edgeRoleB[s] == h.edgeRoleB[t]
  }

  ghost predicate HasTwin(g: Graph, n: nat, s: nat, h: Graph)
    requires RowsInRange(g) && RowsInRange(h) && InRow(g, n, s)
  {
    exists t: nat :: InRow(h, n, t) && SameSlot(g, s, h, t)
  }

  /** Every slot of every row of `g` also stands somewhere in the same row of `h`. */
  ghost predicate RowsWithin(g: Graph, h: Graph)
    requires RowsInRange(g) && RowsInRange(h)
  {
    && g.nodeIds == h.nodeIds && g.offsets == h.offsets
    && forall n: nat, s: nat {:trigger HasTwin(g, n, s, h)} :: InRow(g, n, s) ==> HasTwin(g, n, s, h)
  }

  ghost predicate PermutedRows(g: Graph, h: Graph) {
    RowsInRange(g) && RowsInRange(h) && RowsWithin(g, h) && RowsWithin(h, g)
  }

  lemma TwinStep(g: Graph, h: Graph, q: Query, goal: nat, n: nat, s: nat) returns (t: nat)
    requires PermutedRows(g, h) && Step(g, q, goal, n, s)
    ensures Step(h, q, goal, n, t) && SameSlot(g, s, h, t)
  {
    assert HasTwin(g, n, s, h);
    t :| InRow(h, n, t) && SameSlot(g, s, h, t);
  }

  lemma {:induction false} SameReach(g: Graph, h: Graph, q: Query, goal: nat, v: nat, k: nat)
    requires PermutedRows(g, h) && Reaches(g, q, goal, v, k)
    ensures Reaches(h, q, goal, v, k)
    decreases k
  {
    if v != goal {
      var s: nat :| Step(g, q, goal, v, s) && Reaches(g, q, goal, g.neighbors[s], k - 1);
      SameReach(g, h, q, goal, g.neighbors[s], k - 1);
      var t := TwinStep(g, h, q, goal, v, s);
    }
  }

  lemma SameDistance(g: Graph, h: Graph, q: Query, goal: nat, v: nat, d: nat)
    requires PermutedRows(g, h)
    ensures Distance(g, q, goal, v, d) <==> Distance(h, q, goal, v, d)
  {
    forall k: nat ensures Reaches(g, q, goal, v, k) <==> Reaches(h, q, goal, v, k) {
      if Reaches(g, q, goal, v, k) { SameReach(g, h, q, goal, v, k); }
      if Reaches(h, q, goal, v, k) { SameReach(h, g, q, goal, v, k); }
    }
  }

  /** Every walk of `g` is a walk of `h` through the same nodes that shows the same hops. */
  lemma {:induction false} TransferWalk(g: Graph, h: Graph, q: Query, goal: nat, w: Walk, upTo: nat) returns (slots: seq<nat>)
    requires PermutedRows(g, h) && InBounds(g, w) && upTo <= |w.slots|
    requires forall i {:trigger w.slots[i]} :: 0 <= i < |w.slots| ==>
      Step(g, q, goal, w.nodes[i], w.slots[i]) && g.neighbors[w.slots[i]] == w.nodes[i + 1]
    ensures |slots| == upTo
    ensures forall i {:trigger slots[i]} :: 0 <= i < upTo ==>
      Step(h, q, goal, w.nodes[i], slots[i]) && SameSlot(g, w.slots[i], h, slots[i])
    decreases upTo
  {
    if upTo == 0 {
      slots := [];
    } else {
      slots := TransferWalk(g, h, q, goal, w, upTo - 1);
      var t := TwinStep(g, h, q, goal, w.nodes[upTo - 1], w.slots[upTo - 1]);
      slots := slots + [t];
    }
  }

  lemma TransferRoute(g: Graph, h: Graph, q: Query, start: nat, goal: nat, w: Walk) returns (v: Walk)
    requires PermutedRows(g, h) && InBounds(g, w) && IsRoute(g, q, start, goal, w)
    ensures IsRoute(h, q, start, goal, v) && InBounds(h, v) && |v.slots| == |w.slots|
    ensures v.nodes == w.nodes && HopsOf(h, v) == HopsOf(g, w)
  {
    var slots := TransferWalk(g, h, q, goal, w, |w.slots|);
    v := Walk(w.nodes, slots);
    assert forall i :: 0 <= i < |slots| ==> HopsOf(h, v)[i] == HopsOf(g, w)[i];
  }

  lemma {:induction false} SpreadsAlso(g: Graph, h: Graph, q: Query, goal: nat, v: nat, k: nat)
    requires PermutedRows(g, h) && Spreads(g, q, goal, v, k)
    ensures Spreads(h, q, goal, v, k)
    decreases k
  {
    if v != goal {
      var u: nat, s: nat :| Leads(g, q, goal, u, s, v) && Spreads(g, q, goal, u, k - 1);
      SpreadsAlso(g, h, q, goal, u, k - 1);
      assert HasTwin(g, u, s, h);
      var t: nat :| InRow(h, u, t) && SameSlot(g, s, h, t);
      assert Leads(h, q, goal, u, t, v);
    }
  }

  lemma SameSpreads(g: Graph, h: Graph, q: Query, goal: nat, v: nat, k: nat)
    requires PermutedRows(g, h)
    ensures Spreads(g, q, goal, v, k) <==> Spreads(h, q, goal, v, k)
  {
    if Spreads(g, q, goal, v, k) { SpreadsAlso(g, h, q, goal, v, k); }
    if Spreads(h, q, goal, v, k) { SpreadsAlso(h, g, q, goal, v, k); }
  }

  lemma SameMet(g: Graph, h: Graph, q: Query, goal: nat, v: nat, d: nat)
    requires PermutedRows(g, h)
    ensures Met(g, q, goal, v, d) <==> Met(h, q, goal, v, d)
  {
    SameSpreads(g, h, q, goal, v, d);
    if d > 0 { SameSpreads(g, h, q, goal, v, d - 1); }
  }

  /** The guides let the same routes through. */
  lemma GuidedAlso(g: Graph, h: Graph, q: Query, start: nat, goal: nat, depth: nat, w: Walk, v: Walk)
    requires PermutedRows(g, h) && Guided(g, q, start, goal, depth, w)
    requires IsRoute(h, q, start, goal, v) && v.nodes == w.nodes && |v.slots| == |w.slots|
    ensures Guided(h, q, start, goal, depth, v)
  {
    forall i | 0 < i <= |v.slots| ensures SightedAt(h, q, goal, v, i) {
      assert SightedAt(g, q, goal, w, i);
      SpreadsAlso(g, h, q, goal, w.nodes[i], |w.slots| - i);
    }
  }

  lemma SameFacts(g: Graph, h: Graph, k: Ranker, hops: seq<PathHop>, facts: RouteFacts)
    requires PermutedRows(g, h) && IsArtistIndex(g, k.artistIndex) && AreFacts(g, k, hops, facts)
    ensures IsArtistIndex(h, k.artistIndex) && AreFacts(h, k, hops, facts)
  {
  }

  lemma LayerWithin(g: Graph, h: Graph, k: Ranker, q: Query, start: nat, goal: nat, depth: nat)
    requires PermutedRows(g, h) && IsArtistIndex(g, k.artistIndex) && IsArtistIndex(h, k.artistIndex)
    ensures Layer(g, k, q, start, goal, depth) <= Layer(h, k, q, start, goal, depth)
  {
    forall r | r in Layer(g, k, q, start, goal, depth) ensures r in Layer(h, k, q, start, goal, depth) {
      assert HasWalk(g, k, q, start, goal, depth, r);
      var w :| RanksWalk(g, k, q, start, goal, depth, r, w);
      var v := TransferRoute(g, h, q, start, goal, w);
      SameFacts(g, h, k, r.route.hops, r.facts);
      GuidedAlso(g, h, q, start, goal, depth, w, v);
      assert RanksWalk(h, k, q, start, goal, depth, r, v);
    }
  }

  // ---------- A route is fixed by its edge keys ----------

  /** The two walks agree up to node `i`. */
  ghost predicate AgreeTo(a: Walk, b: Walk, i: nat) {
    i < |a.nodes| && i < |b.nodes| && i <= |a.slots| && i <= |b.slots|
    && a.nodes[..i + 1] == b.nodes[..i + 1] && a.slots[..i] == b.slots[..i]
  }

  lemma MatchingHop(a: seq<PathHop>, b: seq<PathHop>, i: nat) returns (j: nat)
    requires EdgeKeysForHops(a) == EdgeKeysForHops(b) && i < |a|
    ensures j < |b| && a[i].releaseId == b[j].releaseId
    ensures SamePair(a[i].artistAId, a[i].artistBId, b[j].artistAId, b[j].artistBId)
  {
    assert HopEdgeKey(a[i]) in EdgeKeysForHops(a);
    j :| 0 <= j < |b| && HopEdgeKey(b[j]) == HopEdgeKey(a[i]);
    EdgeKeyInjective(a[i].artistAId, a[i].artistBId, a[i].releaseId, b[j].artistAId, b[j].artistBId, b[j].releaseId);
  }

  /** Where the edge of one route's hop stands in another route with the same keys. */
  lemma FindEdge(g: Graph, a: Walk, b: Walk, i: nat) returns (j: nat)
    requires RowsInRange(g) && SortedIds(g) && InBounds(g, a) && InBounds(g, b) && i < |a.slots|
    requires EdgeKeysForHops(HopsOf(g, a)) == EdgeKeysForHops(HopsOf(g, b))
    ensures j < |b.slots|
    ensures SamePair(a.nodes[i], a.nodes[i + 1], b.nodes[j], b.nodes[j + 1])
    ensures g.evidenceReleaseIds[a.slots[i]] == g.evidenceReleaseIds[b.slots[j]]
  {
    j := MatchingHop(HopsOf(g, a), HopsOf(g, b), i);
  }

  /** On two simple paths that agree up to node `i`, an edge out of that node stands at the same place. */
  lemma SamePlace(a: seq<nat>, b: seq<nat>, i: nat, j: nat)
    requires Distinct(a) && Distinct(b) && i + 1 < |a| && j + 1 < |b| && i < |b| && a[..i + 1] == b[..i + 1]
    requires SamePair(a[i], a[i + 1], b[j], b[j + 1])
    ensures j == i && a[i + 1] == b[i + 1]
  {
    assert a[i] == a[..i + 1][i] == b[i];
    if i > 0 { assert a[i - 1] == a[..i + 1][i - 1] == b[i - 1]; }
  }

  lemma SlotByContent(g: Graph, n: nat, s: nat, t: nat)
    requires RowsInRange(g) && NoTwinSlots(g) && InRow(g, n, s) && InRow(g, n, t)
    requires g.neighbors[s] == g.neighbors[t] && g.evidenceReleaseIds[s] == g.evidenceReleaseIds[t]
    ensures s == t
  {
  }

  lemma AgreeOneMore(g: Graph, q: Query, start: nat, goal: nat, a: Walk, b: Walk, i: nat)
    requires RowsInRange(g) && SortedIds(g) && NoTwinSlots(g) && InBounds(g, a) && InBounds(g, b)
    requires IsRoute(g, q, start, goal, a) && IsRoute(g, q, start, goal, b)
    requires EdgeKeysForHops(HopsOf(g, a)) == EdgeKeysForHops(HopsOf(g, b))
    requires AgreeTo(a, b, i) && i < |a.slots| && i < |b.slots|
    ensures AgreeTo(a, b, i + 1)
  {
    var j := FindEdge(g, a, b, i);
    SamePlace(a.nodes, b.nodes, i, j);
    assert a.nodes[i] == a.nodes[..i + 1][i] == b.nodes[i];
    assert Step(g, q, goal, a.nodes[i], a.slots[i]) && Step(g, q, goal, b.nodes[i], b.slots[i]);
    SlotByContent(g, a.nodes[i], a.slots[i], b.slots[i]);
    TakeOneMore(a.nodes, b.nodes, i + 1);
    TakeOneMore(a.slots, b.slots, i);
  }

  lemma TakeOneMore(a: seq<nat>, b: seq<nat>, n: nat)
    requires n < |a| && n < |b| && a[..n] == b[..n] && a[n] == b[n]
    ensures a[..n + 1] == b[..n + 1]
  {
    assert a[..n + 1] == a[..n] + [a[n]];
    assert b[..n + 1] == b[..n] + [b[n]];
  }

  lemma {:induction false} KeysFixRoute(g: Graph, q: Query, start: nat, goal: nat, a: Walk, b: Walk, i: nat)
    requires RowsInRange(g) && SortedIds(g) && NoTwinSlots(g) && InBounds(g, a) && InBounds(g, b)
    requires IsRoute(g, q, start, goal, a) && IsRoute(g, q, start, goal, b) && |a.slots| == |b.slots|
    requires EdgeKeysForHops(HopsOf(g, a)) == EdgeKeysForHops(HopsOf(g, b))
    requires AgreeTo(a, b, i)
    ensures a == b
    decreases |a.slots| - i
  {
    if i < |a.slots| {
      AgreeOneMore(g, q, start, goal, a, b, i);
      KeysFixRoute(g, q, start, goal, a, b, i + 1);
    } else {
      assert a.nodes[..i + 1] == a.nodes && b.nodes[..i + 1] == b.nodes;
      assert a.slots[..i] == a.slots && b.slots[..i] == b.slots;
    }
  }

  /** Within a layer the comparator ties a route only with itself: a strict total order. */
  lemma NoTiesInLayer(g: Graph, k: Ranker, q: Query, start: nat, goal: nat, depth: nat, a: RankedRoute, b: RankedRoute)
    requires WellFormed(g) && NoTwinSlots(g) && IsArtistIndex(g, k.artistIndex)
    requires a in Layer(g, k, q, start, goal, depth) && b in Layer(g, k, q, start, goal, depth)
    requires CompareRanked(a, b) == 0
    ensures a == b
  {
    LayerKeys(g, k, q, start, goal, depth, a);
    LayerKeys(g, k, q, start, goal, depth, b);
    TieMeansSameEdges(a, b);
    SameKeysSameRoute(g, k, q, start, goal, depth, a, b);
  }

  lemma LayerKeys(g: Graph, k: Ranker, q: Query, start: nat, goal: nat, depth: nat, a: RankedRoute)
    requires RowsInRange(g) && IsArtistIndex(g, k.artistIndex) && a in Layer(g, k, q, start, goal, depth)
    ensures RouteKeys(a.usedEdgeKeys)
  {
    assert HasWalk(g, k, q, start, goal, depth, a);
    var w :| RanksWalk(g, k, q, start, goal, depth, a, w);
    assert a.usedEdgeKeys == EdgeKeysForHops(HopsOf(g, w));
  }

  lemma SameKeysSameRoute(g: Graph, k: Ranker, q: Query, start: nat, goal: nat, depth: nat, a: RankedRoute, b: RankedRoute)
    requires WellFormed(g) && NoTwinSlots(g) && IsArtistIndex(g, k.artistIndex)
    requires a in Layer(g, k, q, start, goal, depth) && b in Layer(g, k, q, start, goal, depth)
    requires a.usedEdgeKeys == b.usedEdgeKeys
    ensures a == b
  {
    assert HasWalk(g, k, q, start, goal, depth, a) && HasWalk(g, k, q, start, goal, depth, b);
    var wa :| RanksWalk(g, k, q, start, goal, depth, a, wa);
    var wb :| RanksWalk(g, k, q, start, goal, depth, b, wb);
    SameKeysSameRank(g, k, q, start, goal, depth, a, wa, b, wb);
  }

  lemma SameKeysSameRank(g: Graph, k: Ranker, q: Query, start: nat, goal: nat, depth: nat,
                         a: RankedRoute, wa: Walk, b: RankedRoute, wb: Walk)
    requires WellFormed(g) && NoTwinSlots(g) && IsArtistIndex(g, k.artistIndex)
    requires RanksWalk(g, k, q, start, goal, depth, a, wa) && RanksWalk(g, k, q, start, goal, depth, b, wb)
    requires a.usedEdgeKeys == b.usedEdgeKeys
    ensures a == b
  {
    SameKeysSameWalk(g, k, q, start, goal, depth, a, wa, b, wb);
    WalkRanks(g, k, q, start, goal, depth, a, wa);
    WalkRanks(g, k, q, start, goal, depth, b, wb);
    SameHopsSameRank(g, k, HopsOf(g, wa), a, b);
  }

  lemma WalkRanks(g: Graph, k: Ranker, q: Query, start: nat, goal: nat, depth: nat, r: RankedRoute, w: Walk)
    requires RowsInRange(g) && IsArtistIndex(g, k.artistIndex) && RanksWalk(g, k, q, start, goal, depth, r, w)
    ensures InBounds(g, w) && Ranks(g, k, HopsOf(g, w), r)
    ensures r.usedEdgeKeys == EdgeKeysForHops(HopsOf(g, w))
    ensures IsRoute(g, q, start, goal, w) && |w.slots| == depth
  {
  }

  lemma SameKeysSameWalk(g: Graph, k: Ranker, q: Query, start: nat, goal: nat, depth: nat,
                         a: RankedRoute, wa: Walk, b: RankedRoute, wb: Walk)
    requires RowsInRange(g) && SortedIds(g) && NoTwinSlots(g) && IsArtistIndex(g, k.artistIndex)
    requires RanksWalk(g, k, q, start, goal, depth, a, wa) && RanksWalk(g, k, q, start, goal, depth, b, wb)
    requires a.usedEdgeKeys == b.usedEdgeKeys
    ensures wa == wb
  {
    WalkRanks(g, k, q, start, goal, depth, a, wa);
    WalkRanks(g, k, q, start, goal, depth, b, wb);
    KeysFixRoute(g, q, start, goal, wa, wb, 0);
  }

  lemma SameHopsSameRank(g: Graph, k: Ranker, hops: seq<PathHop>, a: RankedRoute, b: RankedRoute)
    requires RowsInRange(g) && IsArtistIndex(g, k.artistIndex)
    requires Ranks(g, k, hops, a) && Ranks(g, k, hops, b)
    ensures a == b
  {
    FactsUnique(g, k, a.route.hops, a.facts, b.facts);
  }

  // ---------- What a stage costs does not depend on slot order ----------

  lemma RowsAreDistinct(g: Graph, n: nat)
    requires RowsInRange(g) && NoTwinSlots(g) && n < |g.nodeIds|
    ensures Distinct(Row(g, n))
  {
    assert GoodRow(g, n);
    var r, from := Row(g, n), g.offsets[n];
    forall i, j | 0 <= i < j < |r| ensures r[i] != r[j] {
      assert InRow(g, n, from + i) && InRow(g, n, from + j);
      assert r[i] == ContentAt(g, from + i) && r[j] == ContentAt(g, from + j);
    }
  }

  /** A row and its permuted form hold the same slots. */
  lemma SameRow(g: Graph, h: Graph, n: nat)
    requires PermutedRows(g, h) && NoTwinSlots(g) && n < |g.nodeIds|
    ensures multiset(Row(g, n)) == multiset(Row(h, n))
  {
    assert GoodRow(g, n) && GoodRow(h, n);
    var from := g.offsets[n];
    forall c | c in Row(g, n) ensures c in Row(h, n) {
      var i :| 0 <= i < |Row(g, n)| && Row(g, n)[i] == c;
      assert InRow(g, n, from + i);
      assert HasTwin(g, n, from + i, h);
      var t: nat :| InRow(h, n, t) && SameSlot(g, from + i, h, t);
      assert Row(h, n)[t - from] == ContentAt(h, t) == c;
    }
    RowsAreDistinct(g, n);
    DistinctFill(Row(g, n), Row(h, n));
  }

  /** What one slot of the row adds to a tally, by its content. */
  ghost function Share(g: Graph, q: Query, goal: nat, nodes: seq<nat>, k: nat, counting: bool, c: Content): nat
    requires RowsInRange(g) && nodes != [] && k > 0
  {
    (if counting then 0 else 1)
    + if EntersContent(g, q, goal, nodes, k, c) then Tally(g, q, goal, nodes + [c.neighbor], k - 1, counting) else 0
  }

  ghost predicate EntersContent(g: Graph, q: Query, goal: nat, nodes: seq<nat>, k: nat, c: Content)
    requires RowsInRange(g) && nodes != [] && k > 0
  {
    var node := nodes[|nodes| - 1];
    && node < |g.nodeIds| && c.neighbor < |g.nodeIds|
    && q.filter(c.roleA, c.roleB) && !q.excludes(g.nodeIds[node], g.nodeIds[c.neighbor], c.releaseId)
    && (Virtual(g, c.neighbor) ==> c.neighbor == goal) && c.neighbor !in nodes
    && Spreads(g, q, goal, c.neighbor, k - 1)
  }

  lemma SlotShare(g: Graph, q: Query, goal: nat, nodes: seq<nat>, k: nat, counting: bool, slot: nat)
    requires RowsInRange(g) && nodes != [] && k > 0 && nodes[|nodes| - 1] < |g.nodeIds| && InRow(g, nodes[|nodes| - 1], slot)
    ensures (if counting then 0 else 1) + TallyBehind(g, q, goal, nodes, k, slot, counting)
         == Share(g, q, goal, nodes, k, counting, ContentAt(g, slot))
  {
  }

  /** The tally over a row is the sum of its slots' shares. */
  lemma {:induction false} TallyIsSum(g: Graph, q: Query, goal: nat, nodes: seq<nat>, k: nat, counting: bool, slot: nat)
    requires RowsInRange(g) && nodes != [] && k > 0 && nodes[|nodes| - 1] < |g.nodeIds|
    requires g.offsets[nodes[|nodes| - 1]] <= slot <= g.offsets[nodes[|nodes| - 1] + 1]
    ensures TallyFrom(g, q, goal, nodes, k, slot, counting)
         == SumOf(RowFrom(g, nodes[|nodes| - 1], slot), (c: Content) => Share(g, q, goal, nodes, k, counting, c))
    decreases g.offsets[nodes[|nodes| - 1] + 1] - slot
  {
    var n := nodes[|nodes| - 1];
    assert GoodRow(g, n);
    if slot < g.offsets[n + 1] {
      assert InRow(g, n, slot);
      SlotShare(g, q, goal, nodes, k, counting, slot);
      TallyIsSum(g, q, goal, nodes, k, counting, slot + 1);
      assert RowFrom(g, n, slot)[0] == ContentAt(g, slot);
      assert RowFrom(g, n, slot)[1..] == RowFrom(g, n, slot + 1);
    }
  }

  lemma {:induction false} SameTally(g: Graph, h: Graph, q: Query, goal: nat, nodes: seq<nat>, k: nat, counting: bool)
    requires PermutedRows(g, h) && NoTwinSlots(g) && nodes != []
    ensures Tally(g, q, goal, nodes, k, counting) == Tally(h, q, goal, nodes, k, counting)
    decreases k
  {
    var n := nodes[|nodes| - 1];
    if n != goal && k > 0 && n < |g.nodeIds| {
      assert GoodRow(g, n) && GoodRow(h, n);
      var f := (c: Content) => Share(g, q, goal, nodes, k, counting, c);
      var e := (c: Content) => Share(h, q, goal, nodes, k, counting, c);
      TallyIsSum(g, q, goal, nodes, k, counting, g.offsets[n]);
      TallyIsSum(h, q, goal, nodes, k, counting, h.offsets[n]);
      forall c | c in Row(g, n) ensures f(c) == e(c) {
        SameShare(g, h, q, goal, nodes, k, counting, c);
      }
      SumAgrees(Row(g, n), f, e);
      SameRow(g, h, n);
      SumPermutes(Row(g, n), Row(h, n), e);
    }
  }

  lemma {:induction false} SameShare(g: Graph, h: Graph, q: Query, goal: nat, nodes: seq<nat>, k: nat, counting: bool, c: Content)
    requires PermutedRows(g, h) && NoTwinSlots(g) && nodes != [] && k > 0
    ensures Share(g, q, goal, nodes, k, counting, c) == Share(h, q, goal, nodes, k, counting, c)
    decreases k, 0
  {
    SameSpreads(g, h, q, goal, c.neighbor, k - 1);
    SameTally(g, h, q, goal, nodes + [c.neighbor], k - 1, counting);
  }

  /** Both graphs' guides read the same rows, at the same cost. */
  lemma SameGuideCost(g: Graph, h: Graph, q: Query, goal: nat, maxDepth: int)
    requires PermutedRows(g, h)
    ensures GuideCost(g, q, goal, maxDepth) == GuideCost(h, q, goal, maxDepth)
  {
    forall v: nat ensures v in ExpandedNodes(g, q, goal, maxDepth) <==> v in ExpandedNodes(h, q, goal, maxDepth) {
      if maxDepth > 0 && v < |g.nodeIds| {
        if Spreads(g, q, goal, v, maxDepth - 1) { SpreadsAlso(g, h, q, goal, v, maxDepth - 1); }
        if Spreads(h, q, goal, v, maxDepth - 1) { SpreadsAlso(h, g, q, goal, v, maxDepth - 1); }
      }
    }
    assert ExpandedNodes(g, q, goal, maxDepth) == ExpandedNodes(h, q, goal, maxDepth);
    SameRows(g, h, ExpandedNodes(g, q, goal, maxDepth), |g.nodeIds|);
  }

  /** Enumerating a layer costs the same and lists as many routes. */
  lemma SameLayerCost(g: Graph, h: Graph, q: Query, start: nat, goal: nat, depth: nat)
    requires PermutedRows(g, h) && NoTwinSlots(g)
    ensures WalkCost(g, q, start, goal, depth) == WalkCost(h, q, start, goal, depth)
    ensures |ExactRoutes(g, q, start, goal, depth)| == |ExactRoutes(h, q, start, goal, depth)|
  {
    SameTally(g, h, q, goal, [start], depth, false);
    SameTally(g, h, q, goal, [start], depth, true);
    TallyCounts(g, q, goal, [start], [], depth, false);
    TallyCounts(h, q, goal, [start], [], depth, false);
    TallyCounts(g, q, goal, [start], [], depth, true);
    TallyCounts(h, q, goal, [start], [], depth, true);
  }

  // ---------- What the caps leave to choose from ----------

  lemma SameLayer(g: Graph, h: Graph, k: Ranker, q: Query, start: nat, goal: nat, depth: nat)
    requires PermutedRows(g, h) && IsArtistIndex(g, k.artistIndex) && IsArtistIndex(h, k.artistIndex)
    ensures Layer(g, k, q, start, goal, depth) == Layer(h, k, q, start, goal, depth)
  {
    LayerWithin(g, h, k, q, start, goal, depth);
    LayerWithin(h, g, k, q, start, goal, depth);
  }

  /** A layer fits in both or in neither, and when it fits the same routes are seen. */
  lemma SameSeen(g: Graph, h: Graph, k: Ranker, q: Query, start: nat, goal: nat, depth: nat, left: int, maxRoutes: int)
    requires PermutedRows(g, h) && NoTwinSlots(g) && start < |g.nodeIds|
    requires IsArtistIndex(g, k.artistIndex) && IsArtistIndex(h, k.artistIndex)
    ensures LayerFits(g, q, start, goal, depth, left, maxRoutes) <==> LayerFits(h, q, start, goal, depth, left, maxRoutes)
    ensures LayerFits(g, q, start, goal, depth, left, maxRoutes) ==>
      Seen(g, k, q, start, goal, depth, left, maxRoutes) == Seen(h, k, q, start, goal, depth, left, maxRoutes)
  {
    SameLayerCost(g, h, q, start, goal, depth);
    if LayerFits(g, q, start, goal, depth, left, maxRoutes) {
      SeesLayer(g, k, q, start, goal, depth, left, maxRoutes);
      SeesLayer(h, k, q, start, goal, depth, left, maxRoutes);
      SameLayer(g, h, k, q, start, goal, depth);
    }
  }

  /** Two outlooks that differ at most in which of too many routes are seen. */
  ghost predicate Alike(o: Outlook, p: Outlook) {
    && o.mayLook == p.mayLook && o.fits == p.fits && o.nextFits == p.nextFits
    && (o.fits ==> o.shortest == p.shortest) && (o.nextFits ==> o.next == p.next)
  }

  /** The same caps leave the same of both graphs, but for which of too many routes come first. */
  lemma SameOutlook(g: Graph, h: Graph, k: Ranker, filter: EdgeFilter, start: nat, goal: nat, maxUserHops: int, caps: Caps, d: nat)
    requires PermutedRows(g, h) && NoTwinSlots(g) && start < |g.nodeIds|
    requires IsArtistIndex(g, k.artistIndex) && IsArtistIndex(h, k.artistIndex)
    ensures Alike(OutlookAt(g, k, filter, start, goal, maxUserHops, caps, d), OutlookAt(h, k, filter, start, goal, maxUserHops, caps, d))
  {
    var q := AlbumQuery(filter, None);
    SameGuideCost(g, h, q, goal, maxUserHops + ALBUM_ANCHOR_HOP_BUDGET);
    SameLayerCost(g, h, q, start, goal, d);
    SameSeen(g, h, k, q, start, goal, d, LeftOver(g, q, goal, maxUserHops, caps), caps.maxRoutes);
    SameSeen(g, h, k, q, start, goal, d + 1, LeftThen(g, q, start, goal, maxUserHops, caps, d), caps.maxRoutes);
  }

  // ---------- The theorems ----------

  predicate SameFlags(a: Recommendation, b: Recommendation) {
    a.usedPlusOneHop == b.usedPlusOneHop && a.shortestLayerComplete == b.shortestLayerComplete
    && a.rankingDegraded == b.rankingDegraded
  }

  /** What an answer's flags come to: what its outlook says, and all the same when nothing fits. */
  ghost predicate FlagsFrom(o: Outlook, rec: Recommendation) {
    var further := Looks(o) && HasBetter(o.next);
    && rec.usedPlusOneHop == further
    && rec.shortestLayerComplete == o.fits
    && rec.rankingDegraded == if further then !o.nextFits else !o.fits
  }

  lemma AnswerFlags(g: Graph, k: Ranker, filter: EdgeFilter, start: nat, goal: nat, maxUserHops: int, caps: Caps, d: nat,
                    rec: Recommendation, w: Walk)
    requires RowsInRange(g) && IsArtistIndex(g, k.artistIndex) && start < |g.nodeIds|
    requires AnswerAt(g, k, filter, start, goal, maxUserHops, caps, d, Ok(rec), w)
    ensures FlagsFrom(OutlookAt(g, k, filter, start, goal, maxUserHops, caps, d), rec)
  {
  }

  /** Where the guide is paid for, the answer is the one at the depth the guide meets the start. */
  lemma AnswerDepth(g: Graph, k: Ranker, filter: EdgeFilter, start: nat, goal: nat, maxUserHops: int, caps: Caps, d: nat,
                    r: Result<Recommendation>, w: Walk)
    requires RowsInRange(g) && IsArtistIndex(g, k.artistIndex) && start < |g.nodeIds|
    requires EngineAnswer(g, k, filter, start, goal, maxUserHops, caps, r, w)
    requires Affords(caps.maxExpansions, GuideCost(g, AlbumQuery(filter, None), goal, maxUserHops + ALBUM_ANCHOR_HOP_BUDGET))
    requires d <= maxUserHops + ALBUM_ANCHOR_HOP_BUDGET && Met(g, AlbumQuery(filter, None), goal, start, d)
    ensures AnswerAt(g, k, filter, start, goal, maxUserHops, caps, d, r, w)
  {
    var q := AlbumQuery(filter, None);
    var e: nat :| e <= maxUserHops + ALBUM_ANCHOR_HOP_BUDGET && Met(g, q, goal, start, e)
                  && AnswerAt(g, k, filter, start, goal, maxUserHops, caps, e, r, w);
    MetOnce(g, q, goal, start, d, e);
  }

  lemma FlagsOfBoth(o: Outlook, a: Recommendation, p: Outlook, b: Recommendation)
    requires Alike(o, p) && FlagsFrom(o, a) && FlagsFrom(p, b)
    ensures SameFlags(a, b) <==> (Looks(o) ==> (HasBetter(o.next) <==> HasBetter(p.next)))
    ensures Looks(o) && o.nextFits ==> (HasBetter(o.next) <==> HasBetter(p.next))
  {
  }

  /** Under the same caps all the flags agree, unless the engine looks further, sees only a part of the
      next layer, and sees a better route in one part and none in the other. */
  lemma WhenFlagsAgree(
      g: Graph, h: Graph, k: Ranker, filter: EdgeFilter, start: nat, goal: nat, maxUserHops: int, caps: Caps, d: nat,
      a: Recommendation, wa: Walk, b: Recommendation, wb: Walk)
    requires PermutedRows(g, h) && NoTwinSlots(g) && start < |g.nodeIds|
    requires IsArtistIndex(g, k.artistIndex) && IsArtistIndex(h, k.artistIndex)
    requires EngineAnswer(g, k, filter, start, goal, maxUserHops, caps, Ok(a), wa)
    requires EngineAnswer(h, k, filter, start, goal, maxUserHops, caps, Ok(b), wb)
    requires Met(g, AlbumQuery(filter, None), goal, start, d) && d <= maxUserHops + ALBUM_ANCHOR_HOP_BUDGET
    ensures var o, p := OutlookAt(g, k, filter, start, goal, maxUserHops, caps, d), OutlookAt(h, k, filter, start, goal, maxUserHops, caps, d);
      && (SameFlags(a, b) <==> (LooksPaid(g, filter, goal, maxUserHops, caps, o) ==> (HasBetter(o.next) <==> HasBetter(p.next))))
      && (Looks(o) && o.nextFits ==> (HasBetter(o.next) <==> HasBetter(p.next)))
  {
    var q := AlbumQuery(filter, None);
    SameGuideCost(g, h, q, goal, maxUserHops + ALBUM_ANCHOR_HOP_BUDGET);
    SameMet(g, h, q, goal, start, d);
    SameOutlook(g, h, k, filter, start, goal, maxUserHops, caps, d);
    if Affords(caps.maxExpansions, GuideCost(g, q, goal, maxUserHops + ALBUM_ANCHOR_HOP_BUDGET)) {
      FlagsWhenPaid(g, k, filter, start, goal, maxUserHops, caps, d, a, wa);
      FlagsWhenPaid(h, k, filter, start, goal, maxUserHops, caps, d, b, wb);
      FlagsOfBoth(OutlookAt(g, k, filter, start, goal, maxUserHops, caps, d), a, OutlookAt(h, k, filter, start, goal, maxUserHops, caps, d), b);
    } else {
      Unpaid(OutlookAt(g, k, filter, start, goal, maxUserHops, caps, d), OutlookAt(h, k, filter, start, goal, maxUserHops, caps, d));
    }
  }

  /** The guide is paid for, and the engine looks further. */
  ghost predicate LooksPaid(g: Graph, filter: EdgeFilter, goal: nat, maxUserHops: int, caps: Caps, o: Outlook)
    requires RowsInRange(g)
  {
    Affords(caps.maxExpansions, GuideCost(g, AlbumQuery(filter, None), goal, maxUserHops + ALBUM_ANCHOR_HOP_BUDGET)) && Looks(o)
  }

  lemma Unpaid(o: Outlook, p: Outlook)
    requires Alike(o, p)
    ensures Looks(o) && o.nextFits ==> (HasBetter(o.next) <==> HasBetter(p.next))
  {
  }

  lemma FlagsWhenPaid(g: Graph, k: Ranker, filter: EdgeFilter, start: nat, goal: nat, maxUserHops: int, caps: Caps, d: nat,
                      rec: Recommendation, w: Walk)
    requires RowsInRange(g) && IsArtistIndex(g, k.artistIndex) && start < |g.nodeIds|
    requires EngineAnswer(g, k, filter, start, goal, maxUserHops, caps, Ok(rec), w)
    requires Affords(caps.maxExpansions, GuideCost(g, AlbumQuery(filter, None), goal, maxUserHops + ALBUM_ANCHOR_HOP_BUDGET))
    requires d <= maxUserHops + ALBUM_ANCHOR_HOP_BUDGET && Met(g, AlbumQuery(filter, None), goal, start, d)
    ensures FlagsFrom(OutlookAt(g, k, filter, start, goal, maxUserHops, caps, d), rec)
  {
    AnswerDepth(g, k, filter, start, goal, maxUserHops, caps, d, Ok(rec), w);
    AnswerFlags(g, k, filter, start, goal, maxUserHops, caps, d, rec, w);
  }

  /** An undegraded answer is a ranked one. */
  lemma Undegraded(g: Graph, k: Ranker, filter: EdgeFilter, start: nat, goal: nat, maxUserHops: int, caps: Caps,
                   rec: Recommendation, w: Walk) returns (d: nat)
    requires RowsInRange(g) && IsArtistIndex(g, k.artistIndex) && start < |g.nodeIds|
    requires EngineAnswer(g, k, filter, start, goal, maxUserHops, caps, Ok(rec), w) && !rec.rankingDegraded
    ensures Met(g, AlbumQuery(filter, None), goal, start, d)
    ensures Recommends(OutlookAt(g, k, filter, start, goal, maxUserHops, caps, d), rec)
    ensures RanksWalk(g, k, AlbumQuery(filter, None), start, goal, DepthOf(rec, d), rec.recommended, w)
  {
    var q := AlbumQuery(filter, None);
    d :| d <= maxUserHops + ALBUM_ANCHOR_HOP_BUDGET && Met(g, q, goal, start, d)
         && AnswerAt(g, k, filter, start, goal, maxUserHops, caps, d, Ok(rec), w);
  }

  /** Two undegraded answers from alike outlooks choose the same layer, and tie in it. */
  lemma SameChoice(o: Outlook, a: Recommendation, p: Outlook, b: Recommendation)
    requires Alike(o, p) && Recommends(o, a) && Recommends(p, b) && !a.rankingDegraded && !b.rankingDegraded
    ensures a.usedPlusOneHop == b.usedPlusOneHop && a.shortestLayerComplete && b.shortestLayerComplete
    ensures CompareRanked(a.recommended, b.recommended) == 0
    ensures a.recommended in (if a.usedPlusOneHop then o.next else o.shortest)
    ensures b.recommended in (if a.usedPlusOneHop then o.next else o.shortest)
  {
    var layer := if a.usedPlusOneHop then o.next else o.shortest;
    BestCompares(layer, a.recommended);
    BestCompares(layer, b.recommended);
    CompareRankedIsTotal();
  }

  lemma SeenInLayer(g: Graph, k: Ranker, q: Query, start: nat, goal: nat, depth: nat, left: int, maxRoutes: int, r: RankedRoute)
    requires RowsInRange(g) && IsArtistIndex(g, k.artistIndex) && r in Seen(g, k, q, start, goal, depth, left, maxRoutes)
    ensures r in Layer(g, k, q, start, goal, depth)
  {
    assert RankedBy(g, k, q, start, goal, depth, InReach(g, q, start, goal, depth, left, maxRoutes), r);
  }

  lemma ChoiceInLayer(g: Graph, k: Ranker, filter: EdgeFilter, start: nat, goal: nat, maxUserHops: int, caps: Caps, d: nat,
                      o: Outlook, further: bool, r: RankedRoute)
    requires RowsInRange(g) && IsArtistIndex(g, k.artistIndex)
    requires o == OutlookAt(g, k, filter, start, goal, maxUserHops, caps, d) && r in (if further then o.next else o.shortest)
    ensures r in Layer(g, k, AlbumQuery(filter, None), start, goal, if further then d + 1 else d)
  {
    var q := AlbumQuery(filter, None);
    if further {
      SeenInLayer(g, k, q, start, goal, d + 1, LeftThen(g, q, start, goal, maxUserHops, caps, d), caps.maxRoutes, r);
    } else {
      SeenInLayer(g, k, q, start, goal, d, LeftOver(g, q, goal, maxUserHops, caps), caps.maxRoutes, r);
    }
  }

  /** Two graphs with the same edges in permuted rows, searched under the same caps: if neither answer is
      degraded, both are the very same recommendation. */
  lemma RecommendationIgnoresSlotOrder(
      g: Graph, h: Graph, k: Ranker, filter: EdgeFilter, start: nat, goal: nat, maxUserHops: int, caps: Caps,
      a: Recommendation, wa: Walk, b: Recommendation, wb: Walk)
    requires WellFormed(g) && PermutedRows(g, h) && NoTwinSlots(g) && start < |g.nodeIds|
    requires IsArtistIndex(g, k.artistIndex) && IsArtistIndex(h, k.artistIndex)
    requires EngineAnswer(g, k, filter, start, goal, maxUserHops, caps, Ok(a), wa)
    requires EngineAnswer(h, k, filter, start, goal, maxUserHops, caps, Ok(b), wb)
    requires !a.rankingDegraded && !b.rankingDegraded
    ensures a == b
  {
    var q := AlbumQuery(filter, None);
    var d := Undegraded(g, k, filter, start, goal, maxUserHops, caps, a, wa);
    var e := Undegraded(h, k, filter, start, goal, maxUserHops, caps, b, wb);
    SameMet(g, h, q, goal, start, e);
    MetOnce(g, q, goal, start, d, e);
    SameOutlook(g, h, k, filter, start, goal, maxUserHops, caps, d);
    var o := OutlookAt(g, k, filter, start, goal, maxUserHops, caps, d);
    SameChoice(o, a, OutlookAt(h, k, filter, start, goal, maxUserHops, caps, d), b);
    ChoiceInLayer(g, k, filter, start, goal, maxUserHops, caps, d, o, a.usedPlusOneHop, a.recommended);
    ChoiceInLayer(g, k, filter, start, goal, maxUserHops, caps, d, o, a.usedPlusOneHop, b.recommended);
    NoTiesInLayer(g, k, q, start, goal, DepthOf(a, d), a.recommended, b.recommended);
  }

  /** Where edges and filters have no direction, whether there is an answer at all never depends on slot
      order, whatever the caps. */
  lemma SuccessIgnoresSlotOrder(
      g: Graph, h: Graph, k: Ranker, filter: EdgeFilter, start: nat, goal: nat, maxUserHops: int,
      caps: Caps, a: Result<Recommendation>, wa: Walk, caps': Caps, b: Result<Recommendation>, wb: Walk)
    requires PermutedRows(g, h) && TwoWay(g, filter, start, goal) && TwoWay(h, filter, start, goal)
    requires IsArtistIndex(g, k.artistIndex) && IsArtistIndex(h, k.artistIndex)
    requires EngineAnswer(g, k, filter, start, goal, maxUserHops, caps, a, wa)
    requires EngineAnswer(h, k, filter, start, goal, maxUserHops, caps', b, wb)
    ensures a.Ok? <==> b.Ok?
  {
    var q := AlbumQuery(filter, None);
    EngineIsRight(g, k, filter, start, goal, maxUserHops, caps, a, wa);
    EngineIsRight(h, k, filter, start, goal, maxUserHops, caps', b, wb);
    forall d: nat ensures Distance(g, q, goal, start, d) <==> Distance(h, q, goal, start, d) {
      SameDistance(g, h, q, goal, start, d);
    }
    if a.Ok? { assert Distance(g, q, goal, start, ShortestOf(a.value, wa)); }
    if b.Ok? { assert Distance(h, q, goal, start, ShortestOf(b.value, wb)); }
  }
}
