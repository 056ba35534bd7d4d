/** Swapping the two records: a shortest route read back to front is a shortest route the other way. */
module SwapRoute {
  import opened Text
  import opened PathfindingGraph
  import opened Routes
  import opened FindAlbumRoute

  /** The constraints do not care which way an edge is walked. */
  ghost predicate Directionless(q: Query) {
    && Symmetric(q.filter)
    && forall a: int, b: int, r: int :: q.excludes(a, b, r) == q.excludes(b, a, r)
  }

  lemma AlbumQueryDirectionless(filter: EdgeFilter, keys: Option<set<string>>)
    requires RoleSymmetric(filter)
    ensures Directionless(AlbumQuery(filter, keys))
  {
    AnchorAwareSymmetric(filter);
    forall a: int, b: int, r: int ensures Excluding(keys)(a, b, r) == Excluding(keys)(b, a, r) {
      EdgeKeyInjective(a, b, r, b, a, r);
    }
  }

  /** A step of a route, stored from the other end. */
  lemma MirrorStep(g: Graph, q: Query, goal: nat, back: nat, n: nat, s: nat) returns (t: nat)
    requires RowsInRange(g) && Undirected(g) && Directionless(q) && Step(g, q, goal, n, s)
    requires !Virtual(g, n) || n == back
    ensures Step(g, q, back, g.neighbors[s], t) && Mirrors(g, n, s, t)
  {
    assert HasMirror(g, n, s);
    t :| Mirrors(g, n, s, t);
    var a, b, r := g.nodeIds[n], g.nodeIds[g.neighbors[s]], g.evidenceReleaseIds[s];
    assert q.excludes(a, b, r) == q.excludes(b, a, r);
  }

  /** The mirrors of the last `count` slots of a route, last first. */
  lemma {:induction false} MirrorSlots(g: Graph, q: Query, start: nat, goal: nat, w: Walk, count: nat) returns (slots: seq<nat>)
    requires RowsInRange(g) && Undirected(g) && Directionless(q)
    requires InBounds(g, w) && IsRoute(g, q, start, goal, w) && count <= |w.slots|
    ensures |slots| == count
    ensures forall i {:trigger slots[i]} :: 0 <= i < count ==>
      && Step(g, q, start, w.nodes[|w.slots| - i], slots[i])
      && slots[i] < |g.neighbors|
      && Mirrored(g, w.slots[|w.slots| - 1 - i], slots[i], w.nodes[|w.slots| - 1 - i])
    decreases count
  {
    if count == 0 {
      slots := [];
    } else {
      slots := MirrorSlots(g, q, start, goal, w, count - 1);
      var k := |w.slots| - count;
      if k > 0 { InteriorIsReal(g, q, start, goal, w, k); }
      assert Step(g, q, goal, w.nodes[k], w.slots[k]) && g.neighbors[w.slots[k]] == w.nodes[k + 1];
      var t := MirrorStep(g, q, goal, start, w.nodes[k], w.slots[k]);
      slots := slots + [t];
    }
  }

  /** Slot `t` shows slot `s` from the other end, and leads back to `n`. */
  predicate Mirrored(g: Graph, s: nat, t: nat, n: nat) {
    && RowsInRange(g) && s < |g.neighbors| && t < |g.neighbors|
    && g.neighbors[t] == n
    && g.evidenceReleaseIds[t] == g.evidenceReleaseIds[s]
    && g.edgeRoleA[t] == g.edgeRoleB[s]
    && g.edgeRoleB[t] == g.edgeRoleA[s]
  }

  /** `v` walks the edges of `w` back, over mirrored slots. */
  ghost predicate WalksBack(g: Graph, w: Walk, v: Walk) {
    && InBounds(g, w) && |v.slots| == |w.slots| && v.nodes == Reversed(w.nodes)
    && forall i {:trigger v.slots[i]} :: 0 <= i < |w.slots| ==>
         Mirrored(g, w.slots[|w.slots| - 1 - i], v.slots[i], w.nodes[|w.slots| - 1 - i])
  }

  lemma BackShows(g: Graph, w: Walk, v: Walk)
    requires RowsInRange(g) && WalksBack(g, w, v)
    ensures InBounds(g, v) && HopsOf(g, v) == ReverseHops(HopsOf(g, w))
  {
    var n := |w.slots|;
    forall i | 0 <= i < n ensures v.slots[i] < |g.neighbors| {
      assert Mirrored(g, w.slots[n - 1 - i], v.slots[i], w.nodes[n - 1 - i]);
    }
    forall i | 0 <= i < n ensures HopsOf(g, v)[i] == ReverseHops(HopsOf(g, w))[i] {
      assert Mirrored(g, w.slots[n - 1 - i], v.slots[i], w.nodes[n - 1 - i]);
      assert ReverseHops(HopsOf(g, w))[i] == ReverseHop(HopsOf(g, w)[n - 1 - i]);
    }
  }

  lemma SimpleBack(nodes: seq<nat>)
    requires Distinct(nodes)
    ensures Distinct(Reversed(nodes))
  {
  }

  lemma ReversedWalk(g: Graph, q: Query, start: nat, goal: nat, w: Walk) returns (v: Walk)
    requires RowsInRange(g) && Undirected(g) && Directionless(q)
    requires InBounds(g, w) && IsRoute(g, q, start, goal, w)
    ensures IsRoute(g, q, goal, start, v) && InBounds(g, v) && |v.slots| == |w.slots|
    ensures HopsOf(g, v) == ReverseHops(HopsOf(g, w))
  {
    var n := |w.slots|;
    var slots := MirrorSlots(g, q, start, goal, w, n);
    v := Walk(Reversed(w.nodes), slots);
    SimpleBack(w.nodes);
    forall i | 0 <= i < n
      ensures Step(g, q, start, v.nodes[i], v.slots[i]) && g.neighbors[v.slots[i]] == v.nodes[i + 1]
    {
      assert Mirrored(g, w.slots[n - 1 - i], v.slots[i], w.nodes[n - 1 - i]);
    }
    BackShows(g, w, v);
  }

  lemma ReachesBack(g: Graph, q: Query, start: nat, goal: nat, k: nat)
    requires RowsInRange(g) && Undirected(g) && Directionless(q) && start < |g.nodeIds|
    requires Reaches(g, q, goal, start, k)
    ensures Reaches(g, q, start, goal, k)
  {
    var d := ReachesDistance(g, q, goal, start, k);
    var w := ShortestRoute(g, q, goal, start, d);
    DescendingIsSimple(g, q, goal, w);
    WalkInBounds(g, q, start, goal, w);
    var v := ReversedWalk(g, q, start, goal, w);
    WalkReaches(g, q, goal, start, v);
    ReachesMore(g, q, start, goal, d, k);
  }

  lemma DistanceBack(g: Graph, q: Query, start: nat, goal: nat, d: nat)
    requires RowsInRange(g) && Undirected(g) && Directionless(q) && start < |g.nodeIds| && goal < |g.nodeIds|
    requires Distance(g, q, goal, start, d)
    ensures Distance(g, q, start, goal, d)
  {
    ReachesBack(g, q, start, goal, d);
    if d > 0 && Reaches(g, q, start, goal, d - 1) {
      ReachesBack(g, q, goal, start, d - 1);
    }
  }

  /** Reversing a shortest record-to-record route gives a shortest route between the swapped
      records, over the same edges. */
  lemma SwappedRouteIsShortest(g: Graph, filter: EdgeFilter, keys: Option<set<string>>, start: nat, goal: nat, w: Walk, route: AlbumRoute)
    returns (v: Walk)
    requires RowsInRange(g) && Undirected(g) && RoleSymmetric(filter) && start < |g.nodeIds| && goal < |g.nodeIds|
    requires InBounds(g, w) && IsRoute(g, AlbumQuery(filter, keys), start, goal, w)
    requires Distance(g, AlbumQuery(filter, keys), goal, start, |w.slots|)
    requires StripAlbumAnchors(HopsOf(g, w)) == Some(route)
    ensures IsRoute(g, AlbumQuery(filter, keys), goal, start, v) && InBounds(g, v)
    ensures Distance(g, AlbumQuery(filter, keys), start, goal, |v.slots|)
    ensures StripAlbumAnchors(HopsOf(g, v)) == Some(ReverseRoute(route))
    ensures EdgeKeysForHops(HopsOf(g, v)) == EdgeKeysForHops(HopsOf(g, w))
  {
    var q := AlbumQuery(filter, keys);
    AlbumQueryDirectionless(filter, keys);
    v := ReversedWalk(g, q, start, goal, w);
    DistanceBack(g, q, start, goal, |w.slots|);
    ReverseKeepsEdgeKeys(HopsOf(g, w));
    StripReversed(HopsOf(g, w));
  }

  /** Stripping and reversing commute. */
  lemma StripReversed(hops: seq<PathHop>)
    requires StripAlbumAnchors(hops).Some?
    ensures StripAlbumAnchors(ReverseHops(hops)) == Some(ReverseRoute(StripAlbumAnchors(hops).value))
  {
    var back := ReverseHops(hops);
    var n := |hops|;
    var middle := hops[1..n - 1];
    forall i | 0 <= i < n - 2 ensures back[1..n - 1][i] == ReverseHops(middle)[i] {
      assert back[i + 1] == ReverseHop(hops[n - 2 - i]);
      assert middle[n - 3 - i] == hops[n - 2 - i];
    }
    assert back[1..n - 1] == ReverseHops(middle);
  }
}
