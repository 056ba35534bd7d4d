/** What a search is asked for: permitted steps, the routes made of them, and reachability without any search. */
module Routes {
  import opened Text
  import opened PathfindingGraph

  /** A sequence read back to front. */
  function Reversed<T>(s: seq<T>): (r: seq<T>)
    ensures |r| == |s| && forall i {:trigger r[i]} :: 0 <= i < |s| ==> r[i] == s[|s| - 1 - i]
  {
    seq(|s|, i requires 0 <= i < |s| => s[|s| - 1 - i])
  }

  type EdgeFilter = (string, string) -> bool

  /** The caller's role filter is never applied to an anchor edge. */
  function AnchorAware(filter: EdgeFilter): EdgeFilter {
    (roleA, roleB) =>
      if roleA == ALBUM_ANCHOR_SENTINEL || roleB == ALBUM_ANCHOR_SENTINEL then true else filter(roleA, roleB)
  }

  ghost predicate Symmetric(filter: EdgeFilter) {
    forall a, b :: filter(a, b) == filter(b, a)
  }

  /** The caller's filter does not care which way an edge between people is read. */
  ghost predicate RoleSymmetric(filter: EdgeFilter) {
    forall a, b :: a != ALBUM_ANCHOR_SENTINEL && b != ALBUM_ANCHOR_SENTINEL ==> filter(a, b) == filter(b, a)
  }

  lemma AnchorAwareSymmetric(filter: EdgeFilter)
    ensures Symmetric(AnchorAware(filter)) <==> RoleSymmetric(filter)
  {
    var aware := AnchorAware(filter);
    if RoleSymmetric(filter) {
      forall a, b ensures aware(a, b) == aware(b, a) { }
    }
    if Symmetric(aware) {
      forall a, b | a != ALBUM_ANCHOR_SENTINEL && b != ALBUM_ANCHOR_SENTINEL ensures filter(a, b) == filter(b, a) {
        assert aware(a, b) == aware(b, a);
      }
    }
  }

  /** The edges a search must never walk, by their keys, if any are named. */
  function Excluding(keys: Option<set<string>>): (int, int, int) -> bool {
    match keys
    case None => (a, b, releaseId) => false
    case Some(named) => (a, b, releaseId) => EdgeKey(a, b, releaseId) in named
  }

  /** A search's constraints. An absent filter is the one that accepts everything. */
  datatype Query = Query(filter: EdgeFilter, excludes: (int, int, int) -> bool)

  predicate Permits(g: Graph, q: Query, n: nat, s: nat)
    requires RowsInRange(g) && InRow(g, n, s)
  {
    && q.filter(g.edgeRoleA[s], g.edgeRoleB[s])
    && !q.excludes(g.nodeIds[n], g.nodeIds[g.neighbors[s]], g.evidenceReleaseIds[s])
  }

  /** Slot `s` may be walked out of `n`: a virtual node is an endpoint, never a through-route. */
  predicate Step(g: Graph, q: Query, goal: nat, n: nat, s: nat)
    requires RowsInRange(g)
  {
    && InRow(g, n, s)
    && Permits(g, q, n, s)
    && (Virtual(g, g.neighbors[s]) ==> g.neighbors[s] == goal)
  }

  /** A walk through node indices, with the slot taken out of each. */
  datatype Walk = Walk(nodes: seq<nat>, slots: seq<nat>)

  ghost predicate IsWalk(g: Graph, q: Query, start: nat, goal: nat, w: Walk)
    requires RowsInRange(g)
  {
    && |w.nodes| == |w.slots| + 1
    && w.nodes[0] == start
    && w.nodes[|w.slots|] == goal
    && (forall i {:trigger w.slots[i]} :: 0 <= i < |w.slots| ==>
          Step(g, q, goal, w.nodes[i], w.slots[i]) && g.neighbors[w.slots[i]] == w.nodes[i + 1])
  }

  /** A simple admissible route. */
  ghost predicate IsRoute(g: Graph, q: Query, start: nat, goal: nat, w: Walk)
    requires RowsInRange(g)
  {
    IsWalk(g, q, start, goal, w) && Distinct(w.nodes)
  }

  function HopAt(g: Graph, n: nat, s: nat, m: nat): PathHop
    requires RowsInRange(g) && n < |g.nodeIds| && m < |g.nodeIds| && s < |g.neighbors|
  {
    PathHop(g.evidenceReleaseIds[s], g.nodeIds[n], g.nodeIds[m], g.edgeRoleA[s], g.edgeRoleB[s])
  }

  predicate InBounds(g: Graph, w: Walk) {
    && |w.nodes| == |w.slots| + 1
    && (forall i :: 0 <= i < |w.nodes| ==> w.nodes[i] < |g.nodeIds|)
    && (forall i :: 0 <= i < |w.slots| ==> w.slots[i] < |g.neighbors|)
  }

  /** The hops a walk shows. */
  function HopsOf(g: Graph, w: Walk): (hops: seq<PathHop>)
    requires RowsInRange(g) && InBounds(g, w)
    ensures |hops| == |w.slots|
  {
    seq(|w.slots|, i requires 0 <= i < |w.slots| => HopAt(g, w.nodes[i], w.slots[i], w.nodes[i + 1]))
  }

  lemma WalkInBounds(g: Graph, q: Query, start: nat, goal: nat, w: Walk)
    requires RowsInRange(g) && start < |g.nodeIds| && IsWalk(g, q, start, goal, w)
    ensures InBounds(g, w)
  {
    forall i | 0 <= i < |w.nodes| ensures w.nodes[i] < |g.nodeIds| {
      if i > 0 { assert Step(g, q, goal, w.nodes[i - 1], w.slots[i - 1]); }
    }
    forall i | 0 <= i < |w.slots| ensures w.slots[i] < |g.neighbors| {
      assert Step(g, q, goal, w.nodes[i], w.slots[i]);
    }
  }

  // ---------- Bounded reachability ----------

  /** Some admissible walk of at most `k` hops leads from `v` to `goal`. */
  ghost predicate Reaches(g: Graph, q: Query, goal: nat, v: nat, k: nat)
    requires RowsInRange(g)
    decreases k
  {
    v == goal || (k > 0 && exists s: nat :: Step(g, q, goal, v, s) && Reaches(g, q, goal, g.neighbors[s], k - 1))
  }

  lemma {:induction false} ReachesMore(g: Graph, q: Query, goal: nat, v: nat, k: nat, m: nat)
    requires RowsInRange(g) && Reaches(g, q, goal, v, k) && k <= m
    ensures Reaches(g, q, goal, v, m)
    decreases k
  {
    if v != goal {
      var s: nat :| Step(g, q, goal, v, s) && Reaches(g, q, goal, g.neighbors[s], k - 1);
      ReachesMore(g, q, goal, g.neighbors[s], k - 1, m - 1);
    }
  }

  /** Every walk is bounded reachability seen from its start. */
  lemma {:induction false} WalkReaches(g: Graph, q: Query, start: nat, goal: nat, w: Walk)
    requires RowsInRange(g) && IsWalk(g, q, start, goal, w)
    ensures Reaches(g, q, goal, start, |w.slots|)
    decreases |w.slots|
  {
    if start != goal {
      var rest := Walk(w.nodes[1..], w.slots[1..]);
      assert Step(g, q, goal, w.nodes[0], w.slots[0]) && g.neighbors[w.slots[0]] == w.nodes[1];
      forall i | 0 <= i < |rest.slots|
        ensures Step(g, q, goal, rest.nodes[i], rest.slots[i]) && g.neighbors[rest.slots[i]] == rest.nodes[i + 1]
      {
        assert Step(g, q, goal, w.nodes[i + 1], w.slots[i + 1]) && g.neighbors[w.slots[i + 1]] == w.nodes[i + 2];
      }
      WalkReaches(g, q, w.nodes[1], goal, rest);
    }
  }

  /** `v` is exactly `k` hops from the goal, and no fewer. */
  ghost predicate Distance(g: Graph, q: Query, goal: nat, v: nat, k: nat)
    requires RowsInRange(g)
  {
    Reaches(g, q, goal, v, k) && (k > 0 ==> !Reaches(g, q, goal, v, k - 1))
  }

  lemma DistanceUnique(g: Graph, q: Query, goal: nat, v: nat, k: nat, m: nat)
    requires RowsInRange(g) && Distance(g, q, goal, v, k) && Distance(g, q, goal, v, m)
    ensures k == m
  {
    if k < m { ReachesMore(g, q, goal, v, k, m - 1); }
    if m < k { ReachesMore(g, q, goal, v, m, k - 1); }
  }

  lemma {:induction false} ReachesDistance(g: Graph, q: Query, goal: nat, v: nat, k: nat) returns (d: nat)
    requires RowsInRange(g) && Reaches(g, q, goal, v, k)
    ensures d <= k && Distance(g, q, goal, v, d)
    decreases k
  {
    if k > 0 && Reaches(g, q, goal, v, k - 1) {
      d := ReachesDistance(g, q, goal, v, k - 1);
    } else {
      d := k;
    }
  }

  /** A node at distance `d` has a walk of `d` hops on which the distance falls by one at each. */
  lemma {:induction false} ShortestRoute(g: Graph, q: Query, goal: nat, v: nat, d: nat) returns (w: Walk)
    requires RowsInRange(g) && Distance(g, q, goal, v, d)
    ensures IsWalk(g, q, v, goal, w) && |w.slots| == d && Descends(g, q, goal, w)
    decreases d
  {
    if d == 0 {
      w := Walk([v], []);
    } else {
      assert !Reaches(g, q, goal, v, d - 1);
      var s: nat :| Step(g, q, goal, v, s) && Reaches(g, q, goal, g.neighbors[s], d - 1);
      assert Distance(g, q, goal, g.neighbors[s], d - 1);
      var rest := ShortestRoute(g, q, goal, g.neighbors[s], d - 1);
      w := Prepended(v, s, rest);
      PrependWalk(g, q, goal, v, s, rest);
      PrependDescends(g, q, goal, v, s, rest);
    }
  }

  /** Every node of the walk is as many hops from the goal as the walk has left. */
  ghost predicate Descends(g: Graph, q: Query, goal: nat, w: Walk)
    requires RowsInRange(g)
  {
    && |w.nodes| == |w.slots| + 1
    && forall i :: 0 <= i <= |w.slots| ==> Distance(g, q, goal, w.nodes[i], |w.slots| - i)
  }

  function Prepended(v: nat, s: nat, rest: Walk): Walk {
    Walk([v] + rest.nodes, [s] + rest.slots)
  }

  lemma PrependWalk(g: Graph, q: Query, goal: nat, v: nat, s: nat, rest: Walk)
    requires RowsInRange(g) && Step(g, q, goal, v, s)
    requires IsWalk(g, q, g.neighbors[s], goal, rest)
    ensures IsWalk(g, q, v, goal, Prepended(v, s, rest))
  {
    var w := Prepended(v, s, rest);
    forall i | 0 <= i < |w.slots|
      ensures Step(g, q, goal, w.nodes[i], w.slots[i]) && g.neighbors[w.slots[i]] == w.nodes[i + 1]
    {
      if i > 0 {
        assert Step(g, q, goal, rest.nodes[i - 1], rest.slots[i - 1]);
      }
    }
  }

  lemma PrependDescends(g: Graph, q: Query, goal: nat, v: nat, s: nat, rest: Walk)
    requires RowsInRange(g) && Descends(g, q, goal, rest)
    requires Distance(g, q, goal, v, |rest.slots| + 1)
    ensures Descends(g, q, goal, Prepended(v, s, rest))
  {
    var w := Prepended(v, s, rest);
    forall i | 0 <= i <= |w.slots| ensures Distance(g, q, goal, w.nodes[i], |w.slots| - i) {
      if i > 0 { assert w.nodes[i] == rest.nodes[i - 1]; }
    }
  }

  lemma DescendingIsSimple(g: Graph, q: Query, goal: nat, w: Walk)
    requires RowsInRange(g) && Descends(g, q, goal, w)
    ensures Distinct(w.nodes)
  {
    forall i, j | 0 <= i < j < |w.nodes| ensures w.nodes[i] != w.nodes[j] {
      if w.nodes[i] == w.nodes[j] {
        DistanceUnique(g, q, goal, w.nodes[i], |w.slots| - i, |w.slots| - j);
      }
    }
  }
}
