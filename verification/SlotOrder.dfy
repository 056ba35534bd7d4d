/** Walks compared slot by slot, and the first of the walks that lead somewhere in so many hops. */
module SlotOrder {
  import opened PathfindingGraph
  import opened Routes

  // ---------- The order ----------

  /** At the first hop where the two part, the first takes the slot that comes sooner. */
  ghost predicate Sooner(a: seq<nat>, b: seq<nat>) {
    exists i :: PartAt(a, b, i) && a[i] < b[i]
  }

  predicate PartAt(a: seq<nat>, b: seq<nat>, i: int) {
    0 <= i < |a| && i < |b| && a[..i] == b[..i] && a[i] != b[i]
  }

  lemma LongerSooner(p: seq<nat>, s: nat, q: seq<nat>, t: nat)
    requires |p| == |q|
    ensures Sooner(p + [s], q + [t]) <==> Sooner(p, q) || (p == q && s < t)
  {
    var a, b := p + [s], q + [t];
    if Sooner(p, q) {
      var i :| PartAt(p, q, i) && p[i] < q[i];
      assert a[..i] == p[..i] && b[..i] == q[..i];
      assert PartAt(a, b, i);
    }
    if p == q && s < t {
      assert a[..|p|] == p && b[..|p|] == q;
      assert PartAt(a, b, |p|);
    }
    if Sooner(a, b) {
      var i :| PartAt(a, b, i) && a[i] < b[i];
      if i < |p| {
        assert a[..i] == p[..i] && b[..i] == q[..i];
        assert PartAt(p, q, i);
      } else {
        assert a[..i] == p && b[..i] == q;
      }
    }
  }

  lemma SoonerStill(a: seq<nat>, b: seq<nat>, c: seq<nat>)
    requires |a| == |b| == |c| && Sooner(a, b) && Sooner(b, c)
    ensures Sooner(a, c)
  {
    var i :| PartAt(a, b, i) && a[i] < b[i];
    var j :| PartAt(b, c, j) && b[j] < c[j];
    var k := if i < j then i else j;
    assert a[..k] == b[..k] by { assert a[..i][..k] == a[..k] && b[..i][..k] == b[..k]; }
    assert b[..k] == c[..k] by { assert b[..j][..k] == b[..k] && c[..j][..k] == c[..k]; }
    assert a[k] < c[k] by {
      if i < j { assert b[..j][i] == c[..j][i]; }
      if j < i { assert a[..i][j] == b[..i][j]; }
    }
    assert PartAt(a, c, k);
  }

  lemma NeverSooner(a: seq<nat>)
    ensures !Sooner(a, a)
  {
  }

  lemma SlotSooner(a: seq<nat>, p: seq<nat>, slot: nat, later: nat)
    requires Sooner(a, p + [slot]) && slot < later
    ensures Sooner(a, p + [later])
  {
    var b, c := p + [slot], p + [later];
    var i :| PartAt(a, b, i) && a[i] < b[i];
    assert b[..i] == c[..i];
    assert PartAt(a, c, i);
  }

  /** No walk that leads from `start` to `v` in as many hops comes sooner. */
  ghost predicate NoneSooner(g: Graph, q: Query, start: nat, goal: nat, v: nat, path: seq<nat>)
    requires RowsInRange(g)
  {
    forall w: Walk :: Trail(g, q, start, goal, v, w) && |w.slots| == |path| ==> w.slots == path || Sooner(path, w.slots)
  }

  /** A walk from `start` to `v`, admissible on the way to `goal`. */
  ghost predicate Trail(g: Graph, q: Query, start: nat, goal: nat, v: nat, w: Walk)
    requires RowsInRange(g)
  {
    && |w.nodes| == |w.slots| + 1 && w.nodes[0] == start && w.nodes[|w.slots|] == v
    && (forall i {:trigger w.slots[i]} :: 0 <= i < |w.slots| ==>
          Step(g, q, goal, w.nodes[i], w.slots[i]) && g.neighbors[w.slots[i]] == w.nodes[i + 1])
  }

  /** The walk takes the sooner slot, where they part, of every other walk to the goal in as many hops. */
  ghost predicate IsFirst(g: Graph, q: Query, start: nat, goal: nat, w: Walk)
    requires RowsInRange(g)
  {
    forall v: Walk :: IsWalk(g, q, start, goal, v) && |v.slots| == |w.slots| ==> v.slots == w.slots || Sooner(w.slots, v.slots)
  }

  lemma NoneSoonerIsFirst(g: Graph, q: Query, start: nat, goal: nat, w: Walk)
    requires RowsInRange(g) && NoneSooner(g, q, start, goal, goal, w.slots)
    ensures IsFirst(g, q, start, goal, w)
  {
    forall v: Walk | IsWalk(g, q, start, goal, v) && |v.slots| == |w.slots|
      ensures v.slots == w.slots || Sooner(w.slots, v.slots)
    {
      assert Trail(g, q, start, goal, goal, v);
    }
  }

  /** There is one first walk, so the first is determined. */
  lemma FirstIsOne(g: Graph, q: Query, start: nat, goal: nat, v: Walk, w: Walk)
    requires RowsInRange(g) && IsWalk(g, q, start, goal, v) && IsWalk(g, q, start, goal, w) && |v.slots| == |w.slots|
    requires IsFirst(g, q, start, goal, v) && IsFirst(g, q, start, goal, w)
    ensures v == w
  {
    NeverSooner(v.slots);
    if v.slots != w.slots { SoonerStill(v.slots, w.slots, v.slots); }
    SameNodes(g, q, start, goal, v, w, |v.slots|);
    assert v.nodes == v.nodes[..|v.slots| + 1] == w.nodes[..|w.slots| + 1] == w.nodes;
  }

  lemma {:induction false} SameNodes(g: Graph, q: Query, start: nat, goal: nat, v: Walk, w: Walk, n: nat)
    requires RowsInRange(g) && IsWalk(g, q, start, goal, v) && IsWalk(g, q, start, goal, w)
    requires v.slots == w.slots && n <= |v.slots|
    ensures v.nodes[..n + 1] == w.nodes[..n + 1]
  {
    if n > 0 {
      SameNodes(g, q, start, goal, v, w, n - 1);
      assert g.neighbors[v.slots[n - 1]] == v.nodes[n] && g.neighbors[w.slots[n - 1]] == w.nodes[n];
      assert v.nodes[..n + 1] == v.nodes[..n] + [v.nodes[n]] && w.nodes[..n + 1] == w.nodes[..n] + [w.nodes[n]];
    }
  }
}
