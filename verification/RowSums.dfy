/** Sums over the rows of a graph, and why the order inside a row does not change them. */
module RowSums {
  import opened PathfindingGraph
  import opened Text

  // ---------- Slots by content ----------

  /** What a slot holds, wherever in its row it stands. */
  datatype Content = Content(neighbor: nat, releaseId: int, roleA: string, roleB: string)

  function ContentAt(g: Graph, s: nat): Content
    requires RowsInRange(g) && s < |g.neighbors|
  {
    Content(g.neighbors[s], g.evidenceReleaseIds[s], g.edgeRoleA[s], g.edgeRoleB[s])
  }

  function RowLength(g: Graph, n: nat): nat
    requires RowsInRange(g) && n < |g.nodeIds|
  {
    assert GoodRow(g, n);
    g.offsets[n + 1] - g.offsets[n]
  }

  function Interval(lo: nat, hi: nat): (r: set<nat>)
    requires lo <= hi
    ensures |r| == hi - lo && forall i :: i in r <==> lo <= i < hi
    decreases hi
  {
    if lo == hi then {} else Interval(lo, hi - 1) + {hi - 1}
  }

  /** The slots of a node. */
  function Slots(g: Graph, n: nat): set<nat>
    requires RowsInRange(g)
  {
    set s: nat | s < |g.neighbors| && InRow(g, n, s)
  }

  /** A row's length is the number of its slots. */
  lemma RowLengthCounts(g: Graph, n: nat)
    requires RowsInRange(g) && n < |g.nodeIds|
    ensures RowLength(g, n) == |Slots(g, n)|
  {
    assert GoodRow(g, n);
    assert Slots(g, n) == Interval(g.offsets[n], g.offsets[n + 1]);
  }

  /** The contents of a row from one slot on. */
  function RowFrom(g: Graph, n: nat, slot: nat): (r: seq<Content>)
    requires RowsInRange(g) && n < |g.nodeIds| && slot <= g.offsets[n + 1]
    ensures |r| == g.offsets[n + 1] - slot
    ensures forall i :: 0 <= i < |r| ==> slot + i < |g.neighbors| && r[i] == ContentAt(g, slot + i)
  {
    assert GoodRow(g, n);
    seq(g.offsets[n + 1] - slot, i requires 0 <= i < g.offsets[n + 1] - slot => ContentAt(g, slot + i))
  }

  function Row(g: Graph, n: nat): seq<Content>
    requires RowsInRange(g) && n < |g.nodeIds|
  {
    assert GoodRow(g, n);
    RowFrom(g, n, g.offsets[n])
  }

  // ---------- Sums ----------

  function SumOf<T>(xs: seq<T>, f: T -> nat): nat {
    if xs == [] then 0 else f(xs[0]) + SumOf(xs[1..], f)
  }

  lemma {:induction false} SumConcat<T>(xs: seq<T>, ys: seq<T>, f: T -> nat)
    ensures SumOf(xs + ys, f) == SumOf(xs, f) + SumOf(ys, f)
  {
    if xs == [] {
      assert xs + ys == ys;
    } else {
      SumConcat(xs[1..], ys, f);
      assert (xs + ys)[1..] == xs[1..] + ys;
    }
  }

  function Removed<T>(xs: seq<T>, j: nat): (r: seq<T>)
    requires j < |xs|
    ensures |r| == |xs| - 1
  {
    xs[..j] + xs[j + 1..]
  }

  lemma RemovedSum<T>(xs: seq<T>, j: nat, f: T -> nat)
    requires j < |xs|
    ensures SumOf(xs, f) == f(xs[j]) + SumOf(Removed(xs, j), f)
    ensures multiset(xs) == multiset{xs[j]} + multiset(Removed(xs, j))
  {
    SumConcat(xs[..j], xs[j..], f);
    SumConcat(xs[..j], xs[j + 1..], f);
    assert xs == xs[..j] + xs[j..];
    assert xs[j..] == [xs[j]] + xs[j + 1..];
  }

  /** A permutation has the same sum. */
  lemma {:induction false} SumPermutes<T>(xs: seq<T>, ys: seq<T>, f: T -> nat)
    requires multiset(xs) == multiset(ys)
    ensures SumOf(xs, f) == SumOf(ys, f)
    decreases |xs|
  {
    if xs == [] {
      assert |multiset(ys)| == 0;
    } else {
      assert xs[0] in multiset(ys);
      var j :| 0 <= j < |ys| && ys[j] == xs[0];
      RemovedSum(ys, j, f);
      assert xs == [xs[0]] + xs[1..];
      assert multiset(xs[1..]) == multiset(xs) - multiset{xs[0]};
      assert multiset(Removed(ys, j)) == multiset(ys) - multiset{ys[j]};
      SumPermutes(xs[1..], Removed(ys, j), f);
    }
  }

  lemma {:induction false} SumAgrees<T>(xs: seq<T>, f: T -> nat, h: T -> nat)
    requires forall x :: x in xs ==> f(x) == h(x)
    ensures SumOf(xs, f) == SumOf(xs, h)
  {
    if xs != [] { SumAgrees(xs[1..], f, h); }
  }

  /** Distinct elements that all occur in a list of the same length are a permutation of it. */
  lemma {:induction false} DistinctFill<T>(xs: seq<T>, ys: seq<T>)
    requires |xs| == |ys| && Distinct(xs) && forall x :: x in xs ==> x in ys
    ensures multiset(xs) == multiset(ys)
    decreases |xs|
  {
    if xs != [] {
      var x := xs[0];
      assert x in ys;
      var j :| 0 <= j < |ys| && ys[j] == x;
      var rest := Removed(ys, j);
      forall z | z in xs[1..] ensures z in rest {
        var i :| 0 <= i < |xs[1..]| && xs[1..][i] == z;
        assert xs[i + 1] == z && z != x;
        assert z in ys;
        var k :| 0 <= k < |ys| && ys[k] == z;
        if k < j { assert rest[k] == z; } else { assert rest[k - 1] == z; }
      }
      DistinctFill(xs[1..], rest);
      assert xs == [x] + xs[1..];
      RemovedSum(ys, j, (t: T) => 0);
    }
  }

  // ---------- Sums over sets of rows ----------

  /** The slots of all rows of `nodes` among the first `n`. */
  ghost function RowsSize(g: Graph, nodes: set<nat>, n: nat): nat
    requires RowsInRange(g) && n <= |g.nodeIds|
  {
    if n == 0 then 0 else RowsSize(g, nodes, n - 1) + if n - 1 in nodes then RowLength(g, n - 1) else 0
  }

  lemma {:induction false} NoRows(g: Graph, n: nat)
    requires RowsInRange(g) && n <= |g.nodeIds|
    ensures RowsSize(g, {}, n) == 0
  {
    if n > 0 { NoRows(g, n - 1); }
  }

  lemma {:induction false} OneMoreRow(g: Graph, nodes: set<nat>, v: nat, n: nat)
    requires RowsInRange(g) && n <= |g.nodeIds| && v !in nodes && v < |g.nodeIds|
    ensures RowsSize(g, nodes + {v}, n) == RowsSize(g, nodes, n) + if v < n then RowLength(g, v) else 0
  {
    if n > 0 { OneMoreRow(g, nodes, v, n - 1); }
  }

  lemma {:induction false} MoreRows(g: Graph, a: set<nat>, b: set<nat>, n: nat)
    requires RowsInRange(g) && n <= |g.nodeIds| && a <= b
    ensures RowsSize(g, a, n) <= RowsSize(g, b, n)
  {
    if n > 0 { MoreRows(g, a, b, n - 1); }
  }

  lemma {:induction false} RowsAtMost(g: Graph, nodes: set<nat>, n: nat)
    requires RowsInRange(g) && n <= |g.nodeIds|
    ensures RowsSize(g, nodes, n) <= g.offsets[n]
  {
    if n > 0 {
      assert GoodRow(g, n - 1);
      RowsAtMost(g, nodes, n - 1);
    }
  }

  lemma {:induction false} SameRows(g: Graph, h: Graph, nodes: set<nat>, n: nat)
    requires RowsInRange(g) && RowsInRange(h) && g.nodeIds == h.nodeIds && g.offsets == h.offsets && n <= |g.nodeIds|
    ensures RowsSize(g, nodes, n) == RowsSize(h, nodes, n)
  {
    if n > 0 { SameRows(g, h, nodes, n - 1); }
  }
}
