/** The bounded neighbourhood of one artist: a bounded heap picks what a full sort would. */
module NetworkExplorer {
  import opened Text
  import opened PathfindingGraph
  import Sorting

  datatype Candidate = Candidate(neighborArtistId: int, releaseId: int, roleCenter: string, roleNeighbor: string)

  type RankOf = int -> int

  /** Descending rank, then ascending id. */
  function CompareCandidates(a: Candidate, b: Candidate, rankOf: RankOf): int {
    var byRank := rankOf(b.neighborArtistId) - rankOf(a.neighborArtistId);
    if byRank != 0 then byRank else a.neighborArtistId - b.neighborArtistId
  }

  function Comparator(rankOf: RankOf): (Candidate, Candidate) -> int {
    (a, b) => CompareCandidates(a, b, rankOf)
  }

  /** What puts one neighbour before another: a higher rank, and between equal ranks the smaller id. */
  predicate Ahead(a: Candidate, b: Candidate, rankOf: RankOf) {
    || rankOf(a.neighborArtistId) > rankOf(b.neighborArtistId)
    || (rankOf(a.neighborArtistId) == rankOf(b.neighborArtistId) && a.neighborArtistId <= b.neighborArtistId)
  }

  lemma ComparatorMeans(a: Candidate, b: Candidate, rankOf: RankOf)
    ensures CompareCandidates(a, b, rankOf) <= 0 <==> Ahead(a, b, rankOf)
  {
  }

  lemma ComparatorIsTotal(rankOf: RankOf)
    ensures Sorting.TotalPreorder(Comparator(rankOf))
  {
  }

  /** Candidates tie exactly when they are the same neighbour. */
  lemma TieIsSameNeighbour(a: Candidate, b: Candidate, rankOf: RankOf)
    ensures CompareCandidates(a, b, rankOf) == 0 <==> a.neighborArtistId == b.neighborArtistId
  {
  }

  predicate Worse(a: Candidate, b: Candidate, rankOf: RankOf) {
    CompareCandidates(a, b, rankOf) > 0
  }

  // ---------- The heap ----------

  predicate ChildOf(c: nat, p: nat) { c == 2 * p + 1 || c == 2 * p + 2 }

  /** The parent of place `c` is not better than `c`. */
  predicate Ordered(h: seq<Candidate>, p: nat, c: nat, rankOf: RankOf) {
    p < |h| && c < |h| ==> !Worse(h[c], h[p], rankOf)
  }

  /** A heap with the worst on top, from place `from` on. */
  ghost predicate HeapFrom(h: seq<Candidate>, from: int, rankOf: RankOf) {
    forall p: nat, c: nat {:trigger ChildOf(c, p)} :: ChildOf(c, p) && from <= p ==> Ordered(h, p, c, rankOf)
  }

  /** The same, except below place `hole`, whose children answer to its parent instead. */
  ghost predicate HeapExcept(h: seq<Candidate>, from: int, hole: nat, rankOf: RankOf) {
    && (forall p: nat, c: nat {:trigger ChildOf(c, p)} :: ChildOf(c, p) && from <= p && p != hole ==> Ordered(h, p, c, rankOf))
    && (forall p: nat, c: nat {:trigger ChildOf(hole, p), ChildOf(c, hole)} ::
          ChildOf(hole, p) && ChildOf(c, hole) && from <= p ==> Ordered(h, p, c, rankOf))
  }

  function Swapped<T>(h: seq<T>, i: nat, j: nat): (r: seq<T>)
    requires i < |h| && j < |h|
    ensures |r| == |h|
  {
    h[i := h[j]][j := h[i]]
  }

  lemma SwapKeeps<T>(h: seq<T>, i: nat, j: nat)
    requires i < |h| && j < |h|
    ensures multiset(Swapped(h, i, j)) == multiset(h)
  {
  }

  /** Swapping the hole with its worst child moves the hole down. */
  lemma HoleMovesDown(h: seq<Candidate>, from: int, i: nat, worst: nat, rankOf: RankOf)
    requires HeapExcept(h, from, i, rankOf) && from <= i && ChildOf(worst, i) && worst < |h|
    requires Worse(h[worst], h[i], rankOf)
    requires forall c: nat :: ChildOf(c, i) && c < |h| ==> !Worse(h[c], h[worst], rankOf)
    ensures HeapExcept(Swapped(h, i, worst), from, worst, rankOf)
  {
    var r := Swapped(h, i, worst);
    forall p: nat, c: nat | ChildOf(c, p) && from <= p && p != worst ensures Ordered(r, p, c, rankOf) {
      if c == i {
        assert ChildOf(i, p) && ChildOf(worst, i);
        assert Ordered(h, p, worst, rankOf);
      } else if p != i {
        assert Ordered(h, p, c, rankOf);
      }
    }
    forall p: nat, c: nat | ChildOf(worst, p) && ChildOf(c, worst) && from <= p ensures Ordered(r, p, c, rankOf) {
      assert p == i;
      assert Ordered(h, worst, c, rankOf);
    }
  }

  /** With no child worse than the hole, there is no hole. */
  lemma HoleCloses(h: seq<Candidate>, from: int, i: nat, rankOf: RankOf)
    requires HeapExcept(h, from, i, rankOf)
    requires forall c: nat :: ChildOf(c, i) && c < |h| && i < |h| ==> !Worse(h[c], h[i], rankOf)
    ensures HeapFrom(h, from, rankOf)
  {
    forall p: nat, c: nat | ChildOf(c, p) && from <= p ensures Ordered(h, p, c, rankOf) {
    }
  }

  /** The worst of a place and its children; a child must be strictly worse to be picked. */
  function WorstPlace(h: seq<Candidate>, i: nat, rankOf: RankOf): (worst: nat)
    requires i < |h|
    ensures worst == i || (ChildOf(worst, i) && worst < |h| && Worse(h[worst], h[i], rankOf))
    ensures worst < |h| && forall c: nat :: ChildOf(c, i) && c < |h| ==> !Worse(h[c], h[worst], rankOf)
  {
    var left, right := 2 * i + 1, 2 * i + 2;
    var w := if left < |h| && Worse(h[left], h[i], rankOf) then left else i;
    if right < |h| && Worse(h[right], h[w], rankOf) then right else w
  }

  /** The heap after sifting one place down. */
  function Sifted(h: seq<Candidate>, i: nat, rankOf: RankOf): (r: seq<Candidate>)
    requires i < |h|
    ensures |r| == |h|
    decreases |h| - i
  {
    var worst := WorstPlace(h, i, rankOf);
    if worst == i then h else Sifted(Swapped(h, i, worst), worst, rankOf)
  }

  lemma {:induction false} SiftKeeps(h: seq<Candidate>, i: nat, rankOf: RankOf)
    requires i < |h|
    ensures multiset(Sifted(h, i, rankOf)) == multiset(h)
    decreases |h| - i
  {
    var worst := WorstPlace(h, i, rankOf);
    if worst != i {
      SwapKeeps(h, i, worst);
      SiftKeeps(Swapped(h, i, worst), worst, rankOf);
    }
  }

  /** Sifting fills the hole it starts from and keeps the candidates. */
  lemma {:induction false} SiftRestores(h: seq<Candidate>, from: nat, i: nat, rankOf: RankOf)
    requires i < |h| && from <= i && HeapExcept(h, from, i, rankOf)
    ensures HeapFrom(Sifted(h, i, rankOf), from, rankOf)
    ensures multiset(Sifted(h, i, rankOf)) == multiset(h)
    decreases |h| - i
  {
    var worst := WorstPlace(h, i, rankOf);
    if worst == i {
      HoleCloses(h, from, i, rankOf);
    } else {
      HoleMovesDown(h, from, i, worst, rankOf);
      SwapKeeps(h, i, worst);
      SiftRestores(Swapped(h, i, worst), from, worst, rankOf);
    }
  }

  /** Sifts one place down until neither child is worse. */
  method SiftDown(heap: array<Candidate>, start: nat, rankOf: RankOf)
    requires start < heap.Length
    modifies heap
    ensures heap[..] == Sifted(old(heap[..]), start, rankOf)
  {
    var i := start;
    while true
      invariant i < heap.Length && Sifted(heap[..], i, rankOf) == Sifted(old(heap[..]), start, rankOf)
      decreases heap.Length - i
    {
      var left, right := 2 * i + 1, 2 * i + 2;
      var worst := i;
      if left < heap.Length && Worse(heap[left], heap[worst], rankOf) { worst := left; }
      if right < heap.Length && Worse(heap[right], heap[worst], rankOf) { worst := right; }
      assert worst == WorstPlace(heap[..], i, rankOf);
      if worst == i { return; }
      ghost var before := heap[..];
      heap[i], heap[worst] := heap[worst], heap[i];
      assert heap[..] == Swapped(before, i, worst);
      i := worst;
    }
  }

  /** The root of a heap is the worst element in it. */
  lemma {:induction false} RootIsWorst(h: seq<Candidate>, k: nat, rankOf: RankOf)
    requires HeapFrom(h, 0, rankOf) && k < |h|
    ensures CompareCandidates(h[k], h[0], rankOf) <= 0
    decreases k
  {
    if k > 0 {
      var p := (k - 1) / 2;
      assert ChildOf(k, p);
      RootIsWorst(h, p, rankOf);
    }
  }

  // ---------- Selection ----------

  /** What has been read is split into what is kept and what was dropped, and nothing dropped
      is better than anything kept. */
  ghost predicate Split(kept: seq<Candidate>, dropped: seq<Candidate>, read: seq<Candidate>, rankOf: RankOf) {
    && multiset(kept) + multiset(dropped) == multiset(read)
    && forall x, y :: x in kept && y in dropped ==> CompareCandidates(x, y, rankOf) <= 0
  }

  lemma ReadOneMore(read: seq<Candidate>, i: nat)
    requires i < |read|
    ensures multiset(read[..i + 1]) == multiset(read[..i]) + multiset{read[i]}
  {
    assert read[..i + 1] == read[..i] + [read[i]];
  }

  /** A candidate no better than the worst kept is dropped. */
  lemma DropCandidate(kept: seq<Candidate>, dropped: seq<Candidate>, read: seq<Candidate>, i: nat, rankOf: RankOf)
    requires i < |read| && kept != [] && Split(kept, dropped, read[..i], rankOf) && HeapFrom(kept, 0, rankOf)
    requires !Worse(kept[0], read[i], rankOf)
    ensures Split(kept, dropped + [read[i]], read[..i + 1], rankOf)
  {
    ReadOneMore(read, i);
    forall x | x in kept ensures CompareCandidates(x, read[i], rankOf) <= 0 {
      var k :| 0 <= k < |kept| && kept[k] == x;
      RootIsWorst(kept, k, rankOf);
    }
  }

  /** A better candidate takes the place of the worst kept, which is dropped. */
  lemma ReplaceWorst(kept: seq<Candidate>, dropped: seq<Candidate>, read: seq<Candidate>, i: nat, rankOf: RankOf)
    requires i < |read| && kept != [] && Split(kept, dropped, read[..i], rankOf) && HeapFrom(kept, 0, rankOf)
    requires Worse(kept[0], read[i], rankOf)
    ensures Split(kept[0 := read[i]], dropped + [kept[0]], read[..i + 1], rankOf)
  {
    ReadOneMore(read, i);
    var better := kept[0 := read[i]];
    assert multiset(better) == multiset(kept) - multiset{kept[0]} + multiset{read[i]};
    forall x, y | x in better && y in dropped + [kept[0]] ensures CompareCandidates(x, y, rankOf) <= 0 {
      var k :| 0 <= k < |better| && better[k] == x;
      RootIsWorst(kept, k, rankOf);
      assert kept[0] in kept && kept[k] in kept;
    }
  }

  lemma SplitSurvivesSift(kept: seq<Candidate>, sifted: seq<Candidate>, dropped: seq<Candidate>, read: seq<Candidate>, rankOf: RankOf)
    requires Split(kept, dropped, read, rankOf) && multiset(sifted) == multiset(kept)
    ensures Split(sifted, dropped, read, rankOf)
  {
    forall x | x in sifted ensures x in kept {
      assert x in multiset(sifted);
    }
  }

  /** The full sort the selection is measured against. */
  function FullSort(candidates: seq<Candidate>, rankOf: RankOf): seq<Candidate> {
    Sorting.Sort(candidates, Comparator(rankOf))
  }

  /** Position by position the same neighbours. */
  ghost predicate SameNeighbours(a: seq<Candidate>, b: seq<Candidate>) {
    |a| == |b| && forall i :: 0 <= i < |a| ==> a[i].neighborArtistId == b[i].neighborArtistId
  }

  ghost predicate DistinctNeighbours(candidates: seq<Candidate>) {
    forall i, j :: 0 <= i < j < |candidates| ==> candidates[i].neighborArtistId != candidates[j].neighborArtistId
  }

  /** A sorted selection of the smallest is the head of the full sort, up to parallel evidence for
      the same neighbour; exactly so when neighbours are distinct. */
  lemma SelectionIsPrefix(kept: seq<Candidate>, dropped: seq<Candidate>, candidates: seq<Candidate>, rankOf: RankOf)
    requires Split(kept, dropped, candidates, rankOf)
    ensures |kept| <= |FullSort(candidates, rankOf)|
    ensures SameNeighbours(FullSort(kept, rankOf), FullSort(candidates, rankOf)[..|kept|])
    ensures multiset(FullSort(kept, rankOf)) == multiset(kept)
  {
    var cmp := Comparator(rankOf);
    ComparatorIsTotal(rankOf);
    Sorting.SortSorts(kept, cmp);
    Sorting.SortKeeps(kept, cmp);
    var sorted := FullSort(kept, rankOf);
    SplitSurvivesSift(kept, sorted, dropped, candidates, rankOf);
    Sorting.SmallestPrefix(sorted, dropped, candidates, cmp);
    forall i | 0 <= i < |kept| ensures sorted[i].neighborArtistId == FullSort(candidates, rankOf)[i].neighborArtistId {
      TieIsSameNeighbour(sorted[i], FullSort(candidates, rankOf)[i], rankOf);
    }
  }

  /** The heap after sifting places `i - 1` down to 0. */
  function Built(h: seq<Candidate>, i: nat, rankOf: RankOf): (r: seq<Candidate>)
    requires i <= |h|
    ensures |r| == |h|
    decreases i
  {
    if i == 0 then h else Built(Sifted(h, i - 1, rankOf), i - 1, rankOf)
  }

  lemma BuiltStep(h: seq<Candidate>, i: nat, rankOf: RankOf)
    requires i < |h|
    ensures Built(h, i + 1, rankOf) == Built(Sifted(h, i, rankOf), i, rankOf)
  {
  }

  lemma SiftPlaceKeeps(h: seq<Candidate>, i: nat, rankOf: RankOf) returns (next: seq<Candidate>)
    requires i < |h| && HeapFrom(h, i + 1, rankOf)
    ensures |next| == |h| && HeapFrom(next, i, rankOf) && multiset(next) == multiset(h)
    ensures Built(h, i + 1, rankOf) == Built(next, i, rankOf)
  {
    next := Sifted(h, i, rankOf);
    BuiltStep(h, i, rankOf);
    OpenHole(h, i, rankOf);
    SiftRestores(h, i, i, rankOf);
  }

  method Heapify(heap: array<Candidate>, rankOf: RankOf)
    modifies heap
    ensures heap[..] == Built(old(heap[..]), heap.Length / 2, rankOf)
  {
    var i := heap.Length / 2;
    while i > 0
      invariant 0 <= i <= heap.Length
      invariant Built(heap[..], i, rankOf) == Built(old(heap[..]), heap.Length / 2, rankOf)
    {
      i := i - 1;
      BuiltStep(heap[..], i, rankOf);
      SiftDown(heap, i, rankOf);
    }
  }

  lemma NoChildren(h: seq<Candidate>, from: int, rankOf: RankOf)
    requires 2 * from + 1 >= |h|
    ensures HeapFrom(h, from, rankOf)
  {
  }

  lemma OpenHole(h: seq<Candidate>, i: nat, rankOf: RankOf)
    requires HeapFrom(h, i + 1, rankOf)
    ensures HeapExcept(h, i, i, rankOf)
  {
    forall p: nat, c: nat | ChildOf(c, p) && i <= p && p != i ensures Ordered(h, p, c, rankOf) { }
  }

  /** The heap after offering it one candidate. */
  function Offered(h: seq<Candidate>, c: Candidate, rankOf: RankOf): (r: seq<Candidate>)
    requires h != []
    ensures |r| == |h|
  {
    if Worse(h[0], c, rankOf) then Sifted(h[0 := c], 0, rankOf) else h
  }

  /** The place swapped with is the first of the worst among a place and its two children. */
  lemma WorstPlaceIs(h: seq<Candidate>, i: nat, rankOf: RankOf)
    requires i < |h|
    ensures WorstPlace(h, i, rankOf) in {i, 2 * i + 1, 2 * i + 2} && WorstPlace(h, i, rankOf) < |h|
    ensures var w := WorstPlace(h, i, rankOf);
      forall x :: x in {i, 2 * i + 1, 2 * i + 2} && x < |h| ==>
        Ahead(h[x], h[w], rankOf) && (x < w ==> !Ahead(h[w], h[x], rankOf))
  {
  }

  /** A newcomer gets in exactly when it comes before the worst kept row; one that ties with it does not. */
  lemma TurnedAway(h: seq<Candidate>, c: Candidate, rankOf: RankOf)
    requires h != []
    ensures Ahead(h[0], c, rankOf) ==> Offered(h, c, rankOf) == h
    ensures !Ahead(h[0], c, rankOf) ==> multiset(Offered(h, c, rankOf)) == multiset(h) - multiset{h[0]} + multiset{c}
  {
    if !Ahead(h[0], c, rankOf) {
      SiftKeeps(h[0 := c], 0, rankOf);
      assert h == [h[0]] + h[1..] && h[0 := c] == [c] + h[1..];
    }
  }

  /** The heap after offering it all the rest. */
  function OfferedAll(h: seq<Candidate>, rest: seq<Candidate>, rankOf: RankOf): (r: seq<Candidate>)
    requires h != []
    ensures |r| == |h|
    decreases |rest|
  {
    if rest == [] then h else OfferedAll(Offered(h, rest[0], rankOf), rest[1..], rankOf)
  }

  /** What `selectTopK` returns, row by row. */
  function TopK(candidates: seq<Candidate>, k: nat, rankOf: RankOf): seq<Candidate>
    requires k >= 1
  {
    if |candidates| <= k then FullSort(candidates, rankOf)
    else FullSort(OfferedAll(Built(candidates[..k], k / 2, rankOf), candidates[k..], rankOf), rankOf)
  }

  lemma RootReplaced(h: seq<Candidate>, c: Candidate, rankOf: RankOf)
    requires h != [] && HeapFrom(h, 0, rankOf)
    ensures HeapExcept(h[0 := c], 0, 0, rankOf)
  {
    var r := h[0 := c];
    forall p: nat, d: nat | ChildOf(d, p) && p != 0 ensures Ordered(r, p, d, rankOf) {
      assert Ordered(h, p, d, rankOf);
    }
  }

  /** One candidate offered to a heap keeps the heap, and drops nothing better than what it keeps. */
  lemma OfferKeeps(h: seq<Candidate>, dropped: seq<Candidate>, read: seq<Candidate>, i: nat, rankOf: RankOf)
    returns (more: seq<Candidate>)
    requires i < |read| && h != [] && Split(h, dropped, read[..i], rankOf) && HeapFrom(h, 0, rankOf)
    ensures HeapFrom(Offered(h, read[i], rankOf), 0, rankOf)
    ensures Split(Offered(h, read[i], rankOf), more, read[..i + 1], rankOf)
  {
    if Worse(h[0], read[i], rankOf) {
      more := dropped + [h[0]];
      ReplaceWorst(h, dropped, read, i, rankOf);
      RootReplaced(h, read[i], rankOf);
      SiftRestores(h[0 := read[i]], 0, 0, rankOf);
      SplitSurvivesSift(h[0 := read[i]], Offered(h, read[i], rankOf), more, read[..i + 1], rankOf);
    } else {
      more := dropped + [read[i]];
      DropCandidate(h, dropped, read, i, rankOf);
    }
  }

  /** One turn of the selection loop. */
  method Offer(heap: array<Candidate>, candidate: Candidate, rankOf: RankOf)
    requires heap.Length > 0
    modifies heap
    ensures heap[..] == Offered(old(heap[..]), candidate, rankOf)
  {
    if Worse(heap[0], candidate, rankOf) {
      ghost var before := heap[..];
      heap[0] := candidate;
      assert heap[..] == before[0 := candidate];
      SiftDown(heap, 0, rankOf);
    }
  }

  /** Building sifts every place that has a child, and makes a heap of the same candidates. */
  lemma {:induction false} BuildMakesHeap(h: seq<Candidate>, i: nat, rankOf: RankOf)
    requires i <= |h| && HeapFrom(h, i, rankOf)
    ensures HeapFrom(Built(h, i, rankOf), 0, rankOf) && multiset(Built(h, i, rankOf)) == multiset(h)
    decreases i
  {
    if i > 0 {
      var next := SiftPlaceKeeps(h, i - 1, rankOf);
      BuildMakesHeap(next, i - 1, rankOf);
    }
  }

  lemma {:induction false} OffersKeep(h: seq<Candidate>, dropped: seq<Candidate>, read: seq<Candidate>, i: nat, rankOf: RankOf)
    returns (all: seq<Candidate>)
    requires i <= |read| && h != [] && Split(h, dropped, read[..i], rankOf) && HeapFrom(h, 0, rankOf)
    ensures Split(OfferedAll(h, read[i..], rankOf), all, read, rankOf)
    decreases |read| - i
  {
    if i == |read| {
      all := dropped;
      assert read[..i] == read;
    } else {
      var more := OfferKeeps(h, dropped, read, i, rankOf);
      assert read[i..][0] == read[i] && read[i..][1..] == read[i + 1..];
      all := OffersKeep(Offered(h, read[i], rankOf), more, read, i + 1, rankOf);
    }
  }

  /** What is selected and what is not. */
  lemma TopKSplits(candidates: seq<Candidate>, k: nat, rankOf: RankOf) returns (kept: seq<Candidate>, dropped: seq<Candidate>)
    requires k >= 1
    ensures Split(kept, dropped, candidates, rankOf)
    ensures TopK(candidates, k, rankOf) == FullSort(kept, rankOf) && |kept| == Min(|candidates|, k)
  {
    if |candidates| <= k {
      kept, dropped := candidates, [];
    } else {
      var head := candidates[..k];
      NoChildren(head, k / 2, rankOf);
      BuildMakesHeap(head, k / 2, rankOf);
      var heap := Built(head, k / 2, rankOf);
      assert Split(heap, [], head, rankOf);
      kept := OfferedAll(heap, candidates[k..], rankOf);
      dropped := OffersKeep(heap, [], candidates, k, rankOf);
    }
  }

  /** As many rows as asked for, or all; in order; and none left out that should come before one of them. */
  ghost predicate IsSelection(top: seq<Candidate>, candidates: seq<Candidate>, k: nat, rankOf: RankOf) {
    && |top| == Min(|candidates|, k) && multiset(top) <= multiset(candidates)
    && (forall i, j :: 0 <= i < j < |top| ==> Ahead(top[i], top[j], rankOf))
    && (forall x, y :: x in top && y in multiset(candidates) - multiset(top) ==> Ahead(x, y, rankOf))
  }

  lemma TopKIsSelection(candidates: seq<Candidate>, k: nat, rankOf: RankOf)
    requires k >= 1
    ensures IsSelection(TopK(candidates, k, rankOf), candidates, k, rankOf)
  {
    var kept, dropped := TopKSplits(candidates, k, rankOf);
    var top, cmp := FullSort(kept, rankOf), Comparator(rankOf);
    ComparatorIsTotal(rankOf);
    Sorting.SortSorts(kept, cmp);
    Sorting.SortKeeps(kept, cmp);
    assert |top| == |multiset(top)| == |multiset(kept)| == |kept|;
    forall i, j | 0 <= i < j < |top| ensures Ahead(top[i], top[j], rankOf) { ComparatorMeans(top[i], top[j], rankOf); }
    assert multiset(candidates) - multiset(top) == multiset(dropped);
    forall x, y | x in top && y in multiset(dropped) ensures Ahead(x, y, rankOf) {
      assert x in multiset(top) && x in kept && y in dropped;
      ComparatorMeans(x, y, rankOf);
    }
  }

  /** The selection is the head of the full sort, up to parallel rows for one neighbour. */
  lemma TopKIsPrefix(candidates: seq<Candidate>, k: nat, rankOf: RankOf)
    requires k >= 1
    ensures var top, full := TopK(candidates, k, rankOf), FullSort(candidates, rankOf);
      |top| == Min(|candidates|, k) <= |full| && SameNeighbours(top, full[..|top|]) && multiset(top) <= multiset(candidates)
      && (DistinctNeighbours(candidates) ==> top == full[..|top|])
  {
    Sorting.SortKeeps(candidates, Comparator(rankOf));
    if |candidates| <= k {
      assert FullSort(candidates, rankOf)[..|candidates|] == FullSort(candidates, rankOf);
    } else {
      var kept, dropped := TopKSplits(candidates, k, rankOf);
      KeptIsTop(kept, dropped, candidates, rankOf);
    }
  }

  /** Offers the heap all the remaining candidates, one by one. */
  method OfferRest(heap: array<Candidate>, candidates: seq<Candidate>, k: nat, rankOf: RankOf)
    requires heap.Length > 0 && k <= |candidates|
    modifies heap
    ensures heap[..] == OfferedAll(old(heap[..]), candidates[k..], rankOf)
  {
    for i := k to |candidates|
      invariant OfferedAll(old(heap[..]), candidates[k..], rankOf) == OfferedAll(heap[..], candidates[i..], rankOf)
    {
      assert candidates[i..][0] == candidates[i] && candidates[i..][1..] == candidates[i + 1..];
      Offer(heap, candidates[i], rankOf);
    }
  }

  method SelectTopK(candidates: seq<Candidate>, k: nat, rankOf: RankOf) returns (top: seq<Candidate>)
    requires k >= 1
    ensures top == TopK(candidates, k, rankOf)
  {
    if |candidates| <= k { return FullSort(candidates, rankOf); }
    var heap := new Candidate[k](i requires 0 <= i < k => candidates[i]);
    assert heap[..] == candidates[..k];
    Heapify(heap, rankOf);
    OfferRest(heap, candidates, k, rankOf);
    top := FullSort(heap[..], rankOf);
  }

  /** What the heap holds in the end, sorted, is the head of the full sort. */
  lemma KeptIsTop(kept: seq<Candidate>, dropped: seq<Candidate>, candidates: seq<Candidate>, rankOf: RankOf)
    requires Split(kept, dropped, candidates, rankOf)
    ensures var top, full := FullSort(kept, rankOf), FullSort(candidates, rankOf);
      |top| == |kept| <= |full| && SameNeighbours(top, full[..|top|]) && multiset(top) <= multiset(candidates)
      && (DistinctNeighbours(candidates) ==> top == full[..|top|])
  {
    SelectionIsPrefix(kept, dropped, candidates, rankOf);
    Sorting.SortKeeps(kept, Comparator(rankOf));
    Sorting.SortKeeps(candidates, Comparator(rankOf));
    if DistinctNeighbours(candidates) {
      DistinctSelection(FullSort(kept, rankOf), candidates, FullSort(candidates, rankOf));
    }
  }

  /** With distinct neighbours, the same neighbours are the same candidates. */
  lemma DistinctSelection(top: seq<Candidate>, candidates: seq<Candidate>, full: seq<Candidate>)
    requires DistinctNeighbours(candidates) && multiset(top) <= multiset(candidates) && multiset(full) == multiset(candidates)
    requires |top| <= |full| && SameNeighbours(top, full[..|top|])
    ensures top == full[..|top|]
  {
    forall i | 0 <= i < |top| ensures top[i] == full[..|top|][i] {
      assert top[i] in multiset(top) && full[i] in multiset(full);
      var a :| 0 <= a < |candidates| && candidates[a] == top[i];
      var b :| 0 <= b < |candidates| && candidates[b] == full[i];
      assert full[..|top|][i] == full[i];
    }
  }

  // ---------- The view ----------

  datatype ExplorerNode = ExplorerNode(artistId: int, name: string, roleCategories: seq<string>, isCenter: bool)

  datatype View = View(
    center: ExplorerNode,
    neighbors: seq<ExplorerNode>,
    edges: seq<Candidate>,
    truncated: bool,
    totalNeighborCount: nat)

  /** The node shown for an artist: the name comes from the graph, with a placeholder for an artist
      the graph does not hold; role categories come from the contributor index. */
  function NodeFor(g: Graph, artistIndex: map<int, nat>, roles: map<int, seq<string>>, id: int, isCenter: bool): ExplorerNode {
    ExplorerNode(
      id,
      if id in artistIndex && artistIndex[id] < |g.names| then g.names[artistIndex[id]] else "Artist " + IntText(id),
      if id in roles then roles[id] else [],
      isCenter)
  }

  /** The node shown for a shown edge is the neighbour that edge leads to, under its name in the graph. */
  ghost predicate Shows(g: Graph, roles: map<int, seq<string>>, node: ExplorerNode, id: int, isCenter: bool) {
    && node.artistId == id && node.isCenter == isCenter
    && node.roleCategories == (if id in roles then roles[id] else [])
    && exists n: nat :: n < |g.nodeIds| && n < |g.names| && g.nodeIds[n] == id && g.names[n] == node.name
  }

  function SlotCandidate(g: Graph, s: nat): Candidate
    requires RowsInRange(g) && s < |g.neighbors|
  {
    Candidate(g.nodeIds[g.neighbors[s]], g.evidenceReleaseIds[s], g.edgeRoleA[s], g.edgeRoleB[s])
  }

  /** The real people among the slots `from..to`, in slot order. */
  function RealNeighbours(g: Graph, from: nat, to: nat): seq<Candidate>
    requires RowsInRange(g) && from <= to <= |g.neighbors|
  {
    if from == to then []
    else if Virtual(g, g.neighbors[to - 1]) then RealNeighbours(g, from, to - 1)
    else RealNeighbours(g, from, to - 1) + [SlotCandidate(g, to - 1)]
  }

  /** The row shown for a slot: the neighbour and the release, the role at the centre and the neighbour's. */
  predicate ReadsSlot(g: Graph, s: nat, c: Candidate)
    requires RowsInRange(g) && s < |g.neighbors|
  {
    && c.neighborArtistId == g.nodeIds[g.neighbors[s]] && c.releaseId == g.evidenceReleaseIds[s]
    && c.roleCenter == g.edgeRoleA[s] && c.roleNeighbor == g.edgeRoleB[s]
  }

  /** `slots` are the slots of a range that lead to real people, in their order, and `rows` what they show. */
  ghost predicate ListsSlots(g: Graph, from: nat, to: nat, slots: seq<nat>, rows: seq<Candidate>)
    requires RowsInRange(g) && from <= to <= |g.neighbors|
  {
    && |slots| == |rows| && (forall i, j :: 0 <= i < j < |slots| ==> slots[i] < slots[j])
    && (forall s: nat :: s in slots <==> from <= s < to && g.nodeIds[g.neighbors[s]] >= 0)
    && (forall i :: 0 <= i < |slots| ==> from <= slots[i] < to && ReadsSlot(g, slots[i], rows[i]))
  }

  /** The neighbourhood of a node: every slot of its row that leads to a real person, and no other. */
  lemma {:induction false} RealNeighboursExact(g: Graph, from: nat, to: nat) returns (slots: seq<nat>)
    requires RowsInRange(g) && from <= to <= |g.neighbors|
    ensures ListsSlots(g, from, to, slots, RealNeighbours(g, from, to))
  {
    if from == to {
      slots := [];
    } else {
      var before := RealNeighboursExact(g, from, to - 1);
      if Virtual(g, g.neighbors[to - 1]) {
        slots := before;
      } else {
        slots := before + [to - 1];
        OneMoreSlot(g, from, to, before, RealNeighbours(g, from, to - 1));
      }
    }
  }

  lemma OneMoreSlot(g: Graph, from: nat, to: nat, slots: seq<nat>, rows: seq<Candidate>)
    requires RowsInRange(g) && from < to <= |g.neighbors| && !Virtual(g, g.neighbors[to - 1])
    requires ListsSlots(g, from, to - 1, slots, rows)
    ensures ListsSlots(g, from, to, slots + [to - 1], rows + [SlotCandidate(g, to - 1)])
  {
    assert forall s: nat :: s in slots + [to - 1] <==> s in slots || s == to - 1;
  }

  /** Every row candidate names a node of the graph. */
  lemma {:induction false} NeighbourInGraph(g: Graph, artistIndex: map<int, nat>, from: nat, to: nat, c: Candidate)
    requires RowsInRange(g) && IsArtistIndex(g, artistIndex) && from <= to <= |g.neighbors|
    requires c in RealNeighbours(g, from, to)
    ensures c.neighborArtistId in artistIndex
  {
    var rows := RealNeighbours(g, from, to);
    var slots := RealNeighboursExact(g, from, to);
    var i :| 0 <= i < |rows| && rows[i] == c;
    assert ReadsSlot(g, slots[i], c);
  }

  lemma NodeShows(g: Graph, artistIndex: map<int, nat>, roles: map<int, seq<string>>, id: int, isCenter: bool)
    requires RowsInRange(g) && IsArtistIndex(g, artistIndex) && id in artistIndex
    ensures Shows(g, roles, NodeFor(g, artistIndex, roles, id, isCenter), id, isCenter)
  {
    assert g.nodeIds[artistIndex[id]] == id;
  }

  /** The slots of one row that lead to real people. */
  function RowNeighbours(g: Graph, n: nat): seq<Candidate>
    requires RowsInRange(g) && n < |g.nodeIds|
  {
    assert GoodRow(g, n);
    RealNeighbours(g, g.offsets[n], g.offsets[n + 1])
  }

  ghost predicate ListsRowSlots(g: Graph, n: nat, slots: seq<nat>, rows: seq<Candidate>)
    requires RowsInRange(g) && n < |g.nodeIds|
  {
    GoodRow(g, n) && ListsSlots(g, g.offsets[n], g.offsets[n + 1], slots, rows)
  }

  /** The row of a node, in slot order. */
  ghost predicate ListsRow(g: Graph, n: nat, rows: seq<Candidate>)
    requires RowsInRange(g) && n < |g.nodeIds|
  {
    exists slots :: ListsRowSlots(g, n, slots, rows)
  }

  lemma RowIsListed(g: Graph, n: nat)
    requires RowsInRange(g) && n < |g.nodeIds|
    ensures ListsRow(g, n, RowNeighbours(g, n))
  {
    assert GoodRow(g, n);
    var slots := RealNeighboursExact(g, g.offsets[n], g.offsets[n + 1]);
    assert ListsRowSlots(g, n, slots, RowNeighbours(g, n));
  }

  /** An edge shown is one of the centre's slots. */
  ghost predicate ShowsEdge(g: Graph, n: nat, c: Candidate)
    requires RowsInRange(g)
  {
    exists s: nat :: InRow(g, n, s) && g.nodeIds[g.neighbors[s]] >= 0 && ReadsSlot(g, s, c)
  }

  lemma RowShows(g: Graph, n: nat, rows: seq<Candidate>, c: Candidate)
    requires RowsInRange(g) && n < |g.nodeIds| && ListsRow(g, n, rows) && c in rows
    ensures ShowsEdge(g, n, c)
  {
    var slots :| ListsRowSlots(g, n, slots, rows);
    var i :| 0 <= i < |rows| && rows[i] == c;
    assert slots[i] in slots && InRow(g, n, slots[i]);
  }

  method BuildView(g: Graph, artistIndex: map<int, nat>, roles: map<int, seq<string>>,
                   centerArtistId: int, maxNeighbors: nat, rankOf: RankOf)
    returns (r: Option<View>)
    requires RowsInRange(g) && IsArtistIndex(g, artistIndex) && maxNeighbors >= 1
    ensures r.Some? <==> centerArtistId >= 0 && centerArtistId in artistIndex
    ensures r.Some? ==>
      var all := RowNeighbours(g, artistIndex[centerArtistId]);
      && Shows(g, roles, r.value.center, centerArtistId, true)
      && ListsRow(g, artistIndex[centerArtistId], all) && IsSelection(r.value.edges, all, maxNeighbors, rankOf)
      && (forall e :: e in r.value.edges ==> ShowsEdge(g, artistIndex[centerArtistId], e))
      && r.value.edges == TopK(all, maxNeighbors, rankOf)
      && |r.value.neighbors| == |r.value.edges|
      && (forall i :: 0 <= i < |r.value.edges| ==>
            Shows(g, roles, r.value.neighbors[i], r.value.edges[i].neighborArtistId, false))
      && r.value.totalNeighborCount == |all| && (r.value.truncated <==> |all| > maxNeighbors)
  {
    if centerArtistId < 0 { return None; }
    if centerArtistId !in artistIndex { return None; }
    var n := artistIndex[centerArtistId];
    assert GoodRow(g, n);
    var start, end := g.offsets[n], g.offsets[n + 1];
    var candidates: seq<Candidate> := [];
    for slot := start to end
      invariant candidates == RealNeighbours(g, start, slot)
    {
      if g.nodeIds[g.neighbors[slot]] < 0 { continue; }
      candidates := candidates + [SlotCandidate(g, slot)];
    }
    var shown := SelectTopK(candidates, maxNeighbors, rankOf);
    var neighbors := seq(|shown|, i requires 0 <= i < |shown| =>
      NodeFor(g, artistIndex, roles, shown[i].neighborArtistId, false));
    NodeShows(g, artistIndex, roles, centerArtistId, true);
    TopKIsSelection(candidates, maxNeighbors, rankOf);
    RowIsListed(g, n);
    forall e | e in shown ensures ShowsEdge(g, n, e) {
      assert e in multiset(shown);
      RowShows(g, n, candidates, e);
    }
    forall i | 0 <= i < |shown| ensures Shows(g, roles, neighbors[i], shown[i].neighborArtistId, false) {
      assert shown[i] in multiset(shown);
      NeighbourInGraph(g, artistIndex, start, end, shown[i]);
      NodeShows(g, artistIndex, roles, shown[i].neighborArtistId, false);
    }
    r := Some(View(NodeFor(g, artistIndex, roles, centerArtistId, true), neighbors, shown,
                   |candidates| > maxNeighbors, |candidates|));
  }

  // ---------- Paging ----------

  /** A wider page starts with the narrower one: paging never moves a shown neighbour, and changes no
      shown row when every neighbour has one. */
  lemma PagingIsPrefixStable(candidates: seq<Candidate>, rankOf: RankOf, j: nat, k: nat)
    requires 1 <= j <= k
    ensures var shown, more := TopK(candidates, j, rankOf), TopK(candidates, k, rankOf);
      |shown| <= |more| && SameNeighbours(shown, more[..|shown|])
      && (DistinctNeighbours(candidates) ==> shown == more[..|shown|])
  {
    TopKIsPrefix(candidates, j, rankOf);
    TopKIsPrefix(candidates, k, rankOf);
    var shown, more, full := TopK(candidates, j, rankOf), TopK(candidates, k, rankOf), FullSort(candidates, rankOf);
    forall i | 0 <= i < |shown| ensures shown[i].neighborArtistId == more[..|shown|][i].neighborArtistId {
      assert full[..|shown|][i] == full[i] == full[..|more|][i];
    }
  }

  const FIVE_A := Candidate(5, 1, "", "")
  const FIVE_B := Candidate(5, 2, "", "")
  const NINE := Candidate(9, 3, "", "")

  /** With two rows for one neighbour they need not: the two rows of artist 5 come out swapped on a
      page of two, and back in order on a page of three. */
  lemma ParallelRowsSwap(rankOf: RankOf)
    requires rankOf(5) == rankOf(9)
    ensures FullSort([NINE, FIVE_A, FIVE_B], rankOf) == [FIVE_A, FIVE_B, NINE]
    ensures TopK([NINE, FIVE_A, FIVE_B], 2, rankOf) == [FIVE_B, FIVE_A]
    ensures TopK([NINE, FIVE_A, FIVE_B], 3, rankOf) == [FIVE_A, FIVE_B, NINE]
  {
    var all := [NINE, FIVE_A, FIVE_B];
    var cmp := Comparator(rankOf);
    assert cmp(FIVE_A, FIVE_B) == 0 && cmp(FIVE_B, FIVE_A) == 0 && cmp(NINE, FIVE_A) == 4 && cmp(NINE, FIVE_B) == 4;
    SortThree(NINE, FIVE_A, FIVE_B, cmp);
    SortTwo(FIVE_B, FIVE_A, cmp);
    var heap := all[..2];
    assert heap == [NINE, FIVE_A] && all[2..] == [FIVE_B];
    assert Sifted(heap, 0, rankOf) == heap;
    assert Built(heap, 1, rankOf) == heap;
    assert heap[0 := FIVE_B] == [FIVE_B, FIVE_A];
    assert Offered(heap, FIVE_B, rankOf) == [FIVE_B, FIVE_A];
    assert OfferedAll(heap, [FIVE_B], rankOf) == [FIVE_B, FIVE_A];
  }

  lemma SortTwo(x: Candidate, y: Candidate, cmp: (Candidate, Candidate) -> int)
    requires cmp(x, y) <= 0
    ensures Sorting.Sort([x, y], cmp) == [x, y]
  {
    assert [x, y][1..] == [y] && [y][1..] == [];
    assert Sorting.Sort([y], cmp) == [y];
  }

  /** The last of three goes first and the other two keep their order. */
  lemma SortThree(z: Candidate, x: Candidate, y: Candidate, cmp: (Candidate, Candidate) -> int)
    requires cmp(x, y) <= 0 && cmp(z, x) > 0 && cmp(z, y) > 0
    ensures Sorting.Sort([z, x, y], cmp) == [x, y, z]
  {
    SortTwo(x, y, cmp);
    assert [z, x, y][1..] == [x, y] && [x, y][1..] == [y] && [y][1..] == [];
    assert Sorting.Insert(z, [], cmp) == [z];
    assert Sorting.Insert(z, [y], cmp) == [y, z];
    assert Sorting.Insert(z, [x, y], cmp) == [x] + Sorting.Insert(z, [y], cmp);
  }
}
