/** When showing more neighbours can change a row already shown, and when it cannot. */
module PagingRows {
  import opened NetworkExplorer
  import opened PathfindingGraph
  import Sorting

  /** A page is the head of the full sort, row by row. */
  ghost predicate Exact(rows: seq<Candidate>, k: nat, rankOf: RankOf)
    requires k >= 1
  {
    TopK(rows, k, rankOf) == FullSort(rows, rankOf)[..Min(|FullSort(rows, rankOf)|, k)]
  }

  /** Whatever order the rows come in, and whatever the ranking and the page size. */
  ghost predicate RowsStable(rows: seq<Candidate>) {
    forall order: seq<Candidate>, k: nat, rankOf: RankOf ::
      k >= 1 && multiset(order) == multiset(rows) ==> Exact(order, k, rankOf)
  }

  /** Rows that name one neighbour are equal. */
  ghost predicate NoParallelRows(rows: seq<Candidate>) {
    forall a, b :: a in rows && b in rows && a.neighborArtistId == b.neighborArtistId ==> a == b
  }

  ghost predicate OneNeighbour(rows: seq<Candidate>) {
    forall a, b :: a in rows && b in rows ==> a.neighborArtistId == b.neighborArtistId
  }

  lemma SameRows(order: seq<Candidate>, rows: seq<Candidate>)
    requires multiset(order) == multiset(rows)
    ensures forall c :: c in order <==> c in rows
  {
    forall c ensures c in order <==> c in rows {
      assert c in order <==> c in multiset(order);
      assert c in rows <==> c in multiset(rows);
    }
  }

  // ---------- Enough ----------

  lemma EqualRowsAreExact(rows: seq<Candidate>, k: nat, rankOf: RankOf)
    requires NoParallelRows(rows) && k >= 1
    ensures Exact(rows, k, rankOf)
  {
    TopKIsPrefix(rows, k, rankOf);
    Sorting.SortKeeps(rows, Comparator(rankOf));
    var top, full := TopK(rows, k, rankOf), FullSort(rows, rankOf);
    SameRows(full, rows);
    forall i | 0 <= i < |top| ensures top[i] == full[..|top|][i] {
      assert full[..|top|][i] == full[i] && full[i] in full;
      assert top[i] in multiset(top) && top[i] in multiset(rows);
    }
  }

  /** Rows that all name one neighbour tie, so a sort leaves them where they are. */
  lemma {:induction false} TiesStay(rows: seq<Candidate>, rankOf: RankOf)
    requires OneNeighbour(rows)
    ensures FullSort(rows, rankOf) == rows
  {
    if rows != [] {
      var rest := rows[1..];
      assert rows == [rows[0]] + rest;
      assert forall c :: c in rest ==> c in rows;
      TiesStay(rest, rankOf);
      if rest != [] {
        assert rest[0] in rows && rows[0] in rows;
        TieIsSameNeighbour(rows[0], rest[0], rankOf);
      }
    }
  }

  lemma TiesAreNotSifted(h: seq<Candidate>, i: nat, rankOf: RankOf)
    requires OneNeighbour(h) && i < |h|
    ensures Sifted(h, i, rankOf) == h
  {
    forall j: nat | j < |h| ensures !Worse(h[j], h[i], rankOf) {
      assert h[j] in h && h[i] in h;
      TieIsSameNeighbour(h[j], h[i], rankOf);
    }
  }

  lemma {:induction false} TiesAreBuilt(h: seq<Candidate>, i: nat, rankOf: RankOf)
    requires OneNeighbour(h) && i <= |h|
    ensures Built(h, i, rankOf) == h
  {
    if i > 0 {
      TiesAreNotSifted(h, i - 1, rankOf);
      TiesAreBuilt(h, i - 1, rankOf);
    }
  }

  lemma {:induction false} TiesAreDropped(h: seq<Candidate>, rest: seq<Candidate>, rankOf: RankOf)
    requires h != [] && OneNeighbour(h + rest)
    ensures OfferedAll(h, rest, rankOf) == h
    decreases |rest|
  {
    if rest != [] {
      assert h[0] in h + rest && rest[0] in h + rest;
      TieIsSameNeighbour(h[0], rest[0], rankOf);
      assert Offered(h, rest[0], rankOf) == h;
      assert forall c :: c in h + rest[1..] ==> c in h + rest;
      TiesAreDropped(h, rest[1..], rankOf);
    }
  }

  lemma OneNeighbourIsExact(rows: seq<Candidate>, k: nat, rankOf: RankOf)
    requires OneNeighbour(rows) && k >= 1
    ensures Exact(rows, k, rankOf)
  {
    TiesStay(rows, rankOf);
    if |rows| <= k {
      assert rows[..|rows|] == rows;
    } else {
      var head := rows[..k];
      assert head + rows[k..] == rows;
      TiesAreBuilt(head, k / 2, rankOf);
      TiesAreDropped(head, rows[k..], rankOf);
      TiesStay(head, rankOf);
    }
  }

  // ---------- Needed ----------

  /** The ranking that puts one artist first. */
  function Favours(x: int): RankOf { id => if id == x then 1 else 0 }

  lemma {:induction false} FavouriteFilledPage(a: Candidate, b: Candidate, rest: seq<Candidate>, rankOf: RankOf)
    requires a.neighborArtistId == b.neighborArtistId && rankOf == Favours(a.neighborArtistId)
    ensures OfferedAll([b, a], rest, rankOf) == [b, a]
    decreases |rest|
  {
    if rest != [] {
      assert !Worse(b, rest[0], rankOf);
      FavouriteFilledPage(a, b, rest[1..], rankOf);
    }
  }

  /** A page of two over `c, a, b, …`, where `a` and `b` name the favourite and `c` another: `c`
      gives way to `b`, which then stands before `a`. */
  lemma PageOfTwo(c: Candidate, a: Candidate, b: Candidate, rest: seq<Candidate>, rankOf: RankOf)
    requires a.neighborArtistId == b.neighborArtistId != c.neighborArtistId && rankOf == Favours(a.neighborArtistId)
    ensures TopK([c, a, b] + rest, 2, rankOf) == [b, a]
  {
    var all := [c, a, b] + rest;
    assert all[..2] == [c, a] && all[2..] == [b] + rest && ([b] + rest)[1..] == rest;
    assert Sifted([c, a], 0, rankOf) == [c, a];
    assert Built([c, a], 1, rankOf) == [c, a];
    assert [c, a][0 := b] == [b, a];
    assert Sifted([b, a], 0, rankOf) == [b, a];
    assert Offered([c, a], b, rankOf) == [b, a];
    FavouriteFilledPage(a, b, rest, rankOf);
    SortTwo(b, a, Comparator(rankOf));
  }

  /** The full sort starts with `a`. */
  lemma SortedFirst(c: Candidate, a: Candidate, b: Candidate, rest: seq<Candidate>, rankOf: RankOf)
    requires a.neighborArtistId == b.neighborArtistId != c.neighborArtistId && rankOf == Favours(a.neighborArtistId)
    ensures FullSort([c, a, b] + rest, rankOf) != [] && FullSort([c, a, b] + rest, rankOf)[0] == a
  {
    var cmp := Comparator(rankOf);
    var all, more := [c, a, b] + rest, [a, b] + rest;
    assert all[1..] == more && more[1..] == [b] + rest;
    var sorted := Sorting.Sort([b] + rest, cmp);
    assert sorted == [] || cmp(a, sorted[0]) <= 0;
    assert Sorting.Sort(more, cmp) == [a] + sorted;
    assert Sorting.Sort(all, cmp) == Sorting.Insert(c, [a] + sorted, cmp);
    assert cmp(c, a) > 0;
  }

  /** Three of the rows may come first. */
  lemma ThreeFirst(rows: seq<Candidate>, c: Candidate, a: Candidate, b: Candidate) returns (rest: seq<Candidate>)
    requires a in rows && b in rows && c in rows && a != b && a != c && b != c
    ensures multiset([c, a, b] + rest) == multiset(rows)
  {
    var less := Without(rows, c);
    SameBut(less, rows, c);
    var fewer := Without(less, a);
    SameBut(fewer, less, a);
    rest := Without(fewer, b);
  }

  lemma SameBut(less: seq<Candidate>, rows: seq<Candidate>, x: Candidate)
    requires multiset(rows) == multiset(less) + multiset{x}
    ensures forall y :: y in rows && y != x ==> y in less
  {
    forall y | y in rows && y != x ensures y in less {
      assert y in multiset(rows) && y in multiset(less);
    }
  }

  function Without(rows: seq<Candidate>, x: Candidate): (r: seq<Candidate>)
    requires x in rows
    ensures multiset(rows) == multiset(r) + multiset{x}
  {
    if rows[0] == x then
      assert rows == [x] + rows[1..];
      rows[1..]
    else
      assert rows == [rows[0]] + rows[1..];
      [rows[0]] + Without(rows[1..], x)
  }

  /** Two different rows for one neighbour beside a row for another come out swapped. */
  lemma ParallelRowsMove(rows: seq<Candidate>, c: Candidate, a: Candidate, b: Candidate)
    requires a in rows && b in rows && c in rows
    requires a != b && a.neighborArtistId == b.neighborArtistId != c.neighborArtistId
    ensures !RowsStable(rows)
  {
    var rest := ThreeFirst(rows, c, a, b);
    var order, rankOf := [c, a, b] + rest, Favours(a.neighborArtistId);
    PageOfTwo(c, a, b, rest, rankOf);
    SortedFirst(c, a, b, rest, rankOf);
    assert !Exact(order, 2, rankOf);
  }

  // ---------- Exactly ----------

  /** Shown rows are the head of the full sort, for every order of the rows, every ranking and every
      page size, exactly when the rows that name one neighbour are equal or all rows name one. */
  lemma RowsStableIff(rows: seq<Candidate>)
    ensures RowsStable(rows) <==> NoParallelRows(rows) || OneNeighbour(rows)
  {
    if NoParallelRows(rows) || OneNeighbour(rows) {
      forall order: seq<Candidate>, k: nat, rankOf: RankOf | k >= 1 && multiset(order) == multiset(rows)
        ensures Exact(order, k, rankOf)
      {
        SameRows(order, rows);
        if NoParallelRows(rows) { EqualRowsAreExact(order, k, rankOf); } else { OneNeighbourIsExact(order, k, rankOf); }
      }
    } else {
      var a, b :| a in rows && b in rows && a.neighborArtistId == b.neighborArtistId && a != b;
      var c, d :| c in rows && d in rows && c.neighborArtistId != d.neighborArtistId;
      ParallelRowsMove(rows, if c.neighborArtistId != a.neighborArtistId then c else d, a, b);
    }
  }

  /** Where rows are stable, a wider page starts with the rows of the narrower one. */
  lemma StableRowsNest(rows: seq<Candidate>, rankOf: RankOf, j: nat, k: nat)
    requires 1 <= j <= k && (NoParallelRows(rows) || OneNeighbour(rows))
    ensures var shown, more := TopK(rows, j, rankOf), TopK(rows, k, rankOf);
      |shown| <= |more| && shown == more[..|shown|]
  {
    RowsStableIff(rows);
    assert Exact(rows, j, rankOf) && Exact(rows, k, rankOf);
  }
}
