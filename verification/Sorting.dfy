/** The sort the sources call, and what any two sorted arrangements of the same elements have in common. */
module Sorting {

  /** Names three elements, so that transitivity is used only where a proof asks for it. */
  ghost predicate Triple<T>(x: T, y: T, z: T) { true }

  ghost predicate TotalPreorder<T(!new)>(cmp: (T, T) -> int) {
    && (forall x, y {:trigger cmp(x, y)} :: cmp(x, y) < 0 <==> cmp(y, x) > 0)
    && (forall x, y, z {:trigger Triple(x, y, z)} ::
          Triple(x, y, z) && cmp(x, y) <= 0 && cmp(y, z) <= 0 ==> cmp(x, z) <= 0)
  }

  lemma Chain<T(!new)>(cmp: (T, T) -> int, x: T, y: T, z: T)
    requires TotalPreorder(cmp) && cmp(x, y) <= 0 && cmp(y, z) <= 0
    ensures cmp(x, z) <= 0
  {
    assert Triple(x, y, z);
  }

  ghost predicate Sorted<T>(xs: seq<T>, cmp: (T, T) -> int) {
    forall i, j :: 0 <= i < j < |xs| ==> cmp(xs[i], xs[j]) <= 0
  }

  function Insert<T>(x: T, xs: seq<T>, cmp: (T, T) -> int): seq<T> {
    if xs == [] then [x]
    else if cmp(x, xs[0]) <= 0 then [x] + xs
    else [xs[0]] + Insert(x, xs[1..], cmp)
  }

  /** A stable sort. */
  function Sort<T>(xs: seq<T>, cmp: (T, T) -> int): seq<T> {
    if xs == [] then [] else Insert(xs[0], Sort(xs[1..], cmp), cmp)
  }

  lemma {:induction false} InsertKeeps<T>(x: T, xs: seq<T>, cmp: (T, T) -> int)
    ensures multiset(Insert(x, xs, cmp)) == multiset(xs) + multiset{x}
  {
    if xs != [] && cmp(x, xs[0]) > 0 {
      InsertKeeps(x, xs[1..], cmp);
      assert xs == [xs[0]] + xs[1..];
    }
  }

  lemma {:induction false} InsertSorts<T(!new)>(x: T, xs: seq<T>, cmp: (T, T) -> int)
    requires TotalPreorder(cmp) && Sorted(xs, cmp)
    ensures Sorted(Insert(x, xs, cmp), cmp)
  {
    if xs == [] {
    } else if cmp(x, xs[0]) <= 0 {
      forall j | 0 < j < |xs| ensures cmp(x, xs[j]) <= 0 { Chain(cmp, x, xs[0], xs[j]); }
    } else {
      var r := Insert(x, xs[1..], cmp);
      InsertSorts(x, xs[1..], cmp);
      InsertKeeps(x, xs[1..], cmp);
      forall i | 0 <= i < |r| ensures cmp(xs[0], r[i]) <= 0 {
        assert r[i] in multiset(r);
        if r[i] != x {
          var k :| 0 <= k < |xs[1..]| && xs[1..][k] == r[i];
          assert xs[k + 1] == r[i];
        }
      }
    }
  }

  lemma {:induction false} SortKeeps<T>(xs: seq<T>, cmp: (T, T) -> int)
    ensures multiset(Sort(xs, cmp)) == multiset(xs)
    ensures |Sort(xs, cmp)| == |xs|
  {
    if xs != [] {
      SortKeeps(xs[1..], cmp);
      InsertKeeps(xs[0], Sort(xs[1..], cmp), cmp);
      assert xs == [xs[0]] + xs[1..];
    }
    assert |multiset(Sort(xs, cmp))| == |multiset(xs)|;
  }

  lemma {:induction false} SortSorts<T(!new)>(xs: seq<T>, cmp: (T, T) -> int)
    requires TotalPreorder(cmp)
    ensures Sorted(Sort(xs, cmp), cmp)
  {
    if xs != [] {
      SortSorts(xs[1..], cmp);
      InsertSorts(xs[0], Sort(xs[1..], cmp), cmp);
    }
  }

  /** Those that tie with `x`, in their order. */
  function Tying<T>(xs: seq<T>, x: T, cmp: (T, T) -> int): seq<T> {
    if xs == [] then []
    else if cmp(xs[0], x) == 0 then [xs[0]] + Tying(xs[1..], x, cmp)
    else Tying(xs[1..], x, cmp)
  }

  lemma NoTie<T(!new)>(cmp: (T, T) -> int, y: T, z: T, x: T)
    requires TotalPreorder(cmp) && cmp(y, z) > 0 && cmp(y, x) == 0
    ensures cmp(z, x) != 0
  {
    if cmp(z, x) == 0 { Chain(cmp, y, x, z); }
  }

  lemma TyingFirst<T>(y: T, xs: seq<T>, x: T, cmp: (T, T) -> int)
    ensures Tying([y] + xs, x, cmp) == if cmp(y, x) == 0 then [y] + Tying(xs, x, cmp) else Tying(xs, x, cmp)
  {
    assert ([y] + xs)[1..] == xs;
  }

  lemma {:induction false} InsertTies<T(!new)>(y: T, xs: seq<T>, x: T, cmp: (T, T) -> int)
    requires cmp(y, x) == 0 ==> forall z :: cmp(y, z) > 0 ==> cmp(z, x) != 0
    ensures Tying(Insert(y, xs, cmp), x, cmp) == if cmp(y, x) == 0 then [y] + Tying(xs, x, cmp) else Tying(xs, x, cmp)
  {
    if xs != [] && cmp(y, xs[0]) > 0 {
      InsertTies(y, xs[1..], x, cmp);
      TyingFirst(xs[0], Insert(y, xs[1..], cmp), x, cmp);
    } else {
      TyingFirst(y, xs, x, cmp);
    }
  }

  /** The sort is stable: ties stay in their order. */
  lemma {:induction false} TiesKeepOrder<T(!new)>(xs: seq<T>, x: T, cmp: (T, T) -> int)
    requires TotalPreorder(cmp)
    ensures Tying(Sort(xs, cmp), x, cmp) == Tying(xs, x, cmp)
  {
    if xs != [] {
      TiesKeepOrder(xs[1..], x, cmp);
      forall z | cmp(xs[0], x) == 0 && cmp(xs[0], z) > 0 ensures cmp(z, x) != 0 { NoTie(cmp, xs[0], z, x); }
      InsertTies(xs[0], Sort(xs[1..], cmp), x, cmp);
    }
  }

  lemma RemoveAt<T>(xs: seq<T>, k: nat)
    requires k < |xs|
    ensures multiset(xs) == multiset(xs[..k] + xs[k + 1..]) + multiset{xs[k]}
  {
    assert xs == xs[..k] + [xs[k]] + xs[k + 1..];
  }

  /** Two sorted arrangements of the same elements tie position by position. */
  lemma {:induction false} SortedPermutationsTie<T(!new)>(xs: seq<T>, ys: seq<T>, cmp: (T, T) -> int)
    requires TotalPreorder(cmp)
    requires Sorted(xs, cmp) && Sorted(ys, cmp)
    requires multiset(xs) == multiset(ys)
    ensures |xs| == |ys|
    ensures forall i :: 0 <= i < |xs| ==> cmp(xs[i], ys[i]) == 0
    decreases |xs|
  {
    assert |multiset(xs)| == |multiset(ys)|;
    if xs != [] {
      var n := |xs| - 1;
      var k := MatchLast(xs, ys);
      var rest := ys[..k] + ys[k + 1..];
      GapSorted(ys, cmp, k);
      SortedPermutationsTie(xs[..n], rest, cmp);
      forall i | 0 <= i <= n ensures cmp(xs[i], ys[i]) == 0 {
        if i < n {
          assert cmp(xs[..n][i], rest[i]) == 0;
        }
        if i < k {
          assert rest[i] == ys[i];
        } else {
          TieAfterGap(xs, ys, cmp, k, i);
        }
      }
    }
  }

  /** Where the last element of one arrangement stands in the other. */
  lemma MatchLast<T>(xs: seq<T>, ys: seq<T>) returns (k: nat)
    requires xs != [] && |xs| == |ys| && multiset(xs) == multiset(ys)
    ensures k < |ys| && ys[k] == xs[|xs| - 1]
    ensures multiset(xs[..|xs| - 1]) == multiset(ys[..k] + ys[k + 1..])
  {
    var n := |xs| - 1;
    assert xs[n] in multiset(ys);
    k :| 0 <= k <= n && ys[k] == xs[n];
    RemoveAt(ys, k);
    RemoveAt(xs, n);
    assert xs[..n] + xs[n + 1..] == xs[..n];
    var rest := ys[..k] + ys[k + 1..];
    assert multiset(xs[..n]) == multiset(xs) - multiset{xs[n]};
    assert multiset(rest) == multiset(ys) - multiset{xs[n]};
  }

  lemma GapSorted<T>(ys: seq<T>, cmp: (T, T) -> int, k: nat)
    requires Sorted(ys, cmp) && k < |ys|
    ensures Sorted(ys[..k] + ys[k + 1..], cmp)
  {
    var rest := ys[..k] + ys[k + 1..];
    forall i, j | 0 <= i < j < |rest| ensures cmp(rest[i], rest[j]) <= 0 {
      assert rest[i] == ys[if i < k then i else i + 1];
      assert rest[j] == ys[if j < k then j else j + 1];
    }
  }

  lemma TieAfterGap<T(!new)>(xs: seq<T>, ys: seq<T>, cmp: (T, T) -> int, k: int, i: int)
    requires TotalPreorder(cmp) && Sorted(xs, cmp) && Sorted(ys, cmp) && |xs| == |ys|
    requires multiset(xs) == multiset(ys)
    requires 0 <= k <= i < |xs| && ys[k] == xs[|xs| - 1]
    requires i < |xs| - 1 ==> cmp(xs[i], (ys[..k] + ys[k + 1..])[i]) == 0
    ensures cmp(xs[i], ys[i]) == 0
  {
    var n := |xs| - 1;
    var a := xs[n];
    // xs[i] <= a == ys[k] <= ys[i], and ys[i] <= ys[i + 1], which ties with xs[i].
    assert cmp(xs[i], a) <= 0;
    assert cmp(a, ys[i]) <= 0;
    Chain(cmp, xs[i], a, ys[i]);
    if i < n {
      assert (ys[..k] + ys[k + 1..])[i] == ys[i + 1];
      Chain(cmp, ys[i], ys[i + 1], xs[i]);
    } else {
      assert ys[n] in multiset(xs);
      var m :| 0 <= m <= n && xs[m] == ys[n];
      assert cmp(ys[n], a) <= 0;
    }
  }

  /** The first |as| places of the full sort tie with a sorted selection of the smallest. */
  lemma SmallestPrefix<T(!new)>(kept: seq<T>, dropped: seq<T>, all: seq<T>, cmp: (T, T) -> int)
    requires TotalPreorder(cmp)
    requires multiset(all) == multiset(kept) + multiset(dropped)
    requires Sorted(kept, cmp)
    requires forall x, y :: x in kept && y in dropped ==> cmp(x, y) <= 0
    ensures |Sort(all, cmp)| == |all| == |kept| + |dropped|
    ensures forall i :: 0 <= i < |kept| ==> cmp(kept[i], Sort(all, cmp)[i]) == 0
  {
    SortSorts(all, cmp);
    SortKeeps(all, cmp);
    SortSorts(dropped, cmp);
    SortKeeps(dropped, cmp);
    var tail := Sort(dropped, cmp);
    forall i, j | 0 <= i < j < |kept + tail| ensures cmp((kept + tail)[i], (kept + tail)[j]) <= 0 {
      if i < |kept| <= j {
        assert tail[j - |kept|] in multiset(tail);
      }
    }
    SortedPermutationsTie(kept + tail, Sort(all, cmp), cmp);
    assert |multiset(all)| == |all|;
  }
}
