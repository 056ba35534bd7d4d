/** The structural half of `validatePathfindingGraph`: from untrusted arrays to a graph that is safe to index. */
module GraphValidator {
  import opened Text
  import opened PathfindingGraph

  /** Role text per slot: in full up to schema 3, as indices into a dictionary from schema 4. */
  datatype EdgeRoles =
    | Plain(roleA: seq<string>, roleB: seq<string>)
    | Coded(roles: seq<string>, codeA: seq<int>, codeB: seq<int>)

  datatype RawGraph = RawGraph(
    schemaVersion: int,
    nodeIds: seq<int>,
    names: seq<string>,
    offsets: seq<int>,
    neighbors: seq<int>,
    evidenceReleaseIds: seq<int>,
    edgeRoles: EdgeRoles,
    albumVirtualNodes: seq<AlbumVirtualNode>)

  // ---------- What an acceptable payload is ----------

  predicate InRange(xs: seq<int>, bound: int) {
    forall i :: 0 <= i < |xs| ==> 0 <= xs[i] < bound
  }

  predicate RolesFit(roles: EdgeRoles, slotCount: nat) {
    match roles
    case Plain(a, b) => |a| == |b| == slotCount
    case Coded(dict, a, b) => |a| == |b| == slotCount && InRange(a, |dict|) && InRange(b, |dict|)
  }

  function Lookup(dict: seq<string>, codes: seq<int>): (texts: seq<string>)
    requires InRange(codes, |dict|)
    ensures |texts| == |codes|
  {
    seq(|codes|, i requires 0 <= i < |codes| => dict[codes[i]])
  }

  function TextA(roles: EdgeRoles, slotCount: nat): seq<string>
    requires RolesFit(roles, slotCount)
  {
    match roles case Plain(a, b) => a case Coded(dict, a, b) => Lookup(dict, a)
  }

  function TextB(roles: EdgeRoles, slotCount: nat): seq<string>
    requires RolesFit(roles, slotCount)
  {
    match roles case Plain(a, b) => b case Coded(dict, a, b) => Lookup(dict, b)
  }

  predicate Ascending(xs: seq<int>) {
    forall i :: 1 <= i < |xs| ==> xs[i - 1] <= xs[i]
  }

  predicate StrictlyAscending(xs: seq<int>) {
    forall i, j :: 0 <= i < j < |xs| ==> xs[i] < xs[j]
  }

  predicate RowsFit(raw: RawGraph) {
    && raw.nodeIds != [] && StrictlyAscending(raw.nodeIds)
    && |raw.names| == |raw.nodeIds|
    && |raw.offsets| == |raw.nodeIds| + 1
    && raw.offsets[0] == 0 && Ascending(raw.offsets) && raw.offsets[|raw.nodeIds|] == |raw.neighbors|
    && |raw.evidenceReleaseIds| == |raw.neighbors|
    && RolesFit(raw.edgeRoles, |raw.neighbors|)
    && InRange(raw.neighbors, |raw.nodeIds|)
  }

  function Nats(xs: seq<int>): seq<nat>
    requires forall i :: 0 <= i < |xs| ==> 0 <= xs[i]
  {
    xs
  }

  lemma {:induction false} AscendingSpreads(xs: seq<int>, i: nat, j: nat)
    requires Ascending(xs) && i <= j < |xs|
    ensures xs[i] <= xs[j]
    decreases j - i
  {
    if i < j { AscendingSpreads(xs, i, j - 1); }
  }

  lemma OffsetsBounded(raw: RawGraph, i: nat)
    requires RowsFit(raw) && i < |raw.offsets|
    ensures 0 <= raw.offsets[i] <= |raw.neighbors|
  {
    AscendingSpreads(raw.offsets, 0, i);
    AscendingSpreads(raw.offsets, i, |raw.nodeIds|);
  }

  /** The graph the payload stands for. */
  function Decoded(raw: RawGraph): Graph
    requires RowsFit(raw)
  {
    assert forall i :: 0 <= i < |raw.offsets| ==> 0 <= raw.offsets[i] by {
      forall i | 0 <= i < |raw.offsets| ensures 0 <= raw.offsets[i] { OffsetsBounded(raw, i); }
    }
    Graph(raw.nodeIds, raw.names, Nats(raw.offsets), Nats(raw.neighbors), raw.evidenceReleaseIds,
          TextA(raw.edgeRoles, |raw.neighbors|), TextB(raw.edgeRoles, |raw.neighbors|), raw.albumVirtualNodes)
  }

  lemma DecodedRows(raw: RawGraph)
    requires RowsFit(raw)
    ensures SortedIds(Decoded(raw)) && RowsInRange(Decoded(raw))
  {
    var g := Decoded(raw);
    forall n | 0 <= n < |g.nodeIds| ensures GoodRow(g, n) {
      OffsetsBounded(raw, n + 1);
      AscendingSpreads(raw.offsets, n, n + 1);
    }
  }

  ghost predicate Acceptable(raw: RawGraph) {
    && raw.schemaVersion in {1, 2, 3, 4}
    && (raw.schemaVersion == 4 <==> raw.edgeRoles.Coded?)
    && RowsFit(raw)
    && (raw.schemaVersion >= 2 ==>
          && AlbumsResolve(Decoded(raw))
          && RowsInRange(Decoded(raw)) && SentinelSides(Decoded(raw)))
  }

  // ---------- The checks, as the loader makes them ----------

  function Elements(xs: seq<int>): set<int> {
    set i | 0 <= i < |xs| :: xs[i]
  }

  lemma {:induction false} SizeCountsDuplicates(xs: seq<int>)
    ensures |Elements(xs)| <= |xs|
    ensures |Elements(xs)| == |xs| <==> forall i, j :: 0 <= i < j < |xs| ==> xs[i] != xs[j]
  {
    if xs != [] {
      var n := |xs| - 1;
      var init := xs[..n];
      SizeCountsDuplicates(init);
      assert Elements(xs) == Elements(init) + {xs[n]};
      assert xs[n] in Elements(init) <==> exists i :: 0 <= i < n && xs[i] == xs[n];
      if |Elements(xs)| == |xs| {
        assert xs[n] !in Elements(init);
        forall i, j | 0 <= i < j < |xs| ensures xs[i] != xs[j] {
          if j < n { assert init[i] != init[j]; } else { assert xs[i] in Elements(init); }
        }
      }
    }
  }

  /** Non-descending and as many distinct ids as entries is strictly ascending. */
  lemma SortedAndUnique(xs: seq<int>)
    ensures Ascending(xs) && |Elements(xs)| == |xs| <==> StrictlyAscending(xs)
  {
    SizeCountsDuplicates(xs);
    if Ascending(xs) && |Elements(xs)| == |xs| {
      forall i, j | 0 <= i < j < |xs| ensures xs[i] < xs[j] { AscendingSpreads(xs, i, j); }
    }
  }

  method CheckAscending(xs: seq<int>) returns (ok: bool)
    ensures ok <==> Ascending(xs)
  {
    var i := 1;
    while i < |xs|
      invariant 1 <= i && forall j :: 1 <= j < i && j < |xs| ==> xs[j - 1] <= xs[j]
    {
      if xs[i] < xs[i - 1] { return false; }
      i := i + 1;
    }
    ok := true;
  }

  method CheckRows(raw: RawGraph) returns (ok: bool)
    ensures ok <==> RowsFit(raw)
  {
    if raw.nodeIds == [] { return false; }
    var nodeCount := |raw.nodeIds|;
    SortedAndUnique(raw.nodeIds);
    var sorted := CheckAscending(raw.nodeIds);
    if !sorted { return false; }
    if |Elements(raw.nodeIds)| != nodeCount { return false; }
    if |raw.names| != nodeCount { return false; }
    if |raw.offsets| != nodeCount + 1 { return false; }
    if raw.offsets[0] != 0 { return false; }
    var monotone := CheckAscending(raw.offsets);
    if !monotone { return false; }
    var slotCount := |raw.neighbors|;
    if raw.offsets[nodeCount] != slotCount { return false; }
    if |raw.evidenceReleaseIds| != slotCount { return false; }
    if !RolesFit(raw.edgeRoles, slotCount) { return false; }
    for s := 0 to slotCount
      invariant forall j :: 0 <= j < s ==> 0 <= raw.neighbors[j] < nodeCount
    {
      if raw.neighbors[s] < 0 || raw.neighbors[s] >= nodeCount { return false; }
    }
    ok := true;
  }

  method CheckAlbums(g: Graph) returns (ok: bool)
    ensures ok <==> AlbumsResolve(g)
  {
    var seenAlbumIds: set<string> := {};
    var seenVirtualIds: set<int> := {};
    for i := 0 to |g.albumVirtualNodes|
      invariant forall id :: id in seenAlbumIds <==> exists j :: 0 <= j < i && g.albumVirtualNodes[j].albumId == id
      invariant forall id :: id in seenVirtualIds <==> exists j :: 0 <= j < i && g.albumVirtualNodes[j].virtualArtistId == id
      invariant forall j, k :: 0 <= j < k < i ==>
        && g.albumVirtualNodes[j].albumId != g.albumVirtualNodes[k].albumId
        && g.albumVirtualNodes[j].virtualArtistId != g.albumVirtualNodes[k].virtualArtistId
      invariant forall j :: 0 <= j < i ==>
        && g.albumVirtualNodes[j].albumId != ""
        && g.albumVirtualNodes[j].virtualArtistId < 0
        && g.albumVirtualNodes[j].virtualArtistId in g.nodeIds
    {
      var entry := g.albumVirtualNodes[i];
      if entry.albumId == "" { return false; }
      if entry.albumId in seenAlbumIds { return false; }
      seenAlbumIds := seenAlbumIds + {entry.albumId};
      if entry.virtualArtistId >= 0 { return false; }
      if entry.virtualArtistId in seenVirtualIds { return false; }
      seenVirtualIds := seenVirtualIds + {entry.virtualArtistId};
      if entry.virtualArtistId !in g.nodeIds { return false; }
    }
    ok := true;
  }

  /** One slot shows the sentinel on exactly its virtual sides. */
  predicate SlotSides(g: Graph, n: nat, s: nat)
    requires RowsInRange(g) && InRow(g, n, s)
  {
    && (g.edgeRoleA[s] == ALBUM_ANCHOR_SENTINEL <==> g.nodeIds[n] < 0)
    && (g.edgeRoleB[s] == ALBUM_ANCHOR_SENTINEL <==> g.nodeIds[g.neighbors[s]] < 0)
  }

  method CheckSentinels(g: Graph) returns (ok: bool)
    requires RowsInRange(g)
    ensures ok <==> SentinelSides(g)
  {
    for n := 0 to |g.nodeIds|
      invariant forall m: nat, s: nat :: m < n && InRow(g, m, s) ==> SlotSides(g, m, s)
    {
      assert GoodRow(g, n);
      for s := g.offsets[n] to g.offsets[n + 1]
        invariant forall t: nat :: t < s && InRow(g, n, t) ==> SlotSides(g, n, t)
      {
        assert InRow(g, n, s);
        var a, b := g.nodeIds[n], g.nodeIds[g.neighbors[s]];
        if (g.edgeRoleA[s] == ALBUM_ANCHOR_SENTINEL) != (a < 0) {
          assert !SlotSides(g, n, s);
          return false;
        }
        if (g.edgeRoleB[s] == ALBUM_ANCHOR_SENTINEL) != (b < 0) {
          assert !SlotSides(g, n, s);
          return false;
        }
      }
    }
    forall n: nat, s: nat | InRow(g, n, s) ensures SlotSides(g, n, s) { }
    ok := true;
  }

  // ---------- The typed arrays ----------

  const TWO_31 := 0x8000_0000
  const TWO_32 := 0x1_0000_0000

  /** What storing an integer in an `Int32Array` leaves of it. */
  function ToInt32(x: int): int {
    (x + TWO_31) % TWO_32 - TWO_31
  }

  predicate IsInt32(x: int) {
    -TWO_31 <= x < TWO_31
  }

  lemma StoredExactly(x: int)
    ensures IsInt32(ToInt32(x))
    ensures ToInt32(x) == x <==> IsInt32(x)
  {
  }

  function Stored(xs: seq<int>): (r: seq<int>)
    ensures |r| == |xs|
  {
    seq(|xs|, i requires 0 <= i < |xs| => ToInt32(xs[i]))
  }

  predicate AllInt32(xs: seq<int>) {
    forall i :: 0 <= i < |xs| ==> IsInt32(xs[i])
  }

  lemma StoredUnchanged(xs: seq<int>)
    ensures Stored(xs) == xs <==> AllInt32(xs)
  {
    forall i | 0 <= i < |xs| ensures Stored(xs)[i] == xs[i] <==> IsInt32(xs[i]) {
      StoredExactly(xs[i]);
    }
    if Stored(xs) == xs {
      forall i | 0 <= i < |xs| ensures IsInt32(xs[i]) { assert Stored(xs)[i] == xs[i]; }
    }
  }

  /** The object the loader hands out: the four numeric arrays are typed, the album list is not. */
  datatype LoadedGraph = LoadedGraph(
    nodeIds: seq<int>,
    names: seq<string>,
    offsets: seq<int>,
    neighbors: seq<int>,
    evidenceReleaseIds: seq<int>,
    edgeRoleA: seq<string>,
    edgeRoleB: seq<string>,
    albumVirtualNodes: seq<AlbumVirtualNode>)

  function Ints(xs: seq<nat>): seq<int> { xs }

  /** The object that holds a graph's own arrays. */
  function Holding(g: Graph): LoadedGraph {
    LoadedGraph(g.nodeIds, g.names, Ints(g.offsets), Ints(g.neighbors), g.evidenceReleaseIds,
                g.edgeRoleA, g.edgeRoleB, g.albumVirtualNodes)
  }

  function Loaded(raw: RawGraph): LoadedGraph
    requires RowsFit(raw)
  {
    LoadedGraph(Stored(raw.nodeIds), raw.names, Stored(raw.offsets), Stored(raw.neighbors), Stored(raw.evidenceReleaseIds),
                TextA(raw.edgeRoles, |raw.neighbors|), TextB(raw.edgeRoles, |raw.neighbors|), raw.albumVirtualNodes)
  }

  /** A 32-bit number that differs from `x` by a multiple of 2^32. */
  predicate Wraps(stored: int, x: int) {
    -0x8000_0000 <= stored < 0x8000_0000 && (stored - x) % 0x1_0000_0000 == 0
  }

  predicate AllWrap(stored: seq<int>, xs: seq<int>) {
    |stored| == |xs| && forall i :: 0 <= i < |xs| ==> Wraps(stored[i], xs[i])
  }

  lemma WrapExactly(x: int)
    ensures Wraps(ToInt32(x), x)
  {
    assert (x + TWO_31) % TWO_32 == (x + TWO_31) - TWO_32 * ((x + TWO_31) / TWO_32);
    assert ToInt32(x) - x == TWO_32 * -((x + TWO_31) / TWO_32);
  }

  lemma StoredWraps(xs: seq<int>)
    ensures AllWrap(Stored(xs), xs)
  {
    forall i | 0 <= i < |xs| ensures Wraps(Stored(xs)[i], xs[i]) { WrapExactly(xs[i]); }
  }

  /** The role texts shown for the slots: the lists themselves, or each code's text in the dictionary. */
  predicate SpellsOut(roles: EdgeRoles, a: seq<string>, b: seq<string>) {
    match roles
    case Plain(roleA, roleB) => a == roleA && b == roleB
    case Coded(dict, codeA, codeB) =>
      && |a| == |codeA| && (forall s :: 0 <= s < |a| ==> 0 <= codeA[s] < |dict| && a[s] == dict[codeA[s]])
      && |b| == |codeB| && (forall s :: 0 <= s < |b| ==> 0 <= codeB[s] < |dict| && b[s] == dict[codeB[s]])
  }

  /** What is handed out, array by array. */
  predicate HandsOut(raw: RawGraph, g: LoadedGraph) {
    && AllWrap(g.nodeIds, raw.nodeIds) && AllWrap(g.offsets, raw.offsets) && AllWrap(g.neighbors, raw.neighbors)
    && AllWrap(g.evidenceReleaseIds, raw.evidenceReleaseIds)
    && g.names == raw.names && g.albumVirtualNodes == raw.albumVirtualNodes
    && SpellsOut(raw.edgeRoles, g.edgeRoleA, g.edgeRoleB)
  }

  lemma LoadedHandsOut(raw: RawGraph)
    requires RowsFit(raw)
    ensures HandsOut(raw, Loaded(raw))
  {
    StoredWraps(raw.nodeIds);
    StoredWraps(raw.offsets);
    StoredWraps(raw.neighbors);
    StoredWraps(raw.evidenceReleaseIds);
  }

  predicate FitsInt32(raw: RawGraph) {
    AllInt32(raw.nodeIds) && AllInt32(raw.offsets) && AllInt32(raw.neighbors) && AllInt32(raw.evidenceReleaseIds)
  }

  /** The graph handed out is the graph that was checked exactly when every number fits 32 bits. */
  lemma LoadedIsDecoded(raw: RawGraph)
    requires RowsFit(raw)
    ensures Loaded(raw) == Holding(Decoded(raw)) <==> FitsInt32(raw)
  {
    StoredUnchanged(raw.nodeIds);
    StoredUnchanged(raw.offsets);
    StoredUnchanged(raw.neighbors);
    StoredUnchanged(raw.evidenceReleaseIds);
  }

  method StoreInt32(xs: seq<int>) returns (r: seq<int>)
    ensures r == Stored(xs)
  {
    r := [];
    for i := 0 to |xs|
      invariant r == Stored(xs)[..i]
    {
      r := r + [ToInt32(xs[i])];
    }
  }

  method Validate(raw: RawGraph) returns (r: Option<LoadedGraph>)
    ensures r.Some? <==> Acceptable(raw)
    ensures r.Some? ==> RowsFit(raw) && r.value == Loaded(raw) && HandsOut(raw, r.value)
    ensures r.Some? && FitsInt32(raw) ==>
      var g := Decoded(raw);
      r.value == Holding(g) && SortedIds(g) && RowsInRange(g) && (raw.schemaVersion >= 2 ==> WellFormed(g))
  {
    if raw.schemaVersion !in {1, 2, 3, 4} { return None; }
    if (raw.schemaVersion == 4) != raw.edgeRoles.Coded? { return None; }
    var rows := CheckRows(raw);
    if !rows { return None; }
    DecodedRows(raw);
    var g := Decoded(raw);
    if raw.schemaVersion >= 2 {
      var albums := CheckAlbums(g);
      if !albums { return None; }
      var sentinels := CheckSentinels(g);
      if !sentinels { return None; }
    }
    LoadedIsDecoded(raw);
    LoadedHandsOut(raw);
    var nodeIds := StoreInt32(raw.nodeIds);
    var offsets := StoreInt32(raw.offsets);
    var neighbors := StoreInt32(raw.neighbors);
    var releaseIds := StoreInt32(raw.evidenceReleaseIds);
    r := Some(LoadedGraph(nodeIds, raw.names, offsets, neighbors, releaseIds,
                          TextA(raw.edgeRoles, |raw.neighbors|), TextB(raw.edgeRoles, |raw.neighbors|), raw.albumVirtualNodes));
  }

  // ---------- What wrapping breaks ----------

  const APART := RawGraph(1, [0, TWO_32], ["", ""], [0, 0, 0], [], [], Plain([], []), [])

  /** Two ids a whole turn apart are accepted and come out the same. */
  lemma WrappedIdsCollide()
    ensures RowsFit(APART) && Acceptable(APART) && Loaded(APART).nodeIds == [0, 0]
  {
    assert RowsFit(APART);
    assert Stored(APART.nodeIds) == [0, 0];
  }

  /** No well-formed graph, whatever its other parts, holds the arrays handed out. */
  ghost predicate Broken(raw: RawGraph)
    requires RowsFit(raw)
  {
    forall g :: Holding(g) == Loaded(raw) ==> !WellFormed(g)
  }

  const ACROSS := RawGraph(3, [1, TWO_31], ["", ""], [0, 1, 2], [1, 0], [7, 7], Plain(["a", "b"], ["b", "a"]), [])

  lemma AcrossPasses()
    ensures RowsFit(ACROSS) && Acceptable(ACROSS)
    ensures Stored(ACROSS.nodeIds) == [1, -TWO_31]
    ensures Stored(ACROSS.offsets) == [0, 1, 2] && Stored(ACROSS.neighbors) == [1, 0]
  {
    assert RowsFit(ACROSS);
    DecodedRows(ACROSS);
    var g := Decoded(ACROSS);
    forall n: nat, s: nat | InRow(g, n, s) ensures SlotSides(g, n, s) {
      assert g.edgeRoleA[s] in {"a", "b"} && g.edgeRoleB[s] in {"a", "b"};
    }
  }

  /** A real person's id past the 32-bit range comes out virtual, on an edge without the sentinel. */
  lemma WrappedPersonLooksVirtual()
    ensures RowsFit(ACROSS) && Acceptable(ACROSS) && Broken(ACROSS)
  {
    AcrossPasses();
    forall g | Holding(g) == Loaded(ACROSS) ensures !WellFormed(g) {
      assert g.nodeIds == [1, -TWO_31];
      assert Ints(g.offsets) == [0, 1, 2] && Ints(g.neighbors) == [1, 0] && g.edgeRoleB == ["b", "a"];
      if RowsInRange(g) {
        assert GoodRow(g, 0);
        assert InRow(g, 0, 0);
        assert Virtual(g, g.neighbors[0]) && g.edgeRoleB[0] != ALBUM_ANCHOR_SENTINEL;
      }
    }
  }

  const BELOW := RawGraph(3, [-TWO_31 - 1], [""], [0, 0], [], [], Plain([], []), [AlbumVirtualNode("x", -TWO_31 - 1, 7)])

  /** A virtual id below the 32-bit range is listed for an album and names no node any more. */
  lemma WrappedAlbumIsLost()
    ensures RowsFit(BELOW) && Acceptable(BELOW) && Broken(BELOW)
  {
    assert RowsFit(BELOW);
    DecodedRows(BELOW);
    assert BELOW.nodeIds[0] in Decoded(BELOW).nodeIds;
    assert Stored(BELOW.nodeIds) == [TWO_31 - 1];
    forall g | Holding(g) == Loaded(BELOW) ensures !WellFormed(g) {
      assert g.albumVirtualNodes == [AlbumVirtualNode("x", -TWO_31 - 1, 7)];
      assert g.albumVirtualNodes[0].virtualArtistId !in g.nodeIds;
    }
  }

  // ---------- The dictionary is a wire format only ----------

  /** The same payload with its role text written out. */
  function Spelled(raw: RawGraph): RawGraph
    requires RolesFit(raw.edgeRoles, |raw.neighbors|)
  {
    raw.(schemaVersion := 3,
         edgeRoles := Plain(TextA(raw.edgeRoles, |raw.neighbors|), TextB(raw.edgeRoles, |raw.neighbors|)))
  }

  /** A coded graph is accepted exactly when its spelled-out form is, and loads as the same graph. */
  lemma CodedLoadsAsPlain(raw: RawGraph)
    requires raw.schemaVersion == 4 && raw.edgeRoles.Coded? && RolesFit(raw.edgeRoles, |raw.neighbors|)
    ensures Acceptable(raw) <==> Acceptable(Spelled(raw))
    ensures Acceptable(raw) ==> Decoded(raw) == Decoded(Spelled(raw)) && Loaded(raw) == Loaded(Spelled(raw))
  {
    var plain := Spelled(raw);
    assert RowsFit(raw) <==> RowsFit(plain);
    if RowsFit(raw) { assert Decoded(raw) == Decoded(plain); }
  }
}
