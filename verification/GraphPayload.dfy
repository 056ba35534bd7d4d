/** The whole graph validator, from any JSON to a graph or to nothing, and what a version says of a graph. */
module GraphPayload {
  import opened Text
  import opened Json
  import opened JsonEquality
  import opened PythonValues
  import opened ContentHashes
  import opened PathfindingGraph
  import opened GraphValidator

  // ---------- Typed values ----------

  predicate IntegerArray(v: Json) {
    v.Arr? && forall i :: 0 <= i < |v.items| ==> v.items[i].Num?
  }

  predicate StringArray(v: Json) {
    v.Arr? && forall i :: 0 <= i < |v.items| ==> v.items[i].Str?
  }

  function Integers(v: Json): seq<int>
    requires IntegerArray(v)
  {
    seq(|v.items|, i requires 0 <= i < |v.items| => v.items[i].n)
  }

  function Strings(v: Json): seq<string>
    requires StringArray(v)
  {
    seq(|v.items|, i requires 0 <= i < |v.items| => v.items[i].s)
  }

  predicate NonEmptyText(v: Json) { v.Str? && v.s != "" }

  // ---------- Keys ----------

  const HEAD_KEYS := [
    "schema_version", "catalog_version", "snapshot_date", "generated_at", "source", "license", "pathfinding_graph_version"]

  const IDENTITY_KEYS := ["node_ids", "names", "offsets", "neighbors", "evidence_release_ids", "edge_role_a", "edge_role_b"]

  const BASE_KEYS := HEAD_KEYS + IDENTITY_KEYS

  function LaterKeys(schema: int): seq<string> {
    (if schema >= 2 then ["album_virtual_nodes"] else [])
    + (if schema >= 3 then ["graph_policy_version"] else [])
    + (if schema == 4 then ["roles"] else [])
  }

  function SetOf(keys: seq<string>): set<string> {
    set k | k in keys
  }

  predicate HasKeys(v: Json, keys: set<string>) {
    v.Obj? && Keys(v.fields) == keys
  }

  const ALBUM_KEYS := {"album_id", "virtual_artist_id", "main_release_id"}

  predicate AlbumEntry(e: Json) {
    HasKeys(e, ALBUM_KEYS) && Member(e, "album_id").Str?
    && Member(e, "virtual_artist_id").Num? && Member(e, "main_release_id").Num?
  }

  function Entry(e: Json): AlbumVirtualNode
    requires AlbumEntry(e)
  {
    AlbumVirtualNode(Member(e, "album_id").s, Member(e, "virtual_artist_id").n, Member(e, "main_release_id").n)
  }

  predicate EntryArray(v: Json) {
    v.Arr? && forall i :: 0 <= i < |v.items| ==> AlbumEntry(v.items[i])
  }

  function Entries(v: Json): seq<AlbumVirtualNode>
    requires EntryArray(v)
  {
    seq(|v.items|, i requires 0 <= i < |v.items| => Entry(v.items[i]))
  }

  // ---------- Payloads ----------

  function Schema(v: Json): int {
    var s := Member(v, "schema_version");
    if s.Num? then s.n else 0
  }

  predicate Described(v: Json) {
    && NonEmptyText(Member(v, "catalog_version")) && NonEmptyText(Member(v, "snapshot_date"))
    && NonEmptyText(Member(v, "generated_at")) && NonEmptyText(Member(v, "source"))
    && NonEmptyText(Member(v, "license")) && NonEmptyText(Member(v, "pathfinding_graph_version"))
  }

  predicate RolesTyped(v: Json) {
    if Schema(v) == 4
    then StringArray(Member(v, "roles")) && IntegerArray(Member(v, "edge_role_a")) && IntegerArray(Member(v, "edge_role_b"))
    else StringArray(Member(v, "edge_role_a")) && StringArray(Member(v, "edge_role_b"))
  }

  /** The keys of its schema version, with values of their types. */
  predicate Typed(v: Json) {
    && 1 <= Schema(v) <= 4 && HasKeys(v, SetOf(BASE_KEYS + LaterKeys(Schema(v))))
    && IntegerArray(Member(v, "node_ids")) && StringArray(Member(v, "names"))
    && IntegerArray(Member(v, "offsets")) && IntegerArray(Member(v, "neighbors"))
    && IntegerArray(Member(v, "evidence_release_ids")) && RolesTyped(v)
    && (Schema(v) >= 3 ==> Member(v, "graph_policy_version").Num?)
    && (Schema(v) >= 2 ==> EntryArray(Member(v, "album_virtual_nodes")))
  }

  function RolesOf(v: Json): EdgeRoles
    requires RolesTyped(v)
  {
    if Schema(v) == 4
    then Coded(Strings(Member(v, "roles")), Integers(Member(v, "edge_role_a")), Integers(Member(v, "edge_role_b")))
    else Plain(Strings(Member(v, "edge_role_a")), Strings(Member(v, "edge_role_b")))
  }

  function AlbumsOf(v: Json): seq<AlbumVirtualNode>
    requires Schema(v) >= 2 ==> EntryArray(Member(v, "album_virtual_nodes"))
  {
    if Schema(v) >= 2 then Entries(Member(v, "album_virtual_nodes")) else []
  }

  /** The arrays a payload holds. */
  function RawOf(v: Json): RawGraph
    requires Typed(v)
  {
    RawGraph(Schema(v), Integers(Member(v, "node_ids")), Strings(Member(v, "names")), Integers(Member(v, "offsets")),
             Integers(Member(v, "neighbors")), Integers(Member(v, "evidence_release_ids")), RolesOf(v),
             AlbumsOf(v))
  }

  function PolicyOf(v: Json): int
    requires Schema(v) >= 3 ==> Member(v, "graph_policy_version").Num?
  {
    if Schema(v) >= 3 then Member(v, "graph_policy_version").n else 1
  }

  // ---------- The version ----------

  /** The members of `v` under the given keys. */
  function Picked(v: Json, keys: seq<string>): (r: seq<Field>)
    ensures |r| == |keys|
  {
    seq(|keys|, i requires 0 <= i < |keys| => Field(keys[i], Member(v, keys[i])))
  }

  /** What the version is a digest of. */
  function Identity(v: Json): Json {
    Obj(Picked(v, IDENTITY_KEYS + LaterKeys(Schema(v))))
  }

  function VersionHead(schema: int): string {
    "pathfinding-graph-v" + IntText(schema) + "-"
  }

  function GraphVersion(sha: string -> string, v: Json): string {
    VersionHead(Schema(v)) + (var date := Member(v, "snapshot_date"); if date.Str? then date.s else "") + "-"
    + ContentHash(sha, Identity(v), 12)
  }

  predicate IsAlnum(c: char) {
    '0' <= c <= '9' || 'A' <= c <= 'Z' || 'a' <= c <= 'z'
  }

  predicate AlnumText(s: string) {
    s != "" && forall i :: 0 <= i < |s| ==> IsAlnum(s[i])
  }

  /** `^head[0-9A-Za-z]+-[0-9a-f]{12}$`. */
  predicate VersionShaped(head: string, s: string) {
    var mid := |s| - 13;
    && |head| < mid && s[..|head|] == head && AlnumText(s[|head|..mid]) && s[mid] == '-'
    && forall i :: mid < i < |s| ==> IsHex(s[i])
  }

  ghost predicate AcceptedPayload(sha: string -> string, v: Json) {
    && Typed(v) && Described(v) && Acceptable(RawOf(v)) && PolicyOf(v) >= 1
    && var version := Member(v, "pathfinding_graph_version").s;
      VersionShaped(VersionHead(Schema(v)), version) && version == GraphVersion(sha, v)
  }

  // ---------- What is loaded ----------

  /** The loaded numbers are those of a list of the payload, in 32 bits. */
  predicate HoldsIntegers(xs: seq<int>, v: Json) {
    v.Arr? && |xs| == |v.items| && forall i :: 0 <= i < |xs| ==> v.items[i].Num? && Wraps(xs[i], v.items[i].n)
  }

  predicate HoldsStrings(xs: seq<string>, v: Json) {
    v.Arr? && |xs| == |v.items| && forall i :: 0 <= i < |xs| ==> v.items[i] == Str(xs[i])
  }

  /** The loaded texts are those the payload's codes stand for. */
  predicate HoldsCoded(xs: seq<string>, codes: Json, roles: Json) {
    codes.Arr? && roles.Arr? && |xs| == |codes.items|
    && forall i :: 0 <= i < |xs| ==>
      codes.items[i].Num? && 0 <= codes.items[i].n < |roles.items| && roles.items[codes.items[i].n] == Str(xs[i])
  }

  predicate HoldsAlbums(xs: seq<AlbumVirtualNode>, v: Json) {
    v.Arr? && |xs| == |v.items|
    && forall i :: 0 <= i < |xs| ==>
      && Member(v.items[i], "album_id") == Str(xs[i].albumId)
      && Member(v.items[i], "virtual_artist_id") == Num(xs[i].virtualArtistId)
      && Member(v.items[i], "main_release_id") == Num(xs[i].mainReleaseId)
  }

  /** The graph handed out holds the payload's own members. */
  predicate HoldsPayload(v: Json, g: LoadedGraph) {
    && HoldsIntegers(g.nodeIds, Member(v, "node_ids")) && HoldsStrings(g.names, Member(v, "names"))
    && HoldsIntegers(g.offsets, Member(v, "offsets")) && HoldsIntegers(g.neighbors, Member(v, "neighbors"))
    && HoldsIntegers(g.evidenceReleaseIds, Member(v, "evidence_release_ids"))
    && (if Member(v, "schema_version") == Num(4)
        then HoldsCoded(g.edgeRoleA, Member(v, "edge_role_a"), Member(v, "roles"))
             && HoldsCoded(g.edgeRoleB, Member(v, "edge_role_b"), Member(v, "roles"))
        else HoldsStrings(g.edgeRoleA, Member(v, "edge_role_a")) && HoldsStrings(g.edgeRoleB, Member(v, "edge_role_b")))
    && (if Member(v, "schema_version") == Num(1) then g.albumVirtualNodes == []
        else HoldsAlbums(g.albumVirtualNodes, Member(v, "album_virtual_nodes")))
  }

  lemma CodesHeld(xs: seq<string>, codes: Json, roles: Json)
    requires IntegerArray(codes) && StringArray(roles) && |xs| == |codes.items|
    requires forall i :: 0 <= i < |xs| ==> 0 <= Integers(codes)[i] < |roles.items| && xs[i] == Strings(roles)[Integers(codes)[i]]
    ensures HoldsCoded(xs, codes, roles)
  {
    forall i | 0 <= i < |xs|
      ensures codes.items[i].Num? && 0 <= codes.items[i].n < |roles.items| && roles.items[codes.items[i].n] == Str(xs[i])
    {
      assert Integers(codes)[i] == codes.items[i].n;
    }
  }

  lemma RolesHeld(v: Json, a: seq<string>, b: seq<string>)
    requires RolesTyped(v) && SpellsOut(RolesOf(v), a, b)
    ensures if Schema(v) == 4
      then HoldsCoded(a, Member(v, "edge_role_a"), Member(v, "roles")) && HoldsCoded(b, Member(v, "edge_role_b"), Member(v, "roles"))
      else HoldsStrings(a, Member(v, "edge_role_a")) && HoldsStrings(b, Member(v, "edge_role_b"))
  {
    if Schema(v) == 4 {
      CodesHeld(a, Member(v, "edge_role_a"), Member(v, "roles"));
      CodesHeld(b, Member(v, "edge_role_b"), Member(v, "roles"));
    }
  }

  lemma AlbumsHeld(v: Json, xs: seq<AlbumVirtualNode>)
    requires EntryArray(v) && xs == Entries(v)
    ensures HoldsAlbums(xs, v)
  {
    forall i | 0 <= i < |xs| ensures AlbumEntry(v.items[i]) && xs[i] == Entry(v.items[i]) { }
  }

  lemma PayloadHeld(v: Json, g: LoadedGraph)
    requires Typed(v) && HandsOut(RawOf(v), g)
    ensures HoldsPayload(v, g)
  {
    RolesHeld(v, g.edgeRoleA, g.edgeRoleB);
    if Schema(v) >= 2 { AlbumsHeld(Member(v, "album_virtual_nodes"), g.albumVirtualNodes); }
  }

  // ---------- The checks, as the loader makes them ----------

  lemma KeyIsNew(fields: seq<Field>)
    requires DistinctKeys(fields) && fields != []
    ensures Keys(fields) == {fields[0].key} + Keys(fields[1..]) && fields[0].key !in Keys(fields[1..])
  {
    var rest := fields[1..];
    assert fields == [fields[0]] + rest;
    forall f | f in rest ensures f.key != fields[0].key {
      var i :| 0 <= i < |rest| && rest[i] == f;
      assert fields[i + 1] == f;
    }
  }

  lemma {:induction false} KeysCount(fields: seq<Field>)
    requires DistinctKeys(fields)
    ensures |Keys(fields)| == |fields|
  {
    if fields != [] {
      KeyIsNew(fields);
      KeysCount(fields[1..]);
    }
  }

  lemma SameSize<T>(a: set<T>, b: set<T>)
    requires a <= b && |a| == |b|
    ensures a == b
  {
    assert |b - a| == 0;
  }

  /** As many keys as expected, and none unexpected. */
  method CheckKeys(v: Json, expected: set<string>) returns (ok: bool)
    requires Proper(v)
    ensures ok <==> HasKeys(v, expected)
  {
    if !v.Obj? { return false; }
    KeysCount(v.fields);
    if |v.fields| != |expected| { return false; }
    for i := 0 to |v.fields|
      invariant forall j :: 0 <= j < i ==> v.fields[j].key in expected
    {
      if v.fields[i].key !in expected {
        assert v.fields[i].key in Keys(v.fields);
        return false;
      }
    }
    SameSize(Keys(v.fields), expected);
    ok := true;
  }

  method CheckEntries(v: Json) returns (ok: bool)
    requires Proper(v)
    ensures ok <==> EntryArray(v)
  {
    if !v.Arr? { return false; }
    for i := 0 to |v.items|
      invariant forall j :: 0 <= j < i ==> AlbumEntry(v.items[j])
    {
      var e := v.items[i];
      var keys := CheckKeys(e, ALBUM_KEYS);
      if !keys { return false; }
      if !Member(e, "album_id").Str? { return false; }
      if !Member(e, "virtual_artist_id").Num? { return false; }
      if !Member(e, "main_release_id").Num? { return false; }
    }
    ok := true;
  }

  lemma ProperMember(v: Json, key: string)
    requires Proper(v)
    ensures Proper(Member(v, key))
  {
    if v.Obj? && key in Keys(v.fields) { ProperValue(v.fields, key); }
  }

  method CheckTypes(v: Json) returns (ok: bool)
    requires Proper(v)
    ensures ok <==> Typed(v)
  {
    var schema := Schema(v);
    if schema != 1 && schema != 2 && schema != 3 && schema != 4 { return false; }
    var keys := CheckKeys(v, SetOf(BASE_KEYS + LaterKeys(schema)));
    if !keys { return false; }
    if !IntegerArray(Member(v, "node_ids")) || !StringArray(Member(v, "names")) { return false; }
    if !IntegerArray(Member(v, "offsets")) || !IntegerArray(Member(v, "neighbors")) { return false; }
    if !IntegerArray(Member(v, "evidence_release_ids")) || !RolesTyped(v) { return false; }
    if schema >= 3 && !Member(v, "graph_policy_version").Num? { return false; }
    if schema >= 2 {
      ProperMember(v, "album_virtual_nodes");
      var entries := CheckEntries(Member(v, "album_virtual_nodes"));
      if !entries { return false; }
    }
    ok := true;
  }

  /** `validatePathfindingGraph` on any parsed JSON. */
  method ValidatePathfindingGraph(sha: string -> string, v: Json) returns (r: Option<LoadedGraph>)
    requires Proper(v)
    ensures r.Some? <==> AcceptedPayload(sha, v)
    ensures r.Some? ==> Typed(v) && RowsFit(RawOf(v)) && r.value == Loaded(RawOf(v)) && HoldsPayload(v, r.value)
    ensures r.Some? && FitsInt32(RawOf(v)) ==>
      var g := Decoded(RawOf(v));
      r.value == Holding(g) && SortedIds(g) && RowsInRange(g) && (Schema(v) >= 2 ==> WellFormed(g))
  {
    var types := CheckTypes(v);
    if !types { return None; }
    if !Described(v) { return None; }
    var loaded := Validate(RawOf(v));
    if loaded.None? { return None; }
    if PolicyOf(v) < 1 { return None; }
    var version := Member(v, "pathfinding_graph_version").s;
    if !VersionShaped(VersionHead(Schema(v)), version) { return None; }
    if version != GraphVersion(sha, v) { return None; }
    PayloadHeld(v, loaded.value);
    r := loaded;
  }

  // ---------- What a version pins ----------

  lemma SameIntegers(v: Json, w: Json)
    requires IntegerArray(v) && IntegerArray(w)
    ensures Same(v, w) <==> Integers(v) == Integers(w)
  {
    if Same(v, w) {
      forall i | 0 <= i < |v.items| ensures Integers(v)[i] == Integers(w)[i] { assert Alike(false, v.items[i], w.items[i]); }
    } else if Integers(v) == Integers(w) {
      assert |v.items| == |Integers(v)| == |Integers(w)| == |w.items|;
      forall i | 0 <= i < |v.items| ensures v.items[i] == w.items[i] { assert Integers(v)[i] == Integers(w)[i]; }
      assert v.items == w.items;
      Reflexive(false, v);
    }
  }

  lemma SameStrings(v: Json, w: Json)
    requires StringArray(v) && StringArray(w)
    ensures Same(v, w) <==> Strings(v) == Strings(w)
  {
    if Same(v, w) {
      forall i | 0 <= i < |v.items| ensures Strings(v)[i] == Strings(w)[i] { assert Alike(false, v.items[i], w.items[i]); }
    } else if Strings(v) == Strings(w) {
      assert |v.items| == |Strings(v)| == |Strings(w)| == |w.items|;
      forall i | 0 <= i < |v.items| ensures v.items[i] == w.items[i] { assert Strings(v)[i] == Strings(w)[i]; }
      assert v.items == w.items;
      Reflexive(false, v);
    }
  }

  lemma SameEntry(d: Json, e: Json)
    requires AlbumEntry(d) && AlbumEntry(e)
    ensures Same(d, e) <==> Entry(d) == Entry(e)
  {
    SameObjects(d, e, ALBUM_KEYS);
    var m := k => Same(Member(d, k), Member(e, k));
    assert "album_id" in ALBUM_KEYS && "virtual_artist_id" in ALBUM_KEYS && "main_release_id" in ALBUM_KEYS;
    assert m("album_id") <==> Entry(d).albumId == Entry(e).albumId;
    assert m("virtual_artist_id") <==> Entry(d).virtualArtistId == Entry(e).virtualArtistId;
    assert m("main_release_id") <==> Entry(d).mainReleaseId == Entry(e).mainReleaseId;
  }

  lemma SameObjects(d: Json, e: Json, keys: set<string>)
    requires HasKeys(d, keys) && HasKeys(e, keys)
    ensures Same(d, e) <==> forall k :: k in keys ==> Same(Member(d, k), Member(e, k))
  {
    assert forall k :: k in keys ==> Get(d.fields, k) == Member(d, k) && Get(e.fields, k) == Member(e, k);
  }

  lemma SameEntries(v: Json, w: Json)
    requires EntryArray(v) && EntryArray(w)
    ensures Same(v, w) <==> Entries(v) == Entries(w)
  {
    if |v.items| == |w.items| {
      forall i | 0 <= i < |v.items| ensures Same(v.items[i], w.items[i]) <==> Entries(v)[i] == Entries(w)[i] {
        SameEntry(v.items[i], w.items[i]);
      }
    }
  }

  lemma PickedReads(v: Json, keys: seq<string>)
    requires Distinct(keys)
    ensures DistinctKeys(Picked(v, keys)) && Keys(Picked(v, keys)) == SetOf(keys)
    ensures forall k :: k in keys ==> Get(Picked(v, keys), k) == Member(v, k)
  {
    var f := Picked(v, keys);
    forall k | k in keys ensures k in Keys(f) && Get(f, k) == Member(v, k) {
      var i :| 0 <= i < |keys| && keys[i] == k;
      assert f[i] in f;
      GetsOwnValue(f, f[i]);
    }
  }

  /** Two objects with the same members picked are equal up to key order exactly when each member is. */
  lemma SamePicked(v: Json, w: Json, keys: seq<string>)
    requires Proper(v) && Proper(w) && Distinct(keys)
    ensures Proper(Obj(Picked(v, keys))) && Proper(Obj(Picked(w, keys)))
    ensures Same(Obj(Picked(v, keys)), Obj(Picked(w, keys))) <==> forall k :: k in keys ==> Same(Member(v, k), Member(w, k))
  {
    PickedReads(v, keys);
    PickedReads(w, keys);
    forall i | 0 <= i < |keys| ensures Proper(Member(v, keys[i])) && Proper(Member(w, keys[i])) {
      ProperMember(v, keys[i]);
      ProperMember(w, keys[i]);
    }
  }

  predicate Agree(v: Json, w: Json, key: string) {
    Same(Member(v, key), Member(w, key))
  }

  /** Length, first and last letter tell the keys apart. */
  function Mark(key: string): (int, char, char) {
    if key == "" then (0, ' ', ' ') else (|key|, key[0], key[|key| - 1])
  }

  lemma DistinctByMark(keys: seq<string>, marks: seq<(int, char, char)>)
    requires |marks| == |keys| && forall i :: 0 <= i < |keys| ==> Mark(keys[i]) == marks[i]
    requires forall i, j :: 0 <= i < j < |marks| ==> marks[i] != marks[j]
    ensures Distinct(keys)
  {
    forall i, j | 0 <= i < j < |keys| ensures keys[i] != keys[j] {
      assert marks[i] != marks[j];
    }
  }

  lemma IdentityKeysDistinct(schema: int)
    ensures Distinct(IDENTITY_KEYS + LaterKeys(schema))
  {
    DistinctByMark(IDENTITY_KEYS, [(8, 'n', 's'), (5, 'n', 's'), (7, 'o', 's'), (9, 'n', 's'), (20, 'e', 's'), (11, 'e', 'a'), (11, 'e', 'b')]);
    LaterKeysDistinct(schema);
    forall k | k in IDENTITY_KEYS ensures k !in LaterKeys(schema) {
      var i :| 0 <= i < |IDENTITY_KEYS| && IDENTITY_KEYS[i] == k;
    }
  }

  lemma LaterKeysDistinct(schema: int)
    ensures Distinct(LaterKeys(schema))
    ensures forall k :: k in LaterKeys(schema) ==> Mark(k) in {(19, 'a', 's'), (20, 'g', 'n'), (5, 'r', 's')}
  {
  }

  lemma EachIdentityKey(p: string -> bool)
    ensures (forall k :: k in IDENTITY_KEYS ==> p(k)) <==>
      p("node_ids") && p("names") && p("offsets") && p("neighbors") && p("evidence_release_ids") && p("edge_role_a") && p("edge_role_b")
  {
    var keys := IDENTITY_KEYS;
    assert keys[0] == "node_ids" && keys[1] == "names" && keys[2] == "offsets" && keys[3] == "neighbors"
      && keys[4] == "evidence_release_ids" && keys[5] == "edge_role_a" && keys[6] == "edge_role_b";
  }

  lemma EachLaterKey(schema: int, p: string -> bool)
    requires 1 <= schema <= 4
    ensures (forall k :: k in LaterKeys(schema) ==> p(k)) <==>
      (schema >= 2 ==> p("album_virtual_nodes")) && (schema >= 3 ==> p("graph_policy_version")) && (schema == 4 ==> p("roles"))
  {
    assert schema >= 2 ==> "album_virtual_nodes" in LaterKeys(schema);
    assert schema >= 3 ==> "graph_policy_version" in LaterKeys(schema);
    assert schema == 4 ==> "roles" in LaterKeys(schema);
  }

  ghost predicate SameRows(a: RawGraph, b: RawGraph) {
    a.nodeIds == b.nodeIds && a.names == b.names && a.offsets == b.offsets && a.neighbors == b.neighbors
    && a.evidenceReleaseIds == b.evidenceReleaseIds
  }

  lemma RowsAgree(v: Json, w: Json)
    requires Typed(v) && Typed(w)
    ensures SameRows(RawOf(v), RawOf(w)) <==>
      Agree(v, w, "node_ids") && Agree(v, w, "names") && Agree(v, w, "offsets") && Agree(v, w, "neighbors")
      && Agree(v, w, "evidence_release_ids")
  {
    SameIntegers(Member(v, "node_ids"), Member(w, "node_ids"));
    SameStrings(Member(v, "names"), Member(w, "names"));
    SameIntegers(Member(v, "offsets"), Member(w, "offsets"));
    SameIntegers(Member(v, "neighbors"), Member(w, "neighbors"));
    SameIntegers(Member(v, "evidence_release_ids"), Member(w, "evidence_release_ids"));
  }

  lemma RolesAgree(v: Json, w: Json)
    requires RolesTyped(v) && RolesTyped(w) && Schema(v) == Schema(w)
    ensures RolesOf(v) == RolesOf(w) <==>
      Agree(v, w, "edge_role_a") && Agree(v, w, "edge_role_b") && (Schema(v) == 4 ==> Agree(v, w, "roles"))
  {
    if Schema(v) == 4 {
      SameIntegers(Member(v, "edge_role_a"), Member(w, "edge_role_a"));
      SameIntegers(Member(v, "edge_role_b"), Member(w, "edge_role_b"));
      SameStrings(Member(v, "roles"), Member(w, "roles"));
    } else {
      SameStrings(Member(v, "edge_role_a"), Member(w, "edge_role_a"));
      SameStrings(Member(v, "edge_role_b"), Member(w, "edge_role_b"));
    }
  }

  lemma AlbumsAgree(v: Json, w: Json)
    requires Schema(v) >= 2 ==> EntryArray(Member(v, "album_virtual_nodes")) && EntryArray(Member(w, "album_virtual_nodes"))
    requires Schema(v) == Schema(w)
    ensures AlbumsOf(v) == AlbumsOf(w) <==> (Schema(v) >= 2 ==> Agree(v, w, "album_virtual_nodes"))
  {
    if Schema(v) >= 2 { SameEntries(Member(v, "album_virtual_nodes"), Member(w, "album_virtual_nodes")); }
  }

  lemma PoliciesAgree(v: Json, w: Json)
    requires Schema(v) >= 3 ==> Member(v, "graph_policy_version").Num? && Member(w, "graph_policy_version").Num?
    requires Schema(v) == Schema(w)
    ensures PolicyOf(v) == PolicyOf(w) <==> (Schema(v) >= 3 ==> Agree(v, w, "graph_policy_version"))
  {
  }

  /** The identities of two payloads agree member by member. */
  ghost predicate MembersAgree(v: Json, w: Json) {
    && (forall k :: k in IDENTITY_KEYS ==> Agree(v, w, k))
    && (forall k :: k in LaterKeys(Schema(v)) ==> Agree(v, w, k))
  }

  lemma PickedAgree(v: Json, w: Json, keys: seq<string>, more: seq<string>)
    requires Proper(v) && Proper(w) && Distinct(keys + more)
    ensures var a, b := Obj(Picked(v, keys + more)), Obj(Picked(w, keys + more));
      Proper(a) && Proper(b) && (Same(a, b) <==>
        (forall k :: k in keys ==> Agree(v, w, k)) && (forall k :: k in more ==> Agree(v, w, k)))
  {
    SamePicked(v, w, keys + more);
    forall k ensures k in keys + more <==> k in keys || k in more { }
    assert (forall k :: k in keys + more ==> Agree(v, w, k)) <==>
      (forall k :: k in keys ==> Agree(v, w, k)) && (forall k :: k in more ==> Agree(v, w, k));
  }

  lemma IdentitiesAgree(v: Json, w: Json)
    requires Proper(v) && Proper(w) && Schema(v) == Schema(w)
    ensures Proper(Identity(v)) && Proper(Identity(w))
    ensures Same(Identity(v), Identity(w)) <==> MembersAgree(v, w)
  {
    IdentityKeysDistinct(Schema(v));
    PickedAgree(v, w, IDENTITY_KEYS, LaterKeys(Schema(v)));
  }

  ghost predicate SameGraph(v: Json, w: Json)
    requires Typed(v) && Typed(w)
  {
    RawOf(v) == RawOf(w) && PolicyOf(v) == PolicyOf(w)
  }

  lemma MembersOneByOne(v: Json, w: Json)
    requires 1 <= Schema(v) <= 4
    ensures MembersAgree(v, w) <==>
      && Agree(v, w, "node_ids") && Agree(v, w, "names") && Agree(v, w, "offsets") && Agree(v, w, "neighbors")
      && Agree(v, w, "evidence_release_ids") && Agree(v, w, "edge_role_a") && Agree(v, w, "edge_role_b")
      && (Schema(v) >= 2 ==> Agree(v, w, "album_virtual_nodes")) && (Schema(v) >= 3 ==> Agree(v, w, "graph_policy_version"))
      && (Schema(v) == 4 ==> Agree(v, w, "roles"))
  {
    var p := k => Agree(v, w, k);
    EachIdentityKey(p);
    EachLaterKey(Schema(v), p);
    assert forall k :: p(k) <==> Agree(v, w, k);
  }

  lemma GraphPartByPart(v: Json, w: Json)
    requires Typed(v) && Typed(w) && Schema(v) == Schema(w)
    ensures SameGraph(v, w) <==>
      SameRows(RawOf(v), RawOf(w)) && RolesOf(v) == RolesOf(w) && AlbumsOf(v) == AlbumsOf(w) && PolicyOf(v) == PolicyOf(w)
  {
  }

  lemma GraphsAgree(v: Json, w: Json)
    requires Typed(v) && Typed(w) && Schema(v) == Schema(w)
    ensures SameGraph(v, w) <==> MembersAgree(v, w)
  {
    GraphPartByPart(v, w);
    MembersOneByOne(v, w);
    RowsAgree(v, w);
    RolesAgree(v, w);
    AlbumsAgree(v, w);
    PoliciesAgree(v, w);
  }

  lemma OneDigit(schema: int)
    requires 1 <= schema <= 4
    ensures IntText(schema) == [DIGITS[schema]] && |VersionHead(schema)| == 21
    ensures VersionHead(schema) == "pathfinding-graph-v" + [DIGITS[schema]] + "-"
  {
  }

  /** A version text falls apart in one way only. */
  lemma VersionParts(x: int, d: string, t: string, y: int, e: string, u: string)
    requires 1 <= x <= 4 && 1 <= y <= 4 && |t| == |u|
    requires VersionHead(x) + d + "-" + t == VersionHead(y) + e + "-" + u
    ensures x == y && d == e && t == u
  {
    var s, r := VersionHead(x) + d + "-" + t, VersionHead(y) + e + "-" + u;
    OneDigit(x);
    OneDigit(y);
    SameTail(VersionHead(x) + d + "-", VersionHead(y) + e + "-", t, u);
    assert s[19] == DIGITS[x] && r[19] == DIGITS[y];
    assert d == s[21..21 + |d|] && e == r[21..21 + |e|];
  }

  lemma VersionSays(sha: string -> string, v: Json)
    requires Digest(sha) && AcceptedPayload(sha, v)
    ensures var date, hash := Member(v, "snapshot_date").s, ContentHash(sha, Identity(v), 12);
      |hash| == 12 && Member(v, "pathfinding_graph_version") == Str(VersionHead(Schema(v)) + date + "-" + hash)
  {
  }

  /** Two accepted payloads carry one version exactly when they are of one schema and snapshot date
      and hold the same graph. */
  lemma VersionPinsGraph(sha: string -> string, v: Json, w: Json)
    requires Digest(sha) && Proper(v) && Proper(w) && AcceptedPayload(sha, v) && AcceptedPayload(sha, w)
    requires Distinguished(sha, 12, Identity(v), Identity(w))
    ensures Member(v, "pathfinding_graph_version") == Member(w, "pathfinding_graph_version") <==>
      Member(v, "snapshot_date") == Member(w, "snapshot_date") && SameGraph(v, w)
  {
    VersionSays(sha, v);
    VersionSays(sha, w);
    if Schema(v) == Schema(w) {
      IdentitiesAgree(v, w);
      GraphsAgree(v, w);
      CanonicalIffSame(Identity(v), Identity(w));
    }
    if Member(v, "pathfinding_graph_version") == Member(w, "pathfinding_graph_version") {
      VersionParts(Schema(v), Member(v, "snapshot_date").s, ContentHash(sha, Identity(v), 12),
                   Schema(w), Member(w, "snapshot_date").s, ContentHash(sha, Identity(w), 12));
    }
  }

  // ---------- What it does not pin ----------

  /** The same keys, and the same under each but those of the metadata. */
  ghost predicate DiffersInMetadataOnly(v: Json, w: Json) {
    && v.Obj? && w.Obj? && Keys(v.fields) == Keys(w.fields)
    && Member(v, "schema_version") == Member(w, "schema_version")
    && Member(v, "snapshot_date") == Member(w, "snapshot_date")
    && Member(v, "pathfinding_graph_version") == Member(w, "pathfinding_graph_version")
    && (forall k :: k in IDENTITY_KEYS ==> Member(v, k) == Member(w, k))
    && (forall k :: k in LaterKeys(Schema(v)) ==> Member(v, k) == Member(w, k))
  }

  /** The four fields the version is not made from. */
  predicate MetadataTold(v: Json) {
    && NonEmptyText(Member(v, "catalog_version")) && NonEmptyText(Member(v, "generated_at"))
    && NonEmptyText(Member(v, "source")) && NonEmptyText(Member(v, "license"))
  }

  lemma PickedIsSame(v: Json, w: Json, keys: seq<string>, more: seq<string>)
    requires (forall k :: k in keys ==> Member(v, k) == Member(w, k)) && (forall k :: k in more ==> Member(v, k) == Member(w, k))
    ensures Picked(v, keys + more) == Picked(w, keys + more)
  {
    forall i | 0 <= i < |keys + more| ensures Picked(v, keys + more)[i] == Picked(w, keys + more)[i] {
      assert (keys + more)[i] in keys || (keys + more)[i] in more;
    }
  }

  lemma SameVersion(sha: string -> string, v: Json, w: Json)
    requires DiffersInMetadataOnly(v, w)
    ensures Schema(v) == Schema(w) && GraphVersion(sha, v) == GraphVersion(sha, w)
  {
    PickedIsSame(v, w, IDENTITY_KEYS, LaterKeys(Schema(v)));
  }

  lemma RowMembersSame(v: Json, w: Json)
    requires DiffersInMetadataOnly(v, w)
    ensures Member(v, "node_ids") == Member(w, "node_ids") && Member(v, "names") == Member(w, "names")
    ensures Member(v, "offsets") == Member(w, "offsets") && Member(v, "neighbors") == Member(w, "neighbors")
    ensures Member(v, "evidence_release_ids") == Member(w, "evidence_release_ids")
    ensures Member(v, "edge_role_a") == Member(w, "edge_role_a") && Member(v, "edge_role_b") == Member(w, "edge_role_b")
  {
    EachIdentityKey(k => Member(v, k) == Member(w, k));
  }

  lemma LaterMembersSame(v: Json, w: Json)
    requires DiffersInMetadataOnly(v, w) && 1 <= Schema(v) <= 4
    ensures Schema(v) >= 2 ==> Member(v, "album_virtual_nodes") == Member(w, "album_virtual_nodes")
    ensures Schema(v) >= 3 ==> Member(v, "graph_policy_version") == Member(w, "graph_policy_version")
    ensures Schema(v) == 4 ==> Member(v, "roles") == Member(w, "roles")
  {
    EachLaterKey(Schema(v), k => Member(v, k) == Member(w, k));
  }

  lemma SameTyped(v: Json, w: Json)
    requires DiffersInMetadataOnly(v, w) && Typed(v)
    ensures Typed(w) && SameGraph(v, w)
  {
    RowMembersSame(v, w);
    LaterMembersSame(v, w);
    assert Schema(w) == Schema(v);
    RolesSame(v, w);
  }

  lemma RolesSame(v: Json, w: Json)
    requires RolesTyped(v) && Schema(v) == Schema(w) && (Schema(v) == 4 ==> Member(v, "roles") == Member(w, "roles"))
    requires Member(v, "edge_role_a") == Member(w, "edge_role_a") && Member(v, "edge_role_b") == Member(w, "edge_role_b")
    ensures RolesTyped(w) && RolesOf(w) == RolesOf(v)
  {
  }

  /** Beside an accepted payload, one with the same graph, date and version and any other metadata is
      accepted exactly when that metadata is non-empty text, and the same graph is loaded from it. */
  lemma MetadataIsNotPinned(sha: string -> string, v: Json, w: Json)
    requires AcceptedPayload(sha, v) && DiffersInMetadataOnly(v, w)
    ensures Typed(w) && SameGraph(v, w)
    ensures AcceptedPayload(sha, w) <==> MetadataTold(w)
  {
    SameTyped(v, w);
    SameVersion(sha, v, w);
  }
}
