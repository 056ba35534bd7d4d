/** The other way round: a graph written out as the payload it is loaded from. */
module GraphPublishing {
  import opened Text
  import opened Json
  import opened JsonEquality
  import opened PythonValues
  import opened ContentHashes
  import opened PathfindingGraph
  import opened GraphValidator
  import opened GraphPayload

  // ---------- The payload ----------

  datatype Metadata = Metadata(catalog: string, snapshot: string, generatedAt: string, source: string, license: string, policy: int)

  function IntegerList(xs: seq<int>): (v: Json)
    ensures IntegerArray(v) && Integers(v) == xs && Proper(v)
  {
    Arr(seq(|xs|, i requires 0 <= i < |xs| => Num(xs[i])))
  }

  function StringList(xs: seq<string>): (v: Json)
    ensures StringArray(v) && Strings(v) == xs && Proper(v)
  {
    Arr(seq(|xs|, i requires 0 <= i < |xs| => Str(xs[i])))
  }

  function EntryObject(a: AlbumVirtualNode): Json {
    Obj([Field("album_id", Str(a.albumId)), Field("virtual_artist_id", Num(a.virtualArtistId)),
         Field("main_release_id", Num(a.mainReleaseId))])
  }

  lemma EntryReads(a: AlbumVirtualNode)
    ensures AlbumEntry(EntryObject(a)) && Proper(EntryObject(a)) && Entry(EntryObject(a)) == a
  {
    var f := EntryObject(a).fields;
    assert |f[0].key| == 8 && |f[1].key| == 17 && |f[2].key| == 15;
    assert DistinctKeys(f);
    MembersRead(f);
    assert f[0] == Field("album_id", Str(a.albumId)) && f[1] == Field("virtual_artist_id", Num(a.virtualArtistId))
      && f[2] == Field("main_release_id", Num(a.mainReleaseId));
    assert Keys(f) == {f[0].key, f[1].key, f[2].key};
  }

  function EntryList(xs: seq<AlbumVirtualNode>): Json {
    Arr(seq(|xs|, i requires 0 <= i < |xs| => EntryObject(xs[i])))
  }

  lemma EntryListReads(xs: seq<AlbumVirtualNode>)
    ensures var v := EntryList(xs); EntryArray(v) && Proper(v) && Entries(v) == xs
  {
    forall i | 0 <= i < |xs|
      ensures AlbumEntry(EntryObject(xs[i])) && Proper(EntryObject(xs[i])) && Entry(EntryObject(xs[i])) == xs[i]
    {
      EntryReads(xs[i]);
    }
  }

  function RoleA(roles: EdgeRoles): Json {
    match roles case Plain(a, _) => StringList(a) case Coded(_, a, _) => IntegerList(a)
  }

  function RoleB(roles: EdgeRoles): Json {
    match roles case Plain(_, b) => StringList(b) case Coded(_, _, b) => IntegerList(b)
  }

  function HeadFields(raw: RawGraph, m: Metadata, version: string): seq<Field> {
    [Field("schema_version", Num(raw.schemaVersion)), Field("catalog_version", Str(m.catalog)),
     Field("snapshot_date", Str(m.snapshot)), Field("generated_at", Str(m.generatedAt)), Field("source", Str(m.source)),
     Field("license", Str(m.license)), Field("pathfinding_graph_version", Str(version))]
  }

  function RowFields(raw: RawGraph): seq<Field> {
    [Field("node_ids", IntegerList(raw.nodeIds)), Field("names", StringList(raw.names)),
     Field("offsets", IntegerList(raw.offsets)), Field("neighbors", IntegerList(raw.neighbors)),
     Field("evidence_release_ids", IntegerList(raw.evidenceReleaseIds)), Field("edge_role_a", RoleA(raw.edgeRoles)),
     Field("edge_role_b", RoleB(raw.edgeRoles))]
  }

  function LaterFields(raw: RawGraph, m: Metadata): seq<Field> {
    (if raw.schemaVersion >= 2 then [Field("album_virtual_nodes", EntryList(raw.albumVirtualNodes))] else [])
    + (if raw.schemaVersion >= 3 then [Field("graph_policy_version", Num(m.policy))] else [])
    + (if raw.schemaVersion == 4 then [Field("roles", StringList(if raw.edgeRoles.Coded? then raw.edgeRoles.roles else []))] else [])
  }

  function PayloadFields(raw: RawGraph, m: Metadata, version: string): seq<Field> {
    HeadFields(raw, m, version) + RowFields(raw) + LaterFields(raw, m)
  }

  function KeysIn(fields: seq<Field>): seq<string> {
    seq(|fields|, i requires 0 <= i < |fields| => fields[i].key)
  }

  lemma PayloadKeys(raw: RawGraph, m: Metadata, version: string)
    ensures KeysIn(PayloadFields(raw, m, version)) == BASE_KEYS + LaterKeys(raw.schemaVersion)
  {
    assert KeysIn(HeadFields(raw, m, version)) == HEAD_KEYS;
    assert KeysIn(RowFields(raw)) == IDENTITY_KEYS;
    assert KeysIn(LaterFields(raw, m)) == LaterKeys(raw.schemaVersion);
    KeysInSum(HeadFields(raw, m, version), RowFields(raw));
    KeysInSum(HeadFields(raw, m, version) + RowFields(raw), LaterFields(raw, m));
  }

  lemma KeysInSum(f: seq<Field>, g: seq<Field>)
    ensures KeysIn(f + g) == KeysIn(f) + KeysIn(g)
  {
  }

  lemma BaseKeysDistinct(schema: int)
    ensures Distinct(BASE_KEYS + LaterKeys(schema))
  {
    HeadKeysDistinct();
    IdentityKeysDistinct(schema);
    forall k | k in HEAD_KEYS ensures k !in IDENTITY_KEYS && k !in LaterKeys(schema) { HeadKeysApart(schema, k); }
    assert BASE_KEYS + LaterKeys(schema) == HEAD_KEYS + (IDENTITY_KEYS + LaterKeys(schema));
  }

  lemma HeadKeysDistinct()
    ensures Distinct(HEAD_KEYS)
  {
    DistinctByMark(HEAD_KEYS, [
      (14, 's', 'n'), (15, 'c', 'n'), (13, 's', 'e'), (12, 'g', 't'), (6, 's', 'e'), (7, 'l', 'e'), (25, 'p', 'n')]);
  }

  lemma HeadKeysApart(schema: int, k: string)
    requires k in HEAD_KEYS
    ensures k !in IDENTITY_KEYS && k !in LaterKeys(schema)
  {
    var i :| 0 <= i < |HEAD_KEYS| && HEAD_KEYS[i] == k;
    LaterKeysDistinct(schema);
    forall j | 0 <= j < |IDENTITY_KEYS| ensures Mark(IDENTITY_KEYS[j]) != Mark(k) { }
  }

  /** Fields with distinct keys are read one by one. */
  lemma FieldsRead(f: seq<Field>, keys: seq<string>)
    requires KeysIn(f) == keys && Distinct(keys)
    ensures DistinctKeys(f) && Keys(f) == SetOf(keys)
    ensures forall i :: 0 <= i < |f| ==> Member(Obj(f), f[i].key) == f[i].value
  {
    forall i | 0 <= i < |f| ensures f[i].key == keys[i] { assert KeysIn(f)[i] == keys[i]; }
    assert |f| == |keys|;
    MembersRead(f);
    forall k | k in keys ensures k in Keys(f) {
      var i :| 0 <= i < |keys| && keys[i] == k;
      assert f[i] in f;
    }
  }

  /** The payload a graph and its metadata are published as. */
  function Payload(raw: RawGraph, m: Metadata, version: string): Json {
    Obj(PayloadFields(raw, m, version))
  }

  ghost predicate ReadsFields(v: Json, f: seq<Field>) {
    forall i :: 0 <= i < |f| ==> Member(v, f[i].key) == f[i].value
  }

  lemma ReadsParts(v: Json, f: seq<Field>, g: seq<Field>)
    requires ReadsFields(v, f + g)
    ensures ReadsFields(v, f) && ReadsFields(v, g)
  {
    forall i | 0 <= i < |f| ensures Member(v, f[i].key) == f[i].value { assert (f + g)[i] == f[i]; }
    forall i | 0 <= i < |g| ensures Member(v, g[i].key) == g[i].value { assert (f + g)[|f| + i] == g[i]; }
  }

  lemma PayloadReads(raw: RawGraph, m: Metadata, version: string)
    ensures var v := Payload(raw, m, version);
      DistinctKeys(v.fields) && HasKeys(v, SetOf(BASE_KEYS + LaterKeys(raw.schemaVersion)))
      && ReadsFields(v, HeadFields(raw, m, version)) && ReadsFields(v, RowFields(raw)) && ReadsFields(v, LaterFields(raw, m))
  {
    var v := Payload(raw, m, version);
    PayloadKeys(raw, m, version);
    BaseKeysDistinct(raw.schemaVersion);
    FieldsRead(v.fields, BASE_KEYS + LaterKeys(raw.schemaVersion));
    ReadsParts(v, HeadFields(raw, m, version) + RowFields(raw), LaterFields(raw, m));
    ReadsParts(v, HeadFields(raw, m, version), RowFields(raw));
  }

  lemma HeadMembers(v: Json, raw: RawGraph, m: Metadata, version: string)
    requires ReadsFields(v, HeadFields(raw, m, version))
    ensures Member(v, "schema_version") == Num(raw.schemaVersion) && Member(v, "snapshot_date") == Str(m.snapshot)
    ensures Member(v, "pathfinding_graph_version") == Str(version)
  {
    var f := HeadFields(raw, m, version);
    assert f[0] == Field("schema_version", Num(raw.schemaVersion)) && f[2] == Field("snapshot_date", Str(m.snapshot));
    assert f[6] == Field("pathfinding_graph_version", Str(version));
  }

  lemma MetadataMembers(v: Json, raw: RawGraph, m: Metadata, version: string)
    requires ReadsFields(v, HeadFields(raw, m, version))
    ensures Member(v, "catalog_version") == Str(m.catalog) && Member(v, "generated_at") == Str(m.generatedAt)
    ensures Member(v, "source") == Str(m.source) && Member(v, "license") == Str(m.license)
  {
    var f := HeadFields(raw, m, version);
    assert f[1] == Field("catalog_version", Str(m.catalog)) && f[3] == Field("generated_at", Str(m.generatedAt));
    assert f[4] == Field("source", Str(m.source)) && f[5] == Field("license", Str(m.license));
  }

  lemma RowMembers(v: Json, raw: RawGraph)
    requires ReadsFields(v, RowFields(raw))
    ensures Member(v, "node_ids") == IntegerList(raw.nodeIds) && Member(v, "names") == StringList(raw.names)
    ensures Member(v, "offsets") == IntegerList(raw.offsets) && Member(v, "neighbors") == IntegerList(raw.neighbors)
    ensures Member(v, "evidence_release_ids") == IntegerList(raw.evidenceReleaseIds)
  {
    var f := RowFields(raw);
    assert f[0] == Field("node_ids", IntegerList(raw.nodeIds)) && f[1] == Field("names", StringList(raw.names));
    assert f[2] == Field("offsets", IntegerList(raw.offsets)) && f[3] == Field("neighbors", IntegerList(raw.neighbors));
    assert f[4] == Field("evidence_release_ids", IntegerList(raw.evidenceReleaseIds));
  }

  lemma RoleMembers(v: Json, raw: RawGraph)
    requires ReadsFields(v, RowFields(raw))
    ensures Member(v, "edge_role_a") == RoleA(raw.edgeRoles) && Member(v, "edge_role_b") == RoleB(raw.edgeRoles)
  {
    var f := RowFields(raw);
    assert f[5] == Field("edge_role_a", RoleA(raw.edgeRoles)) && f[6] == Field("edge_role_b", RoleB(raw.edgeRoles));
  }

  lemma LaterMembers(v: Json, raw: RawGraph, m: Metadata)
    requires ReadsFields(v, LaterFields(raw, m))
    ensures raw.schemaVersion >= 2 ==> Member(v, "album_virtual_nodes") == EntryList(raw.albumVirtualNodes)
    ensures raw.schemaVersion >= 3 ==> Member(v, "graph_policy_version") == Num(m.policy)
    ensures raw.schemaVersion == 4 && raw.edgeRoles.Coded? ==> Member(v, "roles") == StringList(raw.edgeRoles.roles)
  {
    var f := LaterFields(raw, m);
    assert raw.schemaVersion >= 2 ==> f[0] == Field("album_virtual_nodes", EntryList(raw.albumVirtualNodes));
    assert raw.schemaVersion >= 3 ==> f[1] == Field("graph_policy_version", Num(m.policy));
    assert raw.schemaVersion == 4 && raw.edgeRoles.Coded? ==> f[2] == Field("roles", StringList(raw.edgeRoles.roles));
  }

  /** Arrays a payload can hold: role codes from schema 4 on, album nodes from schema 2 on. */
  predicate Publishable(raw: RawGraph) {
    && 1 <= raw.schemaVersion <= 4 && (raw.schemaVersion == 4 <==> raw.edgeRoles.Coded?)
    && (raw.schemaVersion == 1 ==> raw.albumVirtualNodes == [])
  }

  lemma RolesRead(v: Json, raw: RawGraph)
    requires Publishable(raw) && Schema(v) == raw.schemaVersion
    requires Member(v, "edge_role_a") == RoleA(raw.edgeRoles) && Member(v, "edge_role_b") == RoleB(raw.edgeRoles)
    requires raw.schemaVersion == 4 ==> Member(v, "roles") == StringList(raw.edgeRoles.roles)
    ensures RolesTyped(v) && RolesOf(v) == raw.edgeRoles
  {
  }

  lemma PayloadRoundTrip(raw: RawGraph, m: Metadata, version: string)
    requires Publishable(raw)
    ensures var v := Payload(raw, m, version); Typed(v) && RawOf(v) == raw && (raw.schemaVersion >= 3 ==> PolicyOf(v) == m.policy)
  {
    var v := Payload(raw, m, version);
    PayloadReads(raw, m, version);
    HeadMembers(v, raw, m, version);
    RowMembers(v, raw);
    RoleMembers(v, raw);
    LaterMembers(v, raw, m);
    RolesRead(v, raw);
    EntryListReads(raw.albumVirtualNodes);
  }

  ghost predicate AllProper(f: seq<Field>) {
    forall i :: 0 <= i < |f| ==> Proper(f[i].value)
  }

  lemma FieldsAreProper(raw: RawGraph, m: Metadata, version: string)
    ensures AllProper(HeadFields(raw, m, version)) && AllProper(RowFields(raw)) && AllProper(LaterFields(raw, m))
  {
    EntryListReads(raw.albumVirtualNodes);
  }

  lemma PayloadIsProper(raw: RawGraph, m: Metadata, version: string)
    ensures Proper(Payload(raw, m, version))
  {
    PayloadReads(raw, m, version);
    FieldsAreProper(raw, m, version);
    AllSumProper(HeadFields(raw, m, version), RowFields(raw));
    AllSumProper(HeadFields(raw, m, version) + RowFields(raw), LaterFields(raw, m));
  }

  lemma AllSumProper(f: seq<Field>, g: seq<Field>)
    requires AllProper(f) && AllProper(g)
    ensures AllProper(f + g)
  {
  }

  /** Two payloads of one graph under different versions. */
  lemma PayloadsShareIdentity(sha: string -> string, raw: RawGraph, m: Metadata, version: string, other: string)
    requires Publishable(raw)
    ensures GraphVersion(sha, Payload(raw, m, version)) == GraphVersion(sha, Payload(raw, m, other))
  {
    var v, w := Payload(raw, m, version), Payload(raw, m, other);
    PayloadReads(raw, m, version);
    PayloadReads(raw, m, other);
    HeadMembers(v, raw, m, version);
    HeadMembers(w, raw, m, other);
    RowMembers(v, raw);
    RoleMembers(v, raw);
    RowMembers(w, raw);
    RoleMembers(w, raw);
    LaterMembers(v, raw, m);
    LaterMembers(w, raw, m);
    EachIdentityKey(k => Member(v, k) == Member(w, k));
    EachLaterKey(raw.schemaVersion, k => Member(v, k) == Member(w, k));
    PickedIsSame(v, w, IDENTITY_KEYS, LaterKeys(raw.schemaVersion));
  }

  /** A recomputed version has the shape asked for exactly when the date is letters and digits. */
  lemma ShapedIffDate(schema: int, date: string, hash: string)
    requires 1 <= schema <= 4 && |hash| == 12 && forall i :: 0 <= i < 12 ==> IsHex(hash[i])
    ensures VersionShaped(VersionHead(schema), VersionHead(schema) + date + "-" + hash) <==> AlnumText(date)
  {
    OneDigit(schema);
    var head := VersionHead(schema);
    var s := head + date + "-" + hash;
    var mid := |s| - 13;
    assert mid == |head| + |date| && s[..|head|] == head && s[|head|..mid] == date && s[mid] == '-';
    forall i | mid < i < |s| ensures IsHex(s[i]) { assert s[i] == hash[i - mid - 1]; }
  }

  /** The payload a graph is published as, under its recomputed version. */
  function Published(sha: string -> string, raw: RawGraph, m: Metadata): Json {
    Payload(raw, m, GraphVersion(sha, Payload(raw, m, "")))
  }

  lemma PublishedVersion(sha: string -> string, raw: RawGraph, m: Metadata, v: Json)
    requires HexDigest(sha) && Publishable(raw) && v == Published(sha, raw, m)
    ensures Schema(v) == raw.schemaVersion && Member(v, "pathfinding_graph_version") == Str(GraphVersion(sha, v))
    ensures VersionShaped(VersionHead(raw.schemaVersion), GraphVersion(sha, v)) <==> AlnumText(m.snapshot)
    ensures GraphVersion(sha, v) != ""
  {
    var s := GraphVersion(sha, Payload(raw, m, ""));
    PayloadReads(raw, m, s);
    HeadMembers(v, raw, m, s);
    PayloadsShareIdentity(sha, raw, m, "", s);
    ShapedIffDate(raw.schemaVersion, m.snapshot, ContentHash(sha, Identity(v), 12));
  }

  /** The four texts the version is not made from. */
  predicate Told(m: Metadata) {
    m.catalog != "" && m.generatedAt != "" && m.source != "" && m.license != ""
  }

  lemma DescribedIff(v: Json, raw: RawGraph, m: Metadata, version: string)
    requires ReadsFields(v, HeadFields(raw, m, version)) && version != ""
    ensures Described(v) <==> Told(m) && m.snapshot != ""
  {
    HeadMembers(v, raw, m, version);
    MetadataMembers(v, raw, m, version);
  }

  lemma AcceptedIff(sha: string -> string, v: Json)
    requires Typed(v) && Member(v, "pathfinding_graph_version") == Str(GraphVersion(sha, v))
    ensures AcceptedPayload(sha, v) <==>
      Described(v) && Acceptable(RawOf(v)) && PolicyOf(v) >= 1 && VersionShaped(VersionHead(Schema(v)), GraphVersion(sha, v))
  {
  }

  /** Published graphs read back as they were, and pass exactly when the arrays are acceptable, the
      metadata is not empty, the date is letters and digits and the policy is numbered from 1. */
  lemma PublishedRoundTrip(sha: string -> string, raw: RawGraph, m: Metadata, v: Json)
    requires HexDigest(sha) && Publishable(raw) && v == Published(sha, raw, m)
    ensures Proper(v) && Typed(v) && RawOf(v) == raw
    ensures AcceptedPayload(sha, v) <==>
      Acceptable(raw) && Told(m) && AlnumText(m.snapshot) && (raw.schemaVersion >= 3 ==> m.policy >= 1)
  {
    var s := GraphVersion(sha, Payload(raw, m, ""));
    PayloadIsProper(raw, m, s);
    PayloadRoundTrip(raw, m, s);
    PublishedVersion(sha, raw, m, v);
    PayloadReads(raw, m, s);
    PayloadsShareIdentity(sha, raw, m, "", s);
    DescribedIff(v, raw, m, s);
    AcceptedIff(sha, v);
  }

  const PLAIN_METADATA := Metadata("c", "20240101", "t", "s", "l", 1)

  lemma PlainMetadataTold()
    ensures Told(PLAIN_METADATA) && AlnumText(PLAIN_METADATA.snapshot)
  {
  }

  /** Acceptable arrays are held by an accepted payload. */
  lemma SomePayload(sha: string -> string, raw: RawGraph) returns (v: Json)
    requires HexDigest(sha) && Publishable(raw) && Acceptable(raw)
    ensures Proper(v) && AcceptedPayload(sha, v) && RawOf(v) == raw
  {
    v := Published(sha, raw, PLAIN_METADATA);
    PlainMetadataTold();
    PublishedRoundTrip(sha, raw, PLAIN_METADATA, v);
  }

  /** The arrays that wrapping breaks pass the whole validator: in one payload two ids become one, in
      another a person becomes virtual, in the third an album loses its node. */
  lemma WrappedPayloads(sha: string -> string) returns (collides: Json, virtual: Json, lost: Json)
    requires HexDigest(sha)
    ensures AcceptedPayload(sha, collides) && Loaded(RawOf(collides)).nodeIds == [0, 0]
    ensures AcceptedPayload(sha, virtual) && RawOf(virtual) == ACROSS && Broken(ACROSS)
    ensures AcceptedPayload(sha, lost) && RawOf(lost) == BELOW && Broken(BELOW)
  {
    WrappedIdsCollide();
    WrappedPersonLooksVirtual();
    WrappedAlbumIsLost();
    collides := SomePayload(sha, APART);
    virtual := SomePayload(sha, ACROSS);
    lost := SomePayload(sha, BELOW);
  }
}
