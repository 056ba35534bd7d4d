/** What the validators scan a whole artifact for: forbidden texts, seed keys and embedded covers. */
module ArtifactScans {
  import opened Text
  import opened Json
  import opened JsonEquality
  import opened PythonValues

  // ---------- Privacy ----------

  const FORBIDDEN_SUBSTRINGS := ["/home/", "data/private", "local/", "DISCOGS_TOKEN", ".ssh"]
  const FORBIDDEN_PHRASES := ["worked with", "collaborated with", "influenced"]

  /** What the privacy scan finds in a printed artifact. */
  function FoundIn(printed: string, parts: seq<string>): (r: seq<string>)
    ensures r == [] <==> forall p :: p in parts ==> !Contains(printed, p)
    ensures forall p :: p in r <==> p in parts && Contains(printed, p)
  {
    if parts == [] then []
    else
      assert parts == [parts[0]] + parts[1..];
      When(Contains(printed, parts[0]), parts[0]) + FoundIn(printed, parts[1..])
  }

  predicate Discreet(py: Python, v: Json) {
    && (forall p :: p in FORBIDDEN_SUBSTRINGS ==> !Contains(py.text(v), p))
    && (forall p :: p in FORBIDDEN_PHRASES ==> !Contains(py.lower(py.text(v)), p))
  }

  /** A forbidden text that the printed artifact holds, the phrases in whatever case. */
  ghost predicate MustNotPrint(py: Python, v: Json, text: string) {
    (text in FORBIDDEN_SUBSTRINGS && Contains(py.text(v), text)) || (text in FORBIDDEN_PHRASES && Contains(py.lower(py.text(v)), text))
  }

  function PrivacyFindings(py: Python, v: Json): (r: seq<string>)
    ensures r == [] <==> Discreet(py, v)
    ensures forall p :: p in r <==> MustNotPrint(py, v, p)
  {
    FoundIn(py.text(v), FORBIDDEN_SUBSTRINGS) + FoundIn(py.lower(py.text(v)), FORBIDDEN_PHRASES)
  }

  // ---------- Seeds and embedded art ----------

  function ChildPath(path: string, key: string): string {
    if path == "" then key else path + "." + key
  }

  function ItemPath(path: string, i: nat): string {
    path + "[" + Decimal(i) + "]"
  }

  /** Where a key named `seed` stands, at any depth. */
  function SeedPaths(v: Json, path: string): seq<string>
    decreases Size(v), 0
  {
    match v
    case Obj(fields) => SeedFields(fields, path)
    case Arr(items) => SeedItems(items, 0, path)
    case _ => []
  }

  function SeedFields(fields: seq<Field>, path: string): seq<string>
    decreases SizeFields(fields), |fields|
  {
    if fields == [] then []
    else
      var child := ChildPath(path, fields[0].key);
      When(fields[0].key == "seed", child) + SeedPaths(fields[0].value, child) + SeedFields(fields[1..], path)
  }

  function SeedItems(items: seq<Json>, index: nat, path: string): seq<string>
    decreases SizeItems(items), |items|
  {
    if items == [] then []
    else SeedPaths(items[0], ItemPath(path, index)) + SeedItems(items[1..], index + 1, path)
  }

  /** No key is named `seed`, at any depth. */
  predicate SeedFree(v: Json)
    decreases Size(v), 0
  {
    match v
    case Obj(fields) => SeedFreeFields(fields)
    case Arr(items) => SeedFreeItems(items)
    case _ => true
  }

  predicate SeedFreeFields(fields: seq<Field>)
    decreases SizeFields(fields), |fields|
  {
    fields == [] || (fields[0].key != "seed" && SeedFree(fields[0].value) && SeedFreeFields(fields[1..]))
  }

  predicate SeedFreeItems(items: seq<Json>)
    decreases SizeItems(items), |items|
  {
    items == [] || (SeedFree(items[0]) && SeedFreeItems(items[1..]))
  }

  /** The scan reports nothing exactly when there is no such key. */
  lemma {:induction false} SeedScan(v: Json, path: string)
    ensures SeedPaths(v, path) == [] <==> SeedFree(v)
    decreases Size(v), 0
  {
    match v
    case Obj(fields) => SeedScanFields(fields, path);
    case Arr(items) => SeedScanItems(items, 0, path);
    case _ =>
  }

  lemma {:induction false} SeedScanFields(fields: seq<Field>, path: string)
    ensures SeedFields(fields, path) == [] <==> SeedFreeFields(fields)
    decreases SizeFields(fields), |fields|
  {
    if fields != [] {
      SeedScan(fields[0].value, ChildPath(path, fields[0].key));
      SeedScanFields(fields[1..], path);
    }
  }

  lemma {:induction false} SeedScanItems(items: seq<Json>, index: nat, path: string)
    ensures SeedItems(items, index, path) == [] <==> SeedFreeItems(items)
    decreases SizeItems(items), |items|
  {
    if items != [] {
      SeedScan(items[0], ItemPath(path, index));
      SeedScanItems(items[1..], index + 1, path);
    }
  }

  /** An object that embeds a mutable cover. */
  predicate Embeds(v: Json) {
    v.Obj? && (PyEqual(Member(v, "kind"), Str("hotlink")) || "uri150" in Keys(v.fields) || "uri" in Keys(v.fields))
  }

  /** Where such objects stand, at any depth. */
  function ArtPaths(v: Json, path: string): seq<string>
    decreases Size(v), 0
  {
    When(Embeds(v), if path == "" then "<root>" else path)
    + match v
      case Obj(fields) => ArtFields(fields, path)
      case Arr(items) => ArtItems(items, 0, path)
      case _ => []
  }

  function ArtFields(fields: seq<Field>, path: string): seq<string>
    decreases SizeFields(fields), |fields|
  {
    if fields == [] then []
    else ArtPaths(fields[0].value, ChildPath(path, fields[0].key)) + ArtFields(fields[1..], path)
  }

  function ArtItems(items: seq<Json>, index: nat, path: string): seq<string>
    decreases SizeItems(items), |items|
  {
    if items == [] then []
    else ArtPaths(items[0], ItemPath(path, index)) + ArtItems(items[1..], index + 1, path)
  }

  predicate ArtFree(v: Json)
    decreases Size(v), 0
  {
    !Embeds(v)
    && match v
       case Obj(fields) => ArtFreeFields(fields)
       case Arr(items) => ArtFreeItems(items)
       case _ => true
  }

  predicate ArtFreeFields(fields: seq<Field>)
    decreases SizeFields(fields), |fields|
  {
    fields == [] || (ArtFree(fields[0].value) && ArtFreeFields(fields[1..]))
  }

  predicate ArtFreeItems(items: seq<Json>)
    decreases SizeItems(items), |items|
  {
    items == [] || (ArtFree(items[0]) && ArtFreeItems(items[1..]))
  }

  lemma {:induction false} ArtScan(v: Json, path: string)
    ensures ArtPaths(v, path) == [] <==> ArtFree(v)
    decreases Size(v), 0
  {
    match v
    case Obj(fields) => ArtScanFields(fields, path);
    case Arr(items) => ArtScanItems(items, 0, path);
    case _ =>
  }

  lemma {:induction false} ArtScanFields(fields: seq<Field>, path: string)
    ensures ArtFields(fields, path) == [] <==> ArtFreeFields(fields)
    decreases SizeFields(fields), |fields|
  {
    if fields != [] {
      ArtScan(fields[0].value, ChildPath(path, fields[0].key));
      ArtScanFields(fields[1..], path);
    }
  }

  lemma {:induction false} ArtScanItems(items: seq<Json>, index: nat, path: string)
    ensures ArtItems(items, index, path) == [] <==> ArtFreeItems(items)
    decreases SizeItems(items), |items|
  {
    if items != [] {
      ArtScan(items[0], ItemPath(path, index));
      ArtScanItems(items[1..], index + 1, path);
    }
  }

  // ---------- Just where ----------

  function Dotted(path: string, key: string): string {
    if path == "" then key else path + "." + key
  }

  /** A key named `seed` stands at this path: dotted keys and bracketed indices from the root. */
  ghost predicate SeedAt(v: Json, path: string, p: string)
    decreases v
  {
    match v
    case Obj(fields) => exists i :: 0 <= i < |fields| && SeedUnder(fields[i], path, p)
    case Arr(items) => exists i: nat :: i < |items| && SeedAt(items[i], path + "[" + Decimal(i) + "]", p)
    case _ => false
  }

  ghost predicate SeedUnder(f: Field, path: string, p: string)
    decreases f
  {
    (f.key == "seed" && p == Dotted(path, "seed")) || SeedAt(f.value, Dotted(path, f.key), p)
  }

  ghost predicate SeedInItem(items: seq<Json>, index: nat, path: string, p: string, i: nat) {
    i < |items| && SeedAt(items[i], path + "[" + Decimal(index + i) + "]", p)
  }

  ghost predicate SeedInItems(items: seq<Json>, index: nat, path: string, p: string) {
    exists i: nat :: SeedInItem(items, index, path, p, i)
  }

  /** The seeds reported are all the seeds there are, each at its place. */
  lemma {:induction false} SeedPathsExact(v: Json, path: string, p: string)
    ensures p in SeedPaths(v, path) <==> SeedAt(v, path, p)
    decreases Size(v), 0
  {
    match v
    case Obj(fields) => SeedFieldsExact(fields, path, p);
    case Arr(items) =>
      SeedItemsExact(items, 0, path, p);
      forall i: nat ensures SeedInItem(items, 0, path, p, i) <==> i < |items| && SeedAt(items[i], path + "[" + Decimal(i) + "]", p) { }
    case _ =>
  }

  lemma {:induction false} SeedFieldsExact(fields: seq<Field>, path: string, p: string)
    ensures p in SeedFields(fields, path) <==> exists i :: 0 <= i < |fields| && SeedUnder(fields[i], path, p)
    decreases SizeFields(fields), |fields|
  {
    if fields != [] {
      SeedPathsExact(fields[0].value, ChildPath(path, fields[0].key), p);
      SeedFieldsExact(fields[1..], path, p);
      assert forall i :: 0 < i < |fields| ==> fields[i] == fields[1..][i - 1];
      assert forall i :: 0 <= i < |fields| - 1 ==> fields[1..][i] == fields[i + 1];
    }
  }

  lemma SeedItemsStep(items: seq<Json>, index: nat, path: string, p: string, rest: seq<Json>, next: nat)
    requires items != [] && rest == items[1..] && next == index + 1
    ensures SeedInItems(items, index, path, p) <==> SeedInItem(items, index, path, p, 0) || SeedInItems(rest, next, path, p)
  {
    forall i: nat ensures SeedInItem(items, index, path, p, i + 1) <==> SeedInItem(rest, next, path, p, i) {
      SeedItemShifts(items, index, path, p, rest, next, i);
    }
    if SeedInItems(items, index, path, p) {
      var i: nat :| SeedInItem(items, index, path, p, i);
      if i > 0 { SeedItemShifts(items, index, path, p, rest, next, i - 1); }
    }
  }

  lemma SeedItemShifts(items: seq<Json>, index: nat, path: string, p: string, rest: seq<Json>, next: nat, i: nat)
    requires items != [] && rest == items[1..] && next == index + 1
    ensures SeedInItem(items, index, path, p, i + 1) <==> SeedInItem(rest, next, path, p, i)
  {
    assert i < |rest| ==> items[i + 1] == rest[i];
    assert index + (i + 1) == next + i;
  }

  lemma {:induction false} SeedItemsExact(items: seq<Json>, index: nat, path: string, p: string)
    ensures p in SeedItems(items, index, path) <==> SeedInItems(items, index, path, p)
    decreases SizeItems(items), |items|
  {
    if items != [] {
      SeedPathsExact(items[0], ItemPath(path, index), p);
      SeedItemsExact(items[1..], index + 1, path, p);
      SeedItemsStep(items, index, path, p, items[1..], index + 1);
    }
  }

  /** An object that embeds a cover stands at this path; the root is called so. */
  ghost predicate ArtAt(v: Json, path: string, p: string)
    decreases v
  {
    || (Embeds(v) && p == if path == "" then "<root>" else path)
    || match v
       case Obj(fields) => exists i :: 0 <= i < |fields| && ArtAt(fields[i].value, Dotted(path, fields[i].key), p)
       case Arr(items) => exists i: nat :: i < |items| && ArtAt(items[i], path + "[" + Decimal(i) + "]", p)
       case _ => false
  }

  ghost predicate ArtInItem(items: seq<Json>, index: nat, path: string, p: string, i: nat) {
    i < |items| && ArtAt(items[i], path + "[" + Decimal(index + i) + "]", p)
  }

  ghost predicate ArtInItems(items: seq<Json>, index: nat, path: string, p: string) {
    exists i: nat :: ArtInItem(items, index, path, p, i)
  }

  /** The covers reported are all the covers there are, each at its place. */
  lemma {:induction false} ArtPathsExact(v: Json, path: string, p: string)
    ensures p in ArtPaths(v, path) <==> ArtAt(v, path, p)
    decreases Size(v), 0
  {
    match v
    case Obj(fields) => ArtFieldsExact(fields, path, p);
    case Arr(items) =>
      ArtItemsExact(items, 0, path, p);
      forall i: nat ensures ArtInItem(items, 0, path, p, i) <==> i < |items| && ArtAt(items[i], path + "[" + Decimal(i) + "]", p) { }
    case _ =>
  }

  lemma {:induction false} ArtFieldsExact(fields: seq<Field>, path: string, p: string)
    ensures p in ArtFields(fields, path) <==>
      exists i :: 0 <= i < |fields| && ArtAt(fields[i].value, Dotted(path, fields[i].key), p)
    decreases SizeFields(fields), |fields|
  {
    if fields != [] {
      ArtPathsExact(fields[0].value, ChildPath(path, fields[0].key), p);
      ArtFieldsExact(fields[1..], path, p);
      assert forall i :: 0 < i < |fields| ==> fields[i] == fields[1..][i - 1];
      assert forall i :: 0 <= i < |fields| - 1 ==> fields[1..][i] == fields[i + 1];
    }
  }

  lemma ArtItemsStep(items: seq<Json>, index: nat, path: string, p: string, rest: seq<Json>, next: nat)
    requires items != [] && rest == items[1..] && next == index + 1
    ensures ArtInItems(items, index, path, p) <==> ArtInItem(items, index, path, p, 0) || ArtInItems(rest, next, path, p)
  {
    forall i: nat ensures ArtInItem(items, index, path, p, i + 1) <==> ArtInItem(rest, next, path, p, i) {
      ArtItemShifts(items, index, path, p, rest, next, i);
    }
    if ArtInItems(items, index, path, p) {
      var i: nat :| ArtInItem(items, index, path, p, i);
      if i > 0 { ArtItemShifts(items, index, path, p, rest, next, i - 1); }
    }
  }

  lemma ArtItemShifts(items: seq<Json>, index: nat, path: string, p: string, rest: seq<Json>, next: nat, i: nat)
    requires items != [] && rest == items[1..] && next == index + 1
    ensures ArtInItem(items, index, path, p, i + 1) <==> ArtInItem(rest, next, path, p, i)
  {
    assert i < |rest| ==> items[i + 1] == rest[i];
    assert index + (i + 1) == next + i;
  }

  lemma {:induction false} ArtItemsExact(items: seq<Json>, index: nat, path: string, p: string)
    ensures p in ArtItems(items, index, path) <==> ArtInItems(items, index, path, p)
    decreases SizeItems(items), |items|
  {
    if items != [] {
      ArtPathsExact(items[0], ItemPath(path, index), p);
      ArtItemsExact(items[1..], index + 1, path, p);
      ArtItemsStep(items, index, path, p, items[1..], index + 1);
    }
  }
}
