/** The structural diff of two published artifacts, and when it agrees with their hashes. */
module ArtifactDiff {
  import opened Text
  import opened Json
  import opened JsonEquality

  datatype Change =
    | Removed(path: string, was: Json)
    | Added(path: string, now: Json)
    | LengthChanged(path: string, oldLength: nat, newLength: nat)
    | Changed(path: string, was: Json, now: Json)

  datatype Report =
    | Identical(hash: string)
    | Different(oldHash: string, newHash: string, diff: seq<Change>)

  // ---------- The report, as a function ----------

  function KeyPath(path: string, key: string): string {
    path + "." + key
  }

  function IndexPath(path: string, i: nat): string {
    path + "[" + Decimal(i) + "]"
  }

  /** The keys only `f` has, in order. */
  function Missing(f: seq<Field>, g: seq<Field>): (keys: seq<string>)
    ensures forall k :: k in keys <==> k in Keys(f) && k !in Keys(g)
  {
    SortedStringsElements(Keys(f) - Keys(g));
    SortedStrings(Keys(f) - Keys(g))
  }

  function Shared(f: seq<Field>, g: seq<Field>): (keys: seq<string>)
    ensures forall k :: k in keys <==> k in Keys(f) && k in Keys(g)
  {
    SortedStringsElements(Keys(f) * Keys(g));
    SortedStrings(Keys(f) * Keys(g))
  }

  function RemovedKeys(f: seq<Field>, keys: seq<string>, path: string): (r: seq<Change>)
    requires forall k :: k in keys ==> k in Keys(f)
    ensures |r| == |keys|
  {
    seq(|keys|, i requires 0 <= i < |keys| => Removed(KeyPath(path, keys[i]), Get(f, keys[i])))
  }

  function AddedKeys(g: seq<Field>, keys: seq<string>, path: string): (r: seq<Change>)
    requires forall k :: k in keys ==> k in Keys(g)
    ensures |r| == |keys|
  {
    seq(|keys|, i requires 0 <= i < |keys| => Added(KeyPath(path, keys[i]), Get(g, keys[i])))
  }

  /** The `else` branch: at most one of the values is a container of the other's kind. */
  predicate PlainEqual(was: Json, now: Json) {
    was == now || BoolFacesNumber(was, now)
  }

  function StructuralDiff(was: Json, now: Json, path: string): seq<Change>
    decreases Size(was), 0
  {
    match (was, now)
    case (Obj(f), Obj(g)) =>
      RemovedKeys(f, Missing(f, g), path)
      + AddedKeys(g, Missing(g, f), path)
      + DiffKeys(f, g, Shared(f, g), |Shared(f, g)|, path)
    case (Arr(a), Arr(b)) =>
      if |a| != |b| then [LengthChanged(path, |a|, |b|)] else DiffItems(a, b, |a|, path)
    case _ => if PlainEqual(was, now) then [] else [Changed(path, was, now)]
  }

  /** The differences under the first `n` keys. */
  function DiffKeys(f: seq<Field>, g: seq<Field>, keys: seq<string>, n: nat, path: string): seq<Change>
    requires n <= |keys| && forall k :: k in keys ==> k in Keys(f) && k in Keys(g)
    decreases SizeFields(f), n + 1
  {
    if n == 0 then []
    else
      var k := keys[n - 1];
      DiffKeys(f, g, keys, n - 1, path) + StructuralDiff(Get(f, k), Get(g, k), KeyPath(path, k))
  }

  /** The differences in the first `n` items. */
  function DiffItems(a: seq<Json>, b: seq<Json>, n: nat, path: string): seq<Change>
    requires n <= |a| == |b|
    decreases SizeItems(a), n + 1
  {
    if n == 0 then []
    else
      ItemSize(a, n - 1);
      DiffItems(a, b, n - 1, path) + StructuralDiff(a[n - 1], b[n - 1], IndexPath(path, n - 1))
  }

  // ---------- The loops that fill the report ----------

  method ReportDiff(was: Json, now: Json, path: string) returns (diffs: seq<Change>)
    ensures diffs == StructuralDiff(was, now, path)
    decreases Size(was), 0
  {
    diffs := [];
    if was.Obj? && now.Obj? {
      diffs := ReportFields(was.fields, now.fields, path);
    } else if was.Arr? && now.Arr? {
      var a, b := was.items, now.items;
      if |a| != |b| {
        diffs := diffs + [LengthChanged(path, |a|, |b|)];
      } else {
        for i := 0 to |a|
          invariant diffs == DiffItems(a, b, i, path)
        {
          ItemSize(a, i);
          var inner := ReportDiff(a[i], b[i], IndexPath(path, i));
          diffs := diffs + inner;
        }
      }
    } else if !PlainEqual(was, now) {
      diffs := diffs + [Changed(path, was, now)];
    }
  }

  method ReportFields(f: seq<Field>, g: seq<Field>, path: string) returns (diffs: seq<Change>)
    ensures diffs == StructuralDiff(Obj(f), Obj(g), path)
    decreases SizeFields(f), 2
  {
    var removed := ReportRemoved(f, Missing(f, g), path);
    var added := ReportAdded(g, Missing(g, f), path);
    var changed := ReportShared(f, g, Shared(f, g), path);
    diffs := removed + added + changed;
  }

  method ReportShared(f: seq<Field>, g: seq<Field>, keys: seq<string>, path: string) returns (diffs: seq<Change>)
    requires forall k :: k in keys ==> k in Keys(f) && k in Keys(g)
    ensures diffs == DiffKeys(f, g, keys, |keys|, path)
    decreases SizeFields(f), 1
  {
    diffs := [];
    for i := 0 to |keys|
      invariant diffs == DiffKeys(f, g, keys, i, path)
    {
      var inner := ReportDiff(Get(f, keys[i]), Get(g, keys[i]), KeyPath(path, keys[i]));
      diffs := diffs + inner;
    }
  }

  method ReportRemoved(f: seq<Field>, keys: seq<string>, path: string) returns (diffs: seq<Change>)
    requires forall k :: k in keys ==> k in Keys(f)
    ensures diffs == RemovedKeys(f, keys, path)
  {
    diffs := [];
    for i := 0 to |keys|
      invariant diffs == RemovedKeys(f, keys, path)[..i]
    {
      diffs := diffs + [Removed(KeyPath(path, keys[i]), Get(f, keys[i]))];
    }
  }

  method ReportAdded(g: seq<Field>, keys: seq<string>, path: string) returns (diffs: seq<Change>)
    requires forall k :: k in keys ==> k in Keys(g)
    ensures diffs == AddedKeys(g, keys, path)
  {
    diffs := [];
    for i := 0 to |keys|
      invariant diffs == AddedKeys(g, keys, path)[..i]
    {
      diffs := diffs + [Added(KeyPath(path, keys[i]), Get(g, keys[i]))];
    }
  }

  // ---------- Empty exactly on equal values ----------

  ghost predicate ItemsAlike(a: seq<Json>, b: seq<Json>, n: nat)
    requires n <= |a| == |b|
  {
    forall i :: 0 <= i < n ==> Alike(true, a[i], b[i])
  }

  ghost predicate ValuesAlike(f: seq<Field>, g: seq<Field>, keys: seq<string>, n: nat)
    requires n <= |keys| && forall k :: k in keys ==> k in Keys(f) && k in Keys(g)
  {
    forall i :: 0 <= i < n ==> Alike(true, Get(f, keys[i]), Get(g, keys[i]))
  }

  lemma NothingAppended(a: seq<Change>, b: seq<Change>)
    ensures a + b == [] <==> a == [] && b == []
  {
  }

  lemma OneMoreAlike(a: seq<Json>, b: seq<Json>, n: nat)
    requires 0 < n <= |a| == |b|
    ensures ItemsAlike(a, b, n) <==> ItemsAlike(a, b, n - 1) && Alike(true, a[n - 1], b[n - 1])
  {
  }

  lemma {:induction false} DiffItemsEmpty(a: seq<Json>, b: seq<Json>, n: nat, path: string)
    requires n <= |a| == |b|
    ensures DiffItems(a, b, n, path) == [] <==> ItemsAlike(a, b, n)
    decreases SizeItems(a), n + 1
  {
    if n > 0 {
      ItemSize(a, n - 1);
      var p := IndexPath(path, n - 1);
      DiffItemsEmpty(a, b, n - 1, path);
      DiffEmpty(a[n - 1], b[n - 1], p);
      OneMoreAlike(a, b, n);
      NothingAppended(DiffItems(a, b, n - 1, path), StructuralDiff(a[n - 1], b[n - 1], p));
    }
  }

  lemma {:induction false} DiffKeysEmpty(f: seq<Field>, g: seq<Field>, keys: seq<string>, n: nat, path: string)
    requires n <= |keys| && forall k :: k in keys ==> k in Keys(f) && k in Keys(g)
    ensures DiffKeys(f, g, keys, n, path) == [] <==> ValuesAlike(f, g, keys, n)
    decreases SizeFields(f), n + 1
  {
    if n > 0 {
      var k := keys[n - 1];
      DiffKeysEmpty(f, g, keys, n - 1, path);
      DiffEmpty(Get(f, k), Get(g, k), KeyPath(path, k));
      assert ValuesAlike(f, g, keys, n) <==> ValuesAlike(f, g, keys, n - 1) && Alike(true, Get(f, k), Get(g, k));
      NothingAppended(DiffKeys(f, g, keys, n - 1, path), StructuralDiff(Get(f, k), Get(g, k), KeyPath(path, k)));
    }
  }

  lemma NothingMissing(f: seq<Field>, g: seq<Field>)
    ensures Missing(f, g) == [] <==> Keys(f) <= Keys(g)
  {
    if Missing(f, g) != [] { assert Missing(f, g)[0] in Missing(f, g); }
  }

  /** For objects with the same keys, comparing under the shared keys compares everything. */
  lemma SharedIsAll(f: seq<Field>, g: seq<Field>)
    requires Keys(f) == Keys(g)
    ensures ValuesAlike(f, g, Shared(f, g), |Shared(f, g)|) <==> Alike(true, Obj(f), Obj(g))
  {
    var keys := Shared(f, g);
    if ValuesAlike(f, g, keys, |keys|) {
      forall k | k in Keys(f) ensures Alike(true, Get(f, k), Get(g, k)) {
        assert k in keys;
      }
    }
    if Alike(true, Obj(f), Obj(g)) {
      forall i | 0 <= i < |keys| ensures Alike(true, Get(f, keys[i]), Get(g, keys[i])) {
        assert keys[i] in Keys(f);
      }
    }
  }

  /** The diff is empty exactly on values that are equal up to key order, reading booleans as numbers. */
  lemma {:induction false} DiffEmpty(was: Json, now: Json, path: string)
    ensures StructuralDiff(was, now, path) == [] <==> Alike(true, was, now)
    decreases Size(was), 0
  {
    if was.Arr? && now.Arr? {
      if |was.items| == |now.items| { DiffItemsEmpty(was.items, now.items, |was.items|, path); }
    } else if was.Obj? && now.Obj? {
      ObjectDiffEmpty(was.fields, now.fields, path);
    }
  }

  lemma {:induction false} ObjectDiffEmpty(f: seq<Field>, g: seq<Field>, path: string)
    ensures StructuralDiff(Obj(f), Obj(g), path) == [] <==> Alike(true, Obj(f), Obj(g))
    decreases SizeFields(f), |Shared(f, g)| + 2
  {
    var n := |Shared(f, g)|;
    DiffKeysEmpty(f, g, Shared(f, g), n, path);
    NothingMissing(f, g);
    NothingMissing(g, f);
    var outer := RemovedKeys(f, Missing(f, g), path) + AddedKeys(g, Missing(g, f), path);
    NothingAppended(outer, DiffKeys(f, g, Shared(f, g), n, path));
    assert outer == [] <==> Keys(f) == Keys(g);
    if Keys(f) == Keys(g) { SharedIsAll(f, g); }
  }

  // ---------- Every reported change is a real difference ----------

  datatype Place = Key(key: string) | Index(i: nat)

  /** The value at a place below `v`, when there is one. */
  function Locate(v: Json, places: seq<Place>): Option<Json> {
    if places == [] then Some(v)
    else match (places[0], v)
      case (Key(k), Obj(fields)) => if k in Keys(fields) then Locate(Get(fields, k), places[1..]) else None
      case (Index(i), Arr(items)) => if i < |items| then Locate(items[i], places[1..]) else None
      case _ => None
  }

  function Extend(path: string, place: Place): string {
    match place case Key(k) => path + "." + k case Index(i) => path + "[" + Decimal(i) + "]"
  }

  function Render(path: string, places: seq<Place>): string
    decreases |places|
  {
    if places == [] then path else Render(Extend(path, places[0]), places[1..])
  }

  /** What a reported change claims about the two values at its place. */
  ghost predicate Holds(c: Change, was: Json, now: Json, places: seq<Place>) {
    var before, after := Locate(was, places), Locate(now, places);
    match c
    case Removed(_, v) => before == Some(v) && after.None?
    case Added(_, v) => before.None? && after == Some(v)
    case LengthChanged(_, m, n) =>
      before.Some? && after.Some? && before.value.Arr? && after.value.Arr?
      && |before.value.items| == m && |after.value.items| == n && m != n
    case Changed(_, v, w) =>
      before == Some(v) && after == Some(w) && !Alike(true, v, w)
      && !(v.Obj? && w.Obj?) && !(v.Arr? && w.Arr?)
  }

  ghost predicate Explained(c: Change, was: Json, now: Json, path: string) {
    exists places :: c.path == Render(path, places) && Holds(c, was, now, places)
  }

  lemma ExplainedHere(c: Change, was: Json, now: Json, path: string)
    requires c.path == path && Holds(c, was, now, [])
    ensures Explained(c, was, now, path)
  {
    assert c.path == Render(path, []);
  }

  /** A change found under one key, or at one index, is explained from the container. */
  lemma ExplainedBelow(c: Change, was: Json, now: Json, place: Place, path: string)
    requires Locate(was, [place]).Some? && Locate(now, [place]).Some?
    requires Explained(c, Locate(was, [place]).value, Locate(now, [place]).value, Extend(path, place))
    ensures Explained(c, was, now, path)
  {
    var a, b := Locate(was, [place]).value, Locate(now, [place]).value;
    var places :| c.path == Render(Extend(path, place), places) && Holds(c, a, b, places);
    var all := [place] + places;
    assert all[1..] == places;
    assert [place][1..] == [];
    assert Render(path, all) == c.path;
    assert Locate(was, all) == Locate(a, places);
    assert Locate(now, all) == Locate(b, places);
  }

  lemma LocateKey(fields: seq<Field>, key: string)
    ensures Locate(Obj(fields), [Key(key)]) == if key in Keys(fields) then Some(Get(fields, key)) else None
  {
    assert [Key(key)][1..] == [];
  }

  lemma LocateIndex(items: seq<Json>, i: nat)
    requires i < |items|
    ensures Locate(Arr(items), [Index(i)]) == Some(items[i])
  {
    assert [Index(i)][1..] == [];
  }

  lemma {:induction false} ItemChangesReal(a: seq<Json>, b: seq<Json>, n: nat, path: string, c: Change)
    requires n <= |a| == |b| && c in DiffItems(a, b, n, path)
    ensures Explained(c, Arr(a), Arr(b), path)
    decreases SizeItems(a), n + 1
  {
    ItemSize(a, n - 1);
    if c in DiffItems(a, b, n - 1, path) {
      ItemChangesReal(a, b, n - 1, path, c);
    } else {
      ChangesAreReal(a[n - 1], b[n - 1], IndexPath(path, n - 1), c);
      LocateIndex(a, n - 1);
      LocateIndex(b, n - 1);
      ExplainedBelow(c, Arr(a), Arr(b), Index(n - 1), path);
    }
  }

  lemma {:induction false} KeyChangesReal(
      f: seq<Field>, g: seq<Field>, keys: seq<string>, n: nat, path: string, c: Change)
    requires n <= |keys| && forall k :: k in keys ==> k in Keys(f) && k in Keys(g)
    requires c in DiffKeys(f, g, keys, n, path)
    ensures Explained(c, Obj(f), Obj(g), path)
    decreases SizeFields(f), n + 1
  {
    var k := keys[n - 1];
    if c in DiffKeys(f, g, keys, n - 1, path) {
      KeyChangesReal(f, g, keys, n - 1, path, c);
    } else {
      ChangesAreReal(Get(f, k), Get(g, k), KeyPath(path, k), c);
      LocateKey(f, k);
      LocateKey(g, k);
      ExplainedBelow(c, Obj(f), Obj(g), Key(k), path);
    }
  }

  lemma KeyOnOneSide(f: seq<Field>, g: seq<Field>, k: string, c: Change, path: string)
    requires c.path == KeyPath(path, k)
    requires (c.Removed? && k in Keys(f) && k !in Keys(g) && c.was == Get(f, k))
          || (c.Added? && k in Keys(g) && k !in Keys(f) && c.now == Get(g, k))
    ensures Explained(c, Obj(f), Obj(g), path)
  {
    LocateKey(f, k);
    LocateKey(g, k);
    assert [Key(k)][1..] == [];
    assert c.path == Render(path, [Key(k)]);
    assert Holds(c, Obj(f), Obj(g), [Key(k)]);
  }

  /** Every change names a place where the two values differ in the way it says. */
  lemma {:induction false} ChangesAreReal(was: Json, now: Json, path: string, c: Change)
    requires c in StructuralDiff(was, now, path)
    ensures Explained(c, was, now, path)
    decreases Size(was), 0
  {
    if was.Arr? && now.Arr? {
      if |was.items| == |now.items| {
        ItemChangesReal(was.items, now.items, |was.items|, path, c);
      } else {
        ExplainedHere(c, was, now, path);
      }
    } else if was.Obj? && now.Obj? {
      var f, g := was.fields, now.fields;
      var gone, extra := Missing(f, g), Missing(g, f);
      if c in RemovedKeys(f, gone, path) {
        var i :| 0 <= i < |gone| && RemovedKeys(f, gone, path)[i] == c;
        KeyOnOneSide(f, g, gone[i], c, path);
      } else if c in AddedKeys(g, extra, path) {
        var i :| 0 <= i < |extra| && AddedKeys(g, extra, path)[i] == c;
        KeyOnOneSide(f, g, extra[i], c, path);
      } else {
        KeyChangesReal(f, g, Shared(f, g), |Shared(f, g)|, path, c);
      }
    } else {
      ExplainedHere(c, was, now, path);
    }
  }

  // ---------- Every difference is reported ----------

  /** The two values differ at this place: only one has it, or what they have there is not alike. */
  ghost predicate DifferAt(was: Json, now: Json, places: seq<Place>) {
    var a, b := Locate(was, places), Locate(now, places);
    !(a.None? && b.None?) && !(a.Some? && b.Some? && Alike(true, a.value, b.value))
  }

  /** The change is true at a place on the way to `places`, or below it. */
  ghost predicate ReportedNear(c: Change, was: Json, now: Json, path: string, places: seq<Place>) {
    exists p :: (p <= places || places <= p) && c.path == Render(path, p) && Holds(c, was, now, p)
  }

  lemma ReportedHere(c: Change, was: Json, now: Json, path: string, places: seq<Place>)
    requires c.path == path && Holds(c, was, now, [])
    ensures ReportedNear(c, was, now, path, places)
  {
    assert c.path == Render(path, []) && [] <= places;
  }

  lemma ReportedBelow(c: Change, was: Json, now: Json, place: Place, path: string, rest: seq<Place>)
    requires Locate(was, [place]).Some? && Locate(now, [place]).Some?
    requires ReportedNear(c, Locate(was, [place]).value, Locate(now, [place]).value, Extend(path, place), rest)
    ensures ReportedNear(c, was, now, path, [place] + rest)
  {
    var a, b := Locate(was, [place]).value, Locate(now, [place]).value;
    var p :| (p <= rest || rest <= p) && c.path == Render(Extend(path, place), p) && Holds(c, a, b, p);
    var all := [place] + p;
    assert all[1..] == p;
    assert [place][1..] == [];
    assert Locate(was, all) == Locate(a, p) && Locate(now, all) == Locate(b, p);
    assert Render(path, all) == c.path;
    assert all <= [place] + rest || [place] + rest <= all;
  }

  lemma {:induction false} InItems(a: seq<Json>, b: seq<Json>, n: nat, path: string, i: nat, c: Change)
    requires i < n <= |a| == |b| && c in StructuralDiff(a[i], b[i], IndexPath(path, i))
    ensures c in DiffItems(a, b, n, path)
    decreases n
  {
    if i < n - 1 { InItems(a, b, n - 1, path, i, c); }
  }

  lemma {:induction false} InKeys(f: seq<Field>, g: seq<Field>, keys: seq<string>, n: nat, path: string, i: nat, c: Change)
    requires i < n <= |keys| && forall k :: k in keys ==> k in Keys(f) && k in Keys(g)
    requires c in StructuralDiff(Get(f, keys[i]), Get(g, keys[i]), KeyPath(path, keys[i]))
    ensures c in DiffKeys(f, g, keys, n, path)
    decreases n
  {
    if i < n - 1 { InKeys(f, g, keys, n - 1, path, i, c); }
  }

  /** A key on one side only is reported as such. */
  lemma OneSideReported(f: seq<Field>, g: seq<Field>, k: string, path: string, rest: seq<Place>) returns (c: Change)
    requires (k in Keys(f)) != (k in Keys(g))
    ensures c in StructuralDiff(Obj(f), Obj(g), path) && ReportedNear(c, Obj(f), Obj(g), path, [Key(k)] + rest)
  {
    var gone, extra := Missing(f, g), Missing(g, f);
    if k in Keys(f) {
      var i :| 0 <= i < |gone| && gone[i] == k;
      c := RemovedKeys(f, gone, path)[i];
    } else {
      var i :| 0 <= i < |extra| && extra[i] == k;
      c := AddedKeys(g, extra, path)[i];
    }
    LocateKey(f, k);
    LocateKey(g, k);
    assert [Key(k)][1..] == [];
    assert [Key(k)] <= [Key(k)] + rest && c.path == Render(path, [Key(k)]) && Holds(c, Obj(f), Obj(g), [Key(k)]);
  }

  /** Wherever the two values differ, some change says so there, on the way there, or further down. */
  lemma {:induction false} EveryDifferenceReported(was: Json, now: Json, path: string, places: seq<Place>) returns (c: Change)
    requires DifferAt(was, now, places)
    ensures c in StructuralDiff(was, now, path) && ReportedNear(c, was, now, path, places)
    decreases |places|
  {
    if places == [] {
      DiffEmpty(was, now, path);
      c := StructuralDiff(was, now, path)[0];
      ChangesAreReal(was, now, path, c);
      var p :| c.path == Render(path, p) && Holds(c, was, now, p);
      assert places <= p;
    } else if was.Obj? && now.Obj? {
      c := KeyDifferenceReported(was.fields, now.fields, path, places);
    } else if was.Arr? && now.Arr? {
      c := ItemDifferenceReported(was.items, now.items, path, places);
    } else {
      assert !PlainEqual(was, now);
      c := Changed(path, was, now);
      ReportedHere(c, was, now, path, places);
    }
  }

  lemma {:induction false} KeyDifferenceReported(f: seq<Field>, g: seq<Field>, path: string, places: seq<Place>) returns (c: Change)
    requires places != [] && DifferAt(Obj(f), Obj(g), places)
    ensures c in StructuralDiff(Obj(f), Obj(g), path) && ReportedNear(c, Obj(f), Obj(g), path, places)
    decreases |places|, 0
  {
    var k, rest := places[0].key, places[1..];
    assert places == [Key(k)] + rest;
    if k in Keys(f) && k in Keys(g) {
      LocateKey(f, k);
      LocateKey(g, k);
      c := EveryDifferenceReported(Get(f, k), Get(g, k), KeyPath(path, k), rest);
      ReportedBelow(c, Obj(f), Obj(g), Key(k), path, rest);
      var keys := Shared(f, g);
      var i :| 0 <= i < |keys| && keys[i] == k;
      InKeys(f, g, keys, |keys|, path, i, c);
    } else {
      c := OneSideReported(f, g, k, path, rest);
    }
  }

  lemma {:induction false} ItemDifferenceReported(a: seq<Json>, b: seq<Json>, path: string, places: seq<Place>) returns (c: Change)
    requires places != [] && DifferAt(Arr(a), Arr(b), places)
    ensures c in StructuralDiff(Arr(a), Arr(b), path) && ReportedNear(c, Arr(a), Arr(b), path, places)
    decreases |places|, 0
  {
    if |a| != |b| {
      c := LengthChanged(path, |a|, |b|);
      ReportedHere(c, Arr(a), Arr(b), path, places);
    } else {
      var i, rest := places[0].i, places[1..];
      assert places == [Index(i)] + rest;
      LocateIndex(a, i);
      LocateIndex(b, i);
      c := EveryDifferenceReported(a[i], b[i], IndexPath(path, i), rest);
      ReportedBelow(c, Arr(a), Arr(b), Index(i), path, rest);
      InItems(a, b, |a|, path, i, c);
    }
  }

  // ---------- In what order ----------

  /** The strings of a set, each once and in code-point order. */
  ghost predicate Lists(keys: seq<string>, all: set<string>) {
    && (forall k :: k in keys <==> k in all)
    && forall i, j :: 0 <= i < j < |keys| ==> Precedes(keys[i], keys[j])
  }

  lemma ListsOne(keys: seq<string>, all: set<string>)
    requires Lists(keys, all)
    ensures keys == SortedStrings(all)
  {
    SortedStringsAscend(all);
    AscendingListsAgree(keys, SortedStrings(all));
  }

  /** What is found under the given keys, one after the other. */
  function UnderKeys(f: seq<Field>, g: seq<Field>, keys: seq<string>, path: string): seq<Change>
    requires forall k :: k in keys ==> k in Keys(f) && k in Keys(g)
  {
    if keys == [] then []
    else StructuralDiff(Get(f, keys[0]), Get(g, keys[0]), path + "." + keys[0]) + UnderKeys(f, g, keys[1..], path)
  }

  lemma {:induction false} DiffKeysForward(f: seq<Field>, g: seq<Field>, keys: seq<string>, n: nat, path: string)
    requires n <= |keys| && forall k :: k in keys ==> k in Keys(f) && k in Keys(g)
    ensures DiffKeys(f, g, keys, |keys|, path) == DiffKeys(f, g, keys, n, path) + UnderKeys(f, g, keys[n..], path)
    decreases |keys| - n
  {
    if n < |keys| {
      DiffKeysForward(f, g, keys, n + 1, path);
      var here := StructuralDiff(Get(f, keys[n]), Get(g, keys[n]), path + "." + keys[n]);
      UnderFirst(f, g, keys[n..], path, keys[n + 1..], here);
      assert DiffKeys(f, g, keys, n + 1, path) == DiffKeys(f, g, keys, n, path) + here;
    }
  }

  lemma UnderFirst(f: seq<Field>, g: seq<Field>, keys: seq<string>, path: string, rest: seq<string>, here: seq<Change>)
    requires forall k :: k in keys ==> k in Keys(f) && k in Keys(g)
    requires keys != [] && rest == keys[1..] && here == StructuralDiff(Get(f, keys[0]), Get(g, keys[0]), path + "." + keys[0])
    ensures UnderKeys(f, g, keys, path) == here + UnderKeys(f, g, rest, path)
  {
  }

  /** Two objects: first the keys that went, then those that came, then what changed under those that stayed,
      each in code-point order. */
  lemma ObjectInOrder(f: seq<Field>, g: seq<Field>, gone: seq<string>, extra: seq<string>, both: seq<string>, path: string)
    requires Lists(gone, Keys(f) - Keys(g)) && Lists(extra, Keys(g) - Keys(f)) && Lists(both, Keys(f) * Keys(g))
    ensures StructuralDiff(Obj(f), Obj(g), path)
         == seq(|gone|, i requires 0 <= i < |gone| => (assert gone[i] in gone; Removed(path + "." + gone[i], Get(f, gone[i]))))
          + seq(|extra|, i requires 0 <= i < |extra| => (assert extra[i] in extra; Added(path + "." + extra[i], Get(g, extra[i]))))
          + UnderKeys(f, g, both, path)
  {
    ListsOne(gone, Keys(f) - Keys(g));
    ListsOne(extra, Keys(g) - Keys(f));
    ListsOne(both, Keys(f) * Keys(g));
    DiffKeysForward(f, g, both, 0, path);
  }

  /** What is found in the items of two lists, one after the other. */
  function UnderItems(a: seq<Json>, b: seq<Json>, index: nat, path: string): seq<Change>
    requires |a| == |b|
  {
    if a == [] then []
    else StructuralDiff(a[0], b[0], path + "[" + Decimal(index) + "]") + UnderItems(a[1..], b[1..], index + 1, path)
  }

  lemma {:induction false} DiffItemsForward(a: seq<Json>, b: seq<Json>, n: nat, path: string)
    requires n <= |a| == |b|
    ensures DiffItems(a, b, |a|, path) == DiffItems(a, b, n, path) + UnderItems(a[n..], b[n..], n, path)
    decreases |a| - n
  {
    if n < |a| {
      DiffItemsForward(a, b, n + 1, path);
      assert a[n..][1..] == a[n + 1..] && b[n..][1..] == b[n + 1..];
    }
  }

  /** Two lists of one length: what changed item by item, the first item's changes first. */
  lemma ItemsInOrder(a: seq<Json>, b: seq<Json>, path: string)
    requires |a| == |b|
    ensures StructuralDiff(Arr(a), Arr(b), path) == UnderItems(a, b, 0, path)
  {
    DiffItemsForward(a, b, 0, path);
    assert a[0..] == a && b[0..] == b;
  }

  // ---------- The hash and the diff ----------

  /** Two particular texts do not collide: all that is asked of the digest. */
  ghost predicate NoCollision(hash: string -> string, v: Json, w: Json) {
    hash(CanonicalJson(v)) == hash(CanonicalJson(w)) ==> CanonicalJson(v) == CanonicalJson(w)
  }

  function ArtifactReport(hash: string -> string, was: Json, now: Json): Report {
    var h, k := hash(CanonicalJson(was)), hash(CanonicalJson(now));
    if h == k then Identical(h) else Different(h, k, StructuralDiff(was, now, "$"))
  }

  /** The report shows the digest of each value under its own name, and the diff from the root; one digest
      when they are equal. */
  lemma ReportShowsBoth(hash: string -> string, was: Json, now: Json)
    ensures match ArtifactReport(hash, was, now)
      case Identical(h) => h == hash(CanonicalJson(was)) && h == hash(CanonicalJson(now))
      case Different(h, k, diff) =>
        h != k && h == hash(CanonicalJson(was)) && k == hash(CanonicalJson(now)) && diff == StructuralDiff(was, now, "$")
  {
  }

  /** Somewhere both values have, one holds a boolean and the other the number it equals in Python. */
  ghost predicate BoolMeetsNumber(v: Json, w: Json)
    decreases Size(v)
  {
    match (v, w)
    case (Arr(a), Arr(b)) => exists i :: 0 <= i < |a| && i < |b| && (ItemSize(a, i); BoolMeetsNumber(a[i], b[i]))
    case (Obj(f), Obj(g)) => exists k :: k in Keys(f) && k in Keys(g) && BoolMeetsNumber(Get(f, k), Get(g, k))
    case _ => BoolFacesNumber(v, w)
  }

  /** A boolean facing a number is all that `!=` forgives and the canonical text does not. */
  lemma {:induction false} LooseIsStrict(v: Json, w: Json)
    ensures Same(v, w) <==> Alike(true, v, w) && !BoolMeetsNumber(v, w)
    decreases Size(v)
  {
    if v.Arr? && w.Arr? {
      if |v.items| == |w.items| {
        forall i | 0 <= i < |v.items|
          ensures Same(v.items[i], w.items[i])
            <==> Alike(true, v.items[i], w.items[i]) && !BoolMeetsNumber(v.items[i], w.items[i])
        {
          ItemSize(v.items, i);
          LooseIsStrict(v.items[i], w.items[i]);
        }
      }
    } else if v.Obj? && w.Obj? {
      forall k | k in Keys(v.fields) && k in Keys(w.fields)
        ensures Same(Get(v.fields, k), Get(w.fields, k))
          <==> Alike(true, Get(v.fields, k), Get(w.fields, k)) && !BoolMeetsNumber(Get(v.fields, k), Get(w.fields, k))
      {
        LooseIsStrict(Get(v.fields, k), Get(w.fields, k));
      }
    }
  }

  /** The report says identical exactly when the values are the same up to key order. */
  lemma IdenticalIffSame(hash: string -> string, was: Json, now: Json)
    requires Proper(was) && Proper(now) && NoCollision(hash, was, now)
    ensures ArtifactReport(hash, was, now).Identical? <==> Same(was, now)
  {
    CanonicalIffSame(was, now);
  }

  /** Hash and diff agree unless a boolean faces its number and nothing else differs. */
  lemma IdenticalIffNoDiff(hash: string -> string, was: Json, now: Json)
    requires Proper(was) && Proper(now) && NoCollision(hash, was, now)
    ensures ArtifactReport(hash, was, now).Identical?
      <==> StructuralDiff(was, now, "$") == [] && !BoolMeetsNumber(was, now)
  {
    IdenticalIffSame(hash, was, now);
    LooseIsStrict(was, now);
    DiffEmpty(was, now, "$");
  }

  lemma OneMember(v: Json)
    ensures Keys([Field("n", v)]) == {"n"} && Get([Field("n", v)], "n") == v
  {
    var f := [Field("n", v)];
    assert f[0] in f;
  }

  lemma OneFacesTrue()
    ensures var v, w := Obj([Field("n", Num(1))]), Obj([Field("n", Bool(true))]);
      Alike(true, v, w) && BoolMeetsNumber(v, w)
  {
    OneMember(Num(1));
    OneMember(Bool(true));
    var f, g := [Field("n", Num(1))], [Field("n", Bool(true))];
    assert "n" in Keys(f) && "n" in Keys(g) && BoolMeetsNumber(Get(f, "n"), Get(g, "n"));
  }

  /** `{"n": 1}` and `{"n": true}`: the hashes differ and the diff is empty. */
  lemma OneIsTrue(hash: string -> string)
    ensures var v, w := Obj([Field("n", Num(1))]), Obj([Field("n", Bool(true))]);
      Proper(v) && Proper(w) && CanonicalJson(v) != CanonicalJson(w)
      && (NoCollision(hash, v, w) ==> ArtifactReport(hash, v, w).Different? && ArtifactReport(hash, v, w).diff == [])
  {
    var v, w := Obj([Field("n", Num(1))]), Obj([Field("n", Bool(true))]);
    OneFacesTrue();
    LooseIsStrict(v, w);
    CanonicalIffSame(v, w);
    DiffEmpty(v, w, "$");
  }
}
