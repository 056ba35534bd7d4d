/** Equality of JSON values up to the order of object keys, and what canonical texts have to do with it. */
module JsonEquality {
  import opened Text
  import opened Json
  import opened JsonRoundTrip

  // ---------- Objects as dictionaries ----------

  function Keys(fields: seq<Field>): set<string> {
    set f | f in fields :: f.key
  }

  /** The value under a key; the first one, when a key is repeated. */
  function Get(fields: seq<Field>, key: string): (v: Json)
    requires key in Keys(fields)
    ensures Field(key, v) in fields
    ensures Size(v) <= SizeFields(fields)
  {
    if fields[0].key == key then
      assert fields[0] == Field(key, fields[0].value);
      fields[0].value
    else
      assert fields == [fields[0]] + fields[1..];
      Get(fields[1..], key)
  }

  /** Both a dictionary and a JavaScript object hold each key once. */
  predicate DistinctKeys(fields: seq<Field>) {
    forall i, j :: 0 <= i < j < |fields| ==> fields[i].key != fields[j].key
  }

  predicate Proper(v: Json)
    decreases v
  {
    match v
    case Arr(items) => forall i :: 0 <= i < |items| ==> Proper(items[i])
    case Obj(fields) => DistinctKeys(fields) && forall i :: 0 <= i < |fields| ==> Proper(fields[i].value)
    case _ => true
  }

  lemma ProperValue(fields: seq<Field>, key: string)
    requires Proper(Obj(fields)) && key in Keys(fields)
    ensures Proper(Get(fields, key))
  {
    var f := Field(key, Get(fields, key));
    var i :| 0 <= i < |fields| && fields[i] == f;
  }

  lemma GetsOwnValue(fields: seq<Field>, f: Field)
    requires DistinctKeys(fields) && f in fields
    ensures f.key in Keys(fields) && Get(fields, f.key) == f.value
  {
    var i :| 0 <= i < |fields| && fields[i] == f;
    var g := Field(f.key, Get(fields, f.key));
    var j :| 0 <= j < |fields| && fields[j] == g;
  }

  lemma {:induction false} ItemSize(items: seq<Json>, i: nat)
    requires i < |items|
    ensures Size(items[i]) <= SizeItems(items)
  {
    if i > 0 { ItemSize(items[1..], i - 1); }
  }

  lemma FieldSize(fields: seq<Field>, f: Field)
    requires f in fields
    ensures Size(f.value) <= SizeFields(fields)
  {
    if f != fields[0] {
      assert fields == [fields[0]] + fields[1..];
      FieldSize(fields[1..], f);
    }
  }

  // ---------- Equality ----------

  /** Python's `True == 1` and `False == 0`, which `!=` sees and JSON text does not. */
  predicate BoolFacesNumber(v: Json, w: Json) {
    (v.Bool? && w.Num? && w.n == if v.b then 1 else 0)
    || (w.Bool? && v.Num? && v.n == if w.b then 1 else 0)
  }

  /** Equal up to the order of object keys; `loose` also equates booleans with 0 and 1. */
  predicate Alike(loose: bool, v: Json, w: Json)
    decreases Size(v)
  {
    match (v, w)
    case (Arr(a), Arr(b)) => |a| == |b| && forall i :: 0 <= i < |a| ==> (ItemSize(a, i); Alike(loose, a[i], b[i]))
    case (Obj(f), Obj(g)) => Keys(f) == Keys(g) && forall k :: k in Keys(f) ==> Alike(loose, Get(f, k), Get(g, k))
    case _ => v == w || (loose && BoolFacesNumber(v, w))
  }

  /** The values are the same, whatever order their objects list their keys in. */
  predicate Same(v: Json, w: Json) {
    Alike(false, v, w)
  }

  lemma {:induction false} Reflexive(loose: bool, v: Json)
    ensures Alike(loose, v, v)
    decreases Size(v)
  {
    match v
    case Arr(items) =>
      forall i | 0 <= i < |items| ensures Alike(loose, items[i], items[i]) {
        ItemSize(items, i);
        Reflexive(loose, items[i]);
      }
    case Obj(fields) =>
      forall k | k in Keys(fields) ensures Alike(loose, Get(fields, k), Get(fields, k)) {
        Reflexive(loose, Get(fields, k));
      }
    case _ =>
  }

  // ---------- Sorting keeps the members ----------

  ghost predicate StrictlySorted(fields: seq<Field>) {
    forall i, j :: 0 <= i < j < |fields| ==> Before(fields[i].key, fields[j].key)
  }

  lemma {:induction false} InsertSorted(f: Field, fields: seq<Field>)
    requires StrictlySorted(fields) && f.key !in Keys(fields)
    ensures StrictlySorted(InsertField(f, fields))
  {
    if fields != [] {
      InsertFieldSize(f, fields[1..]);
      if Before(fields[0].key, f.key) {
        InsertSorted(f, fields[1..]);
        var rest := InsertField(f, fields[1..]);
        forall j | 0 <= j < |rest| ensures Before(fields[0].key, rest[j].key) {
          assert rest[j] == f || rest[j] in fields[1..];
        }
      } else {
        BeforeTrichotomy(f.key, fields[0].key);
        forall j | 0 <= j < |fields| ensures Before(f.key, fields[j].key) {
          if j > 0 { BeforeTransitive(f.key, fields[0].key, fields[j].key); }
        }
      }
    }
  }

  lemma {:induction false} SortsStrictly(fields: seq<Field>)
    requires DistinctKeys(fields)
    ensures StrictlySorted(SortFields(fields))
  {
    if fields != [] {
      SortsStrictly(fields[1..]);
      SortFieldsSize(fields[1..]);
      InsertSorted(fields[0], SortFields(fields[1..]));
    }
  }

  /** `SortMembers` works member by member. */
  lemma {:induction false} MembersAt(fields: seq<Field>)
    ensures |SortMembers(fields)| == |fields|
    ensures forall i :: 0 <= i < |fields| ==> SortMembers(fields)[i] == Field(fields[i].key, SortKeys(fields[i].value))
  {
    if fields != [] { MembersAt(fields[1..]); }
  }

  lemma {:induction false} ItemsAt(items: seq<Json>)
    ensures |SortItems(items)| == |items|
    ensures forall i :: 0 <= i < |items| ==> SortItems(items)[i] == SortKeys(items[i])
  {
    if items != [] { ItemsAt(items[1..]); }
  }

  function SortedMember(f: Field): Field {
    Field(f.key, SortKeys(f.value))
  }

  /** The sorted form of an object's members. */
  function Normal(fields: seq<Field>): seq<Field> {
    SortMembers(SortFields(fields))
  }

  lemma NormalMember(fields: seq<Field>, f: Field)
    requires f in fields
    ensures SortedMember(f) in Normal(fields)
  {
    SortFieldsSize(fields);
    var sorted := SortFields(fields);
    var i :| 0 <= i < |sorted| && sorted[i] == f;
    MembersAt(sorted);
    assert Normal(fields)[i] == SortedMember(f);
  }

  lemma NormalOrigin(fields: seq<Field>, g: Field) returns (f: Field)
    requires g in Normal(fields)
    ensures f in fields && g == SortedMember(f)
  {
    SortFieldsSize(fields);
    var sorted := SortFields(fields);
    MembersAt(sorted);
    var i :| 0 <= i < |sorted| && Normal(fields)[i] == g;
    f := sorted[i];
  }

  lemma NormalSorted(fields: seq<Field>)
    requires DistinctKeys(fields)
    ensures StrictlySorted(Normal(fields))
  {
    SortsStrictly(fields);
    MembersAt(SortFields(fields));
  }

  /** A strictly sorted list is fixed by its elements. */
  lemma {:induction false} SortedListsAgree(a: seq<Field>, b: seq<Field>)
    requires StrictlySorted(a) && StrictlySorted(b)
    requires forall f :: f in a <==> f in b
    ensures a == b
  {
    if a != [] { assert a[0] in b; }
    if b != [] { assert b[0] in a; }
    if a != [] {
      BeforeTrichotomy(a[0].key, b[0].key);
      assert a[0] == b[0];
      assert a == [a[0]] + a[1..] && b == [b[0]] + b[1..];
      BeforeTrichotomy(a[0].key, a[0].key);
      forall f | f in a[1..] || f in b[1..] ensures f in a[1..] && f in b[1..] {
        assert f in a && f in b;
        assert f != a[0];
      }
      SortedListsAgree(a[1..], b[1..]);
    }
  }

  // ---------- Equal values, equal sorted forms ----------

  lemma SameMembers(f: seq<Field>, g: seq<Field>)
    requires DistinctKeys(g)
    requires Keys(f) == Keys(g)
    requires DistinctKeys(f)
    requires forall k :: k in Keys(f) ==> SortKeys(Get(f, k)) == SortKeys(Get(g, k))
    ensures forall m :: m in Normal(f) ==> m in Normal(g)
  {
    forall m | m in Normal(f) ensures m in Normal(g) {
      var x := NormalOrigin(f, m);
      GetsOwnValue(f, x);
      NormalMember(g, Field(x.key, Get(g, x.key)));
    }
  }

  lemma {:induction false} SameSorts(v: Json, w: Json)
    requires Proper(v) && Proper(w) && Same(v, w)
    ensures SortKeys(v) == SortKeys(w)
    decreases Size(v)
  {
    if v.Arr? && w.Arr? {
      ItemsAt(v.items);
      ItemsAt(w.items);
      forall i | 0 <= i < |v.items| ensures SortKeys(v.items[i]) == SortKeys(w.items[i]) {
        ItemSize(v.items, i);
        SameSorts(v.items[i], w.items[i]);
      }
      assert SortItems(v.items) == SortItems(w.items);
    } else if v.Obj? && w.Obj? {
      var f, g := v.fields, w.fields;
      forall k | k in Keys(f) ensures SortKeys(Get(f, k)) == SortKeys(Get(g, k)) {
        ProperValue(f, k);
        ProperValue(g, k);
        SameSorts(Get(f, k), Get(g, k));
      }
      SameMembers(f, g);
      SameMembers(g, f);
      NormalSorted(f);
      NormalSorted(g);
      SortedListsAgree(Normal(f), Normal(g));
      SortKeysObj(f);
      SortKeysObj(g);
    }
  }

  lemma SortKeysObj(fields: seq<Field>)
    ensures SortKeys(Obj(fields)) == Obj(Normal(fields))
  {
  }

  lemma SortsKeepKeys(f: seq<Field>, g: seq<Field>)
    requires DistinctKeys(g)
    requires Normal(f) == Normal(g)
    ensures Keys(f) <= Keys(g)
    ensures forall x :: x in f ==> x.key in Keys(g) && SortKeys(x.value) == SortKeys(Get(g, x.key))
  {
    forall x | x in f ensures x.key in Keys(g) && SortKeys(x.value) == SortKeys(Get(g, x.key)) {
      NormalMember(f, x);
      var y := NormalOrigin(g, SortedMember(x));
      GetsOwnValue(g, y);
    }
  }

  lemma {:induction false} SortsSame(v: Json, w: Json)
    requires Proper(v) && Proper(w) && SortKeys(v) == SortKeys(w)
    ensures Same(v, w)
    decreases Size(v)
  {
    if v.Arr? && w.Arr? {
      ItemsAt(v.items);
      ItemsAt(w.items);
      forall i | 0 <= i < |v.items| ensures Same(v.items[i], w.items[i]) {
        ItemSize(v.items, i);
        assert SortItems(v.items)[i] == SortItems(w.items)[i];
        SortsSame(v.items[i], w.items[i]);
      }
    } else if v.Obj? && w.Obj? {
      var f, g := v.fields, w.fields;
      SortKeysObj(f);
      SortKeysObj(g);
      SortsKeepKeys(f, g);
      SortsKeepKeys(g, f);
      forall k | k in Keys(f) ensures Same(Get(f, k), Get(g, k)) {
        assert Field(k, Get(f, k)) in f;
        ProperValue(f, k);
        ProperValue(g, k);
        SortsSame(Get(f, k), Get(g, k));
      }
    }
  }

  // ---------- The text depends on the sorted form only ----------

  lemma {:induction false} PrintsSortedItems(items: seq<Json>)
    requires forall i :: 0 <= i < |items| ==> Proper(items[i])
    ensures JoinItems(SortItems(items)) == JoinItems(items)
    decreases SizeItems(items), 1
  {
    if items != [] {
      PrintsSorted(items[0]);
      PrintsSortedItems(items[1..]);
      ItemsAt(items);
      assert SortItems(items)[1..] == SortItems(items[1..]);
    }
  }

  lemma {:induction false} PrintsSortedFields(fields: seq<Field>)
    requires forall i :: 0 <= i < |fields| ==> Proper(fields[i].value)
    ensures JoinFields(SortMembers(fields)) == JoinFields(fields)
    decreases SizeFields(fields), 1
  {
    if fields != [] {
      PrintsSorted(fields[0].value);
      PrintsSortedFields(fields[1..]);
      MembersAt(fields);
      assert SortMembers(fields)[1..] == SortMembers(fields[1..]);
    }
  }

  lemma {:induction false} SortedStays(fields: seq<Field>)
    requires StrictlySorted(fields)
    ensures SortFields(fields) == fields
  {
    if fields != [] {
      SortedStays(fields[1..]);
      if |fields| > 1 { BeforeTrichotomy(fields[0].key, fields[1].key); }
    }
  }

  /** A value and its key-sorted form print alike. */
  lemma {:induction false} PrintsSorted(v: Json)
    requires Proper(v)
    ensures CanonicalJson(SortKeys(v)) == CanonicalJson(v)
    decreases Size(v), 0
  {
    match v
    case Arr(items) => PrintsSortedItems(items);
    case Obj(fields) =>
      SortFieldsSize(fields);
      var sorted := SortFields(fields);
      forall i | 0 <= i < |sorted| ensures Proper(sorted[i].value) {
        assert sorted[i] in fields;
      }
      PrintsSortedFields(sorted);
      NormalSorted(fields);
      SortedStays(Normal(fields));
      ObjectText(fields);
      ObjectText(Normal(fields));
    case _ =>
  }

  /** Two values have the same canonical text exactly when they are equal up to object key order. */
  lemma CanonicalIffSame(v: Json, w: Json)
    requires Proper(v) && Proper(w)
    ensures CanonicalJson(v) == CanonicalJson(w) <==> Same(v, w)
  {
    CanonicalRoundTrip(v);
    CanonicalRoundTrip(w);
    if Same(v, w) {
      SameSorts(v, w);
      PrintsSorted(v);
      PrintsSorted(w);
    } else if CanonicalJson(v) == CanonicalJson(w) {
      SortsSame(v, w);
    }
  }

}
