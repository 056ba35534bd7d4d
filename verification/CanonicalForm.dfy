/** What a canonical text looks like, said without the functions that print it. */
module CanonicalForm {
  import opened Text
  import opened Json
  import opened JsonRoundTrip
  import opened JsonEquality

  // ---------- The order of keys ----------

  /** At every level the keys of an object stand in code-point order. */
  ghost predicate KeysAscend(v: Json)
    decreases v
  {
    match v
    case Arr(items) => forall i :: 0 <= i < |items| ==> KeysAscend(items[i])
    case Obj(fields) =>
      && (forall i, j :: 0 <= i < j < |fields| ==> Precedes(fields[i].key, fields[j].key))
      && forall i :: 0 <= i < |fields| ==> KeysAscend(fields[i].value)
    case _ => true
  }

  lemma SortedAscends(fields: seq<Field>)
    requires StrictlySorted(fields)
    ensures forall i, j :: 0 <= i < j < |fields| ==> Precedes(fields[i].key, fields[j].key)
  {
    forall i, j | 0 <= i < j < |fields| ensures Precedes(fields[i].key, fields[j].key) {
      BeforeIsPrecedes(fields[i].key, fields[j].key);
    }
  }

  lemma AscendingIsDistinct(fields: seq<Field>)
    requires StrictlySorted(fields)
    ensures DistinctKeys(fields)
  {
    forall i, j | 0 <= i < j < |fields| ensures fields[i].key != fields[j].key {
      BeforeTrichotomy(fields[i].key, fields[j].key);
    }
  }

  lemma {:induction false} SortKeysAscends(v: Json)
    requires Proper(v)
    ensures KeysAscend(SortKeys(v)) && Proper(SortKeys(v))
    decreases Size(v)
  {
    match v
    case Arr(items) =>
      ItemsAt(items);
      forall i | 0 <= i < |items| ensures KeysAscend(SortItems(items)[i]) && Proper(SortItems(items)[i]) {
        ItemSize(items, i);
        SortKeysAscends(items[i]);
      }
    case Obj(fields) =>
      SortKeysObj(fields);
      NormalSorted(fields);
      SortedAscends(Normal(fields));
      AscendingIsDistinct(Normal(fields));
      forall i | 0 <= i < |Normal(fields)| ensures KeysAscend(Normal(fields)[i].value) && Proper(Normal(fields)[i].value) {
        var f := NormalOrigin(fields, Normal(fields)[i]);
        FieldSize(fields, f);
        var k :| 0 <= k < |fields| && fields[k] == f;
        SortKeysAscends(f.value);
      }
    case _ =>
  }

  /** A canonical text reads back as the same value with the keys of every object in code-point order. */
  lemma ReadsBackInOrder(v: Json)
    requires Proper(v)
    ensures exists w :: ParseValue(CanonicalJson(v)) == Got(w, "") && Same(v, w) && KeysAscend(w)
  {
    var w := SortKeys(v);
    SortKeysAscends(v);
    CanonicalRoundTrip(v);
    CanonicalRoundTrip(w);
    PrintsSorted(v);
    SortsSame(v, w);
    assert ParseValue(CanonicalJson(v)) == Got(w, "") && Same(v, w) && KeysAscend(w);
  }

  // ---------- The members of one object ----------

  /** An object is printed with its members in code-point order, each once, with commas between them. */
  lemma ObjectIsPrintedInOrder(fields: seq<Field>, list: seq<Field>)
    requires DistinctKeys(fields) && forall f :: f in list <==> f in fields
    requires forall i, j :: 0 <= i < j < |list| ==> Precedes(list[i].key, list[j].key)
    ensures CanonicalJson(Obj(fields)) == "{" + JoinFields(list) + "}"
  {
    SortsStrictly(fields);
    SortFieldsSize(fields);
    assert StrictlySorted(list) by {
      forall i, j | 0 <= i < j < |list| ensures Before(list[i].key, list[j].key) {
        BeforeIsPrecedes(list[i].key, list[j].key);
      }
    }
    SortedListsAgree(list, SortFields(fields));
  }

  // ---------- The escapes ----------

  /** The ways RFC 8259, section 7, allows one character to be written in a string. */
  predicate Writes(t: string, c: char) {
    ParseChar(t) == Got(c, "")
  }

  /** A text without upper-case hexadecimal digits. */
  predicate LowerHex(t: string) {
    forall i :: 2 <= i < |t| ==> !('A' <= t[i] <= 'F')
  }

  lemma NoneIsShorter(c: char, t: string)
    requires Writes(t, c)
    ensures |EscapeChar(c)| <= |t|
  {
  }

  lemma EscapeIsLower(c: char)
    ensures LowerHex(EscapeChar(c))
  {
  }

  /** Of all the ways to write a character its escape is a shortest, with lower-case digits. */
  lemma EscapeIsShortest(c: char)
    ensures Writes(EscapeChar(c), c) && LowerHex(EscapeChar(c))
    ensures forall t :: Writes(t, c) ==> |EscapeChar(c)| <= |t|
  {
    ParseEscapedChar(c, "");
    assert EscapeChar(c) + "" == EscapeChar(c);
    EscapeIsLower(c);
    forall t | Writes(t, c) ensures |EscapeChar(c)| <= |t| { NoneIsShorter(c, t); }
  }
}
