/** Canonical JSON read back gives the value with its keys sorted. */
module JsonRoundTrip {
  import opened Text
  import opened Json

  // ---------- Strings ----------

  lemma Regroup(a: string, b: string, c: string)
    ensures a + b + c == a + (b + c)
  {
  }

  lemma HexDigit(k: nat)
    requires k < 16
    ensures HexValue(HEX[k]) == Some(k)
  {
    if k < 10 { assert HEX[k] == ('0' as int + k) as char; } else { assert HEX[k] == ('a' as int + (k - 10)) as char; }
  }

  lemma ParseEscapedChar(c: char, rest: string)
    ensures EscapeChar(c) != [] && EscapeChar(c)[0] != '"'
    ensures ParseChar(EscapeChar(c) + rest) == Got(c, rest)
  {
    var s := EscapeChar(c) + rest;
    if |EscapeChar(c)| == 1 {
      assert s[1..] == rest;
    } else if |EscapeChar(c)| == 2 {
      assert s[2..] == rest;
    } else {
      HexDigit(c as int / 16);
      HexDigit(c as int % 16);
      assert s[6..] == rest;
    }
  }

  lemma {:induction false} ParseEscapedText(t: string, rest: string)
    ensures ParseText(EscapeAll(t) + "\"" + rest) == Got(t, rest)
  {
    var s := EscapeAll(t) + "\"" + rest;
    if t == [] {
      assert s[1..] == rest;
    } else {
      var tail := EscapeAll(t[1..]) + "\"" + rest;
      assert s == EscapeChar(t[0]) + tail;
      ParseEscapedChar(t[0], tail);
      assert s[0] == EscapeChar(t[0])[0];
      ParseEscapedText(t[1..], rest);
      assert [t[0]] + t[1..] == t;
    }
  }

  // ---------- Numbers ----------

  /** What may follow a number without being taken for part of it. */
  predicate Ends(rest: string) {
    rest == [] || !IsDigit(rest[0])
  }

  lemma {:induction false} DigitRunStops(digits: string, rest: string)
    requires AllDigits(digits) && Ends(rest)
    ensures DigitRun(digits + rest) == |digits|
  {
    if digits != [] {
      assert (digits + rest)[1..] == digits[1..] + rest;
      DigitRunStops(digits[1..], rest);
    } else {
      assert digits + rest == rest;
    }
  }

  lemma {:induction false} DecimalLength(n: nat)
    ensures |Decimal(n)| > 1 <==> n >= 10
  {
    DecimalDigits(n / 10);
  }

  lemma ParseDecimal(n: nat, rest: string)
    requires Ends(rest)
    ensures ParseNatural(Decimal(n) + rest) == Got(n, rest)
  {
    DecimalDigits(n);
    DecimalLead(n);
    DecimalLength(n);
    DecimalRoundTrip(n);
    DigitRunStops(Decimal(n), rest);
    var s := Decimal(n) + rest;
    assert s[..|Decimal(n)|] == Decimal(n) && s[|Decimal(n)|..] == rest;
  }

  lemma ParseMinus(t: string, n: int, rest: string)
    requires n != 0 && ParseNatural(t) == Got(n, rest)
    ensures ParseNumber("-" + t) == Got(-n, rest)
  {
    assert ("-" + t)[1..] == t;
  }

  lemma ParseNegative(n: nat, rest: string)
    requires n > 0 && Ends(rest)
    ensures ParseNumber("-" + Decimal(n) + rest) == Got(0 - n, rest)
  {
    Regroup("-", Decimal(n), rest);
    ParseDecimal(n, rest);
    ParseMinus(Decimal(n) + rest, n, rest);
  }

  lemma ParsePositive(n: nat, rest: string)
    requires Ends(rest)
    ensures ParseNumber(Decimal(n) + rest) == Got(n, rest)
  {
    DecimalDigits(n);
    assert (Decimal(n) + rest)[0] == Decimal(n)[0];
    ParseDecimal(n, rest);
  }

  lemma IntTextForms(n: int)
    ensures n < 0 ==> IntText(n) == "-" + Decimal(-n)
    ensures n >= 0 ==> IntText(n) == Decimal(n)
  {
  }

  lemma ParseIntText(n: int, rest: string)
    requires Ends(rest)
    ensures ParseNumber(IntText(n) + rest) == Got(n, rest)
  {
    IntTextForms(n);
    if n < 0 { ParseNegative(-n, rest); } else { ParsePositive(n, rest); }
  }

  // ---------- Values ----------

  lemma IntTextHead(n: int)
    ensures IntText(n) != [] && (IntText(n)[0] == '-' || IsDigit(IntText(n)[0]))
  {
    DecimalDigits(if n < 0 then -n else n);
  }

  /** The first character of a printed value tells its kind, and closes nothing. */
  lemma Head(v: Json)
    ensures CanonicalJson(v) != []
    ensures CanonicalJson(v)[0] != ']' && CanonicalJson(v)[0] != '}'
  {
    if v.Num? { IntTextHead(v.n); }
  }

  lemma ParseLiteral(b: bool, rest: string)
    ensures ParseValue((if b then "true" else "false") + rest) == Got(Bool(b), rest)
  {
    if b {
      var s := "true" + rest;
      assert s[0] == 't';
      assert "true" <= s;
      assert s[4..] == rest;
    } else {
      var s := "false" + rest;
      assert s[0] == 'f';
      assert "false" <= s;
      assert s[5..] == rest;
    }
  }

  lemma NumberIsNoLiteral(s: string)
    requires s != [] && (s[0] == '-' || IsDigit(s[0]))
    ensures ParseValue(s) == match ParseNumber(s) case Fail => Fail case Got(n, rest) => Got(Num(n), rest)
  {
  }

  lemma ParseIntValue(n: int, rest: string)
    requires Ends(rest)
    ensures ParseValue(IntText(n) + rest) == Got(Num(n), rest)
  {
    IntTextHead(n);
    assert (IntText(n) + rest)[0] == IntText(n)[0];
    ParseIntText(n, rest);
    NumberIsNoLiteral(IntText(n) + rest);
  }

  lemma OpenText(body: string, t: string, rest: string)
    requires ParseText(body) == Got(t, rest)
    ensures ParseValue("\"" + body) == Got(Str(t), rest)
  {
    var s := "\"" + body;
    assert s[0] == '"' && s[1..] == body;
  }

  lemma QuotedSplit(t: string, rest: string)
    ensures QuoteText(t) + rest == "\"" + (EscapeAll(t) + "\"" + rest)
  {
  }

  lemma ParseStringValue(t: string, rest: string)
    ensures ParseValue(QuoteText(t) + rest) == Got(Str(t), rest)
  {
    ParseEscapedText(t, rest);
    OpenText(EscapeAll(t) + "\"" + rest, t, rest);
    QuotedSplit(t, rest);
  }

  lemma ParsePlain(v: Json, rest: string)
    requires !v.Arr? && !v.Obj? && Ends(rest)
    ensures ParseValue(CanonicalJson(v) + rest) == Got(SortKeys(v), rest)
  {
    match v
    case Null =>
      var s := "null" + rest;
      assert "null" <= s && s[4..] == rest;
    case Bool(b) => ParseLiteral(b, rest);
    case Num(n) => ParseIntValue(n, rest);
    case Str(t) => ParseStringValue(t, rest);
  }

  lemma ParseEmpty(rest: string)
    ensures ParseValue("[]" + rest) == Got(Arr([]), rest)
    ensures ParseValue("{}" + rest) == Got(Obj([]), rest)
  {
    var s := "[]" + rest;
    assert s[0] == '[' && s[1] == ']' && s[2..] == rest;
    var t := "{}" + rest;
    assert t[0] == '{' && t[1] == '}' && t[2..] == rest;
  }

  lemma OpenArray(body: string, items: seq<Json>, rest: string)
    requires body != [] && body[0] != ']' && ParseItems(body) == Got(items, rest)
    ensures ParseValue("[" + body) == Got(Arr(items), rest)
  {
    var s := "[" + body;
    assert s[0] == '[' && s[1] == body[0] && s[1..] == body;
  }

  lemma OpenObject(body: string, fields: seq<Field>, rest: string)
    requires body != [] && body[0] != '}' && ParseFields(body) == Got(fields, rest)
    ensures ParseValue("{" + body) == Got(Obj(fields), rest)
  {
    var s := "{" + body;
    assert s[0] == '{' && s[1] == body[0] && s[1..] == body;
  }

  lemma LastItem(s: string, v: Json, rest: string)
    requires ParseValue(s) == Got(v, "]" + rest)
    ensures ParseItems(s) == Got([v], rest)
  {
    assert ("]" + rest)[1..] == rest;
  }

  lemma OneMoreItem(s: string, v: Json, tail: string, more: seq<Json>, rest: string)
    requires ParseValue(s) == Got(v, "," + tail)
    requires ParseItems(tail) == Got(more, rest)
    ensures ParseItems(s) == Got([v] + more, rest)
  {
    assert ("," + tail)[1..] == tail;
  }

  lemma LastField(s: string, f: Field, rest: string)
    requires ParseField(s) == Got(f, "}" + rest)
    ensures ParseFields(s) == Got([f], rest)
  {
    assert ("}" + rest)[1..] == rest;
  }

  lemma OneMoreField(s: string, f: Field, tail: string, more: seq<Field>, rest: string)
    requires ParseField(s) == Got(f, "," + tail)
    requires ParseFields(tail) == Got(more, rest)
    ensures ParseFields(s) == Got([f] + more, rest)
  {
    assert ("," + tail)[1..] == tail;
  }

  lemma RegroupMany(a: string, b: string, close: string, rest: string)
    ensures a + "," + b + close + rest == a + ("," + (b + close + rest))
  {
  }

  lemma OneItem(items: seq<Json>)
    requires |items| == 1
    ensures JoinItems(items) == CanonicalJson(items[0])
    ensures SortItems(items) == [SortKeys(items[0])]
  {
    assert items[1..] == [];
    assert SortItems(items[1..]) == [];
  }

  lemma ManyItems(items: seq<Json>)
    requires |items| > 1
    ensures JoinItems(items) == CanonicalJson(items[0]) + "," + JoinItems(items[1..])
    ensures SortItems(items) == [SortKeys(items[0])] + SortItems(items[1..])
  {
  }

  lemma OneField(fields: seq<Field>)
    requires |fields| == 1
    ensures JoinFields(fields) == FieldText(fields[0])
    ensures SortMembers(fields) == [Field(fields[0].key, SortKeys(fields[0].value))]
  {
    assert fields[1..] == [];
    assert SortMembers(fields[1..]) == [];
  }

  lemma ManyFields(fields: seq<Field>)
    requires |fields| > 1
    ensures JoinFields(fields) == FieldText(fields[0]) + "," + JoinFields(fields[1..])
    ensures SortMembers(fields) == [Field(fields[0].key, SortKeys(fields[0].value))] + SortMembers(fields[1..])
  {
  }

  lemma {:induction false} ParsePrinted(v: Json, rest: string)
    requires Ends(rest)
    ensures ParseValue(CanonicalJson(v) + rest) == Got(SortKeys(v), rest)
    decreases Size(v), 0
  {
    match v
    case Arr(items) =>
      if items != [] { ParsePrintedItems(items, rest); }
      ArrayPrinted(items, rest);
    case Obj(fields) =>
      SortFieldsSize(fields);
      if SortFields(fields) != [] { ParsePrintedFields(SortFields(fields), rest); }
      ObjectPrinted(fields, rest);
    case _ => ParsePlain(v, rest);
  }

  lemma ArrayPrinted(items: seq<Json>, rest: string)
    requires items != [] ==> ParseItems(JoinItems(items) + "]" + rest) == Got(SortItems(items), rest)
    ensures ParseValue(CanonicalJson(Arr(items)) + rest) == Got(SortKeys(Arr(items)), rest)
  {
    if items == [] {
      ParseEmpty(rest);
      assert CanonicalJson(Arr(items)) == "[]";
    } else {
      var body := JoinItems(items) + "]" + rest;
      Head(items[0]);
      assert body[0] == CanonicalJson(items[0])[0];
      OpenArray(body, SortItems(items), rest);
      assert CanonicalJson(Arr(items)) + rest == "[" + body;
    }
  }

  lemma ObjectText(fields: seq<Field>)
    ensures CanonicalJson(Obj(fields)) == "{" + JoinFields(SortFields(fields)) + "}"
    ensures SortKeys(Obj(fields)) == Obj(SortMembers(SortFields(fields)))
  {
  }

  lemma FieldsHead(fields: seq<Field>)
    requires fields != []
    ensures JoinFields(fields) != [] && JoinFields(fields)[0] == '"'
  {
    assert FieldText(fields[0])[0] == '"';
  }

  lemma ObjectPrinted(fields: seq<Field>, rest: string)
    requires SortFields(fields) != [] ==>
      ParseFields(JoinFields(SortFields(fields)) + "}" + rest) == Got(SortMembers(SortFields(fields)), rest)
    ensures ParseValue(CanonicalJson(Obj(fields)) + rest) == Got(SortKeys(Obj(fields)), rest)
  {
    var sorted := SortFields(fields);
    ObjectText(fields);
    if sorted == [] {
      ParseEmpty(rest);
      assert SortMembers(sorted) == [];
      assert JoinFields(sorted) == "";
    } else {
      var body := JoinFields(sorted) + "}" + rest;
      FieldsHead(sorted);
      assert body[0] == '"';
      OpenObject(body, SortMembers(sorted), rest);
      Enclosed(JoinFields(sorted), rest);
    }
  }

  lemma Enclosed(inner: string, rest: string)
    ensures "{" + inner + "}" + rest == "{" + (inner + "}" + rest)
  {
  }

  lemma {:induction false} ParsePrintedItems(items: seq<Json>, rest: string)
    requires items != []
    ensures ParseItems(JoinItems(items) + "]" + rest) == Got(SortItems(items), rest)
    decreases SizeItems(items), 1
  {
    var head := CanonicalJson(items[0]);
    if |items| == 1 {
      ParsePrinted(items[0], "]" + rest);
      OneItem(items);
      Regroup(head, "]", rest);
      LastItem(head + ("]" + rest), SortKeys(items[0]), rest);
    } else {
      var body := JoinItems(items[1..]);
      ParsePrinted(items[0], "," + (body + "]" + rest));
      ParsePrintedItems(items[1..], rest);
      ManyItems(items);
      RegroupMany(head, body, "]", rest);
      var tail := body + "]" + rest;
      OneMoreItem(head + ("," + tail), SortKeys(items[0]), tail, SortItems(items[1..]), rest);
    }
  }

  lemma FieldSplit(f: Field, rest: string)
    ensures FieldText(f) + rest == "\"" + (EscapeAll(f.key) + "\"" + (":" + (CanonicalJson(f.value) + rest)))
  {
  }

  lemma OpenField(body: string, key: string, tail: string, v: Json, rest: string)
    requires ParseText(body) == Got(key, ":" + tail)
    requires ParseValue(tail) == Got(v, rest)
    ensures ParseField("\"" + body) == Got(Field(key, v), rest)
  {
    assert ("\"" + body)[1..] == body;
    assert (":" + tail)[1..] == tail;
  }

  lemma {:induction false} ParsePrintedField(f: Field, rest: string)
    requires Ends(rest)
    ensures ParseField(FieldText(f) + rest) == Got(Field(f.key, SortKeys(f.value)), rest)
    decreases Size(f.value), 1
  {
    var tail := CanonicalJson(f.value) + rest;
    FieldSplit(f, rest);
    ParseEscapedText(f.key, ":" + tail);
    ParsePrinted(f.value, rest);
    OpenField(EscapeAll(f.key) + "\"" + (":" + tail), f.key, tail, SortKeys(f.value), rest);
  }

  lemma {:induction false} ParsePrintedFields(fields: seq<Field>, rest: string)
    requires fields != []
    ensures ParseFields(JoinFields(fields) + "}" + rest) == Got(SortMembers(fields), rest)
    decreases SizeFields(fields), 2
  {
    var head := FieldText(fields[0]);
    var f := Field(fields[0].key, SortKeys(fields[0].value));
    if |fields| == 1 {
      ParsePrintedField(fields[0], "}" + rest);
      OneField(fields);
      Regroup(head, "}", rest);
      LastField(head + ("}" + rest), f, rest);
    } else {
      var body := JoinFields(fields[1..]);
      ParsePrintedField(fields[0], "," + (body + "}" + rest));
      ParsePrintedFields(fields[1..], rest);
      ManyFields(fields);
      RegroupMany(head, body, "}", rest);
      var tail := body + "}" + rest;
      OneMoreField(head + ("," + tail), f, tail, SortMembers(fields[1..]), rest);
    }
  }

  /** A parser recovers the key-sorted value from its canonical text. */
  lemma CanonicalRoundTrip(v: Json)
    ensures ParseValue(CanonicalJson(v)) == Got(SortKeys(v), "")
  {
    assert CanonicalJson(v) + "" == CanonicalJson(v);
    ParsePrinted(v, "");
  }
}
