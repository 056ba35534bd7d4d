/** Canonical JSON: keys sorted at every level, no insignificant whitespace, non-ASCII literal. */
module Json {
  import opened Text

  datatype Json =
    | Null
    | Bool(b: bool)
    | Num(n: int)
    | Str(s: string)
    | Arr(items: seq<Json>)
    | Obj(fields: seq<Field>)

  /** One member of an object; an object lists its members in insertion order. */
  datatype Field = Field(key: string, value: Json)

  // ---------- Size: what the recursions decrease ----------

  function Size(v: Json): (n: nat)
    ensures n >= 1
    decreases v
  {
    match v
    case Arr(items) => 1 + SizeItems(items)
    case Obj(fields) => 1 + SizeFields(fields)
    case _ => 1
  }

  function SizeItems(items: seq<Json>): nat
    decreases items
  {
    if items == [] then 0 else Size(items[0]) + SizeItems(items[1..])
  }

  function SizeFields(fields: seq<Field>): nat
    decreases fields
  {
    if fields == [] then 0 else Size(fields[0].value) + SizeFields(fields[1..])
  }

  // ---------- Sorting an object's members ----------

  function InsertField(f: Field, fields: seq<Field>): seq<Field> {
    if fields == [] then [f]
    else if !Before(fields[0].key, f.key) then [f] + fields
    else [fields[0]] + InsertField(f, fields[1..])
  }

  function SortFields(fields: seq<Field>): seq<Field> {
    if fields == [] then [] else InsertField(fields[0], SortFields(fields[1..]))
  }

  lemma {:induction false} InsertFieldSize(f: Field, fields: seq<Field>)
    ensures SizeFields(InsertField(f, fields)) == Size(f.value) + SizeFields(fields)
    ensures forall g :: g in InsertField(f, fields) <==> g == f || g in fields
  {
    if fields != [] && Before(fields[0].key, f.key) {
      InsertFieldSize(f, fields[1..]);
    }
  }

  lemma {:induction false} SortFieldsSize(fields: seq<Field>)
    ensures SizeFields(SortFields(fields)) == SizeFields(fields)
    ensures forall g :: g in SortFields(fields) <==> g in fields
  {
    if fields != [] {
      SortFieldsSize(fields[1..]);
      InsertFieldSize(fields[0], SortFields(fields[1..]));
    }
  }

  // ---------- Strings ----------

  const HEX := "0123456789abcdef"

  /** The escape of one character: short forms, `\u00xx` for other controls, otherwise itself. */
  function EscapeChar(c: char): string {
    if c == '"' then "\\\""
    else if c == '\\' then "\\\\"
    else if c == '\U{8}' then "\\b"
    else if c == '\U{C}' then "\\f"
    else if c == '\n' then "\\n"
    else if c == '\r' then "\\r"
    else if c == '\t' then "\\t"
    else if c < ' ' then "\\u00" + [HEX[c as int / 16], HEX[c as int % 16]]
    else [c]
  }

  function EscapeAll(s: string): string {
    if s == [] then "" else EscapeChar(s[0]) + EscapeAll(s[1..])
  }

  function QuoteText(s: string): string {
    "\"" + EscapeAll(s) + "\""
  }

  // ---------- The printer ----------

  function CanonicalJson(v: Json): string
    decreases Size(v), 0
  {
    match v
    case Null => "null"
    case Bool(b) => if b then "true" else "false"
    case Num(n) => IntText(n)
    case Str(s) => QuoteText(s)
    case Arr(items) => "[" + JoinItems(items) + "]"
    case Obj(fields) =>
      SortFieldsSize(fields);
      "{" + JoinFields(SortFields(fields)) + "}"
  }

  function JoinItems(items: seq<Json>): string
    decreases SizeItems(items), 1
  {
    if items == [] then ""
    else if |items| == 1 then CanonicalJson(items[0])
    else CanonicalJson(items[0]) + "," + JoinItems(items[1..])
  }

  function FieldText(f: Field): string
    decreases Size(f.value), 1
  {
    QuoteText(f.key) + ":" + CanonicalJson(f.value)
  }

  function JoinFields(fields: seq<Field>): string
    decreases SizeFields(fields), 2
  {
    if fields == [] then ""
    else if |fields| == 1 then FieldText(fields[0])
    else FieldText(fields[0]) + "," + JoinFields(fields[1..])
  }

  // ---------- The key-sorted value ----------

  function SortKeys(v: Json): Json
    decreases Size(v), 0
  {
    match v
    case Arr(items) => Arr(SortItems(items))
    case Obj(fields) =>
      SortFieldsSize(fields);
      Obj(SortMembers(SortFields(fields)))
    case _ => v
  }

  function SortItems(items: seq<Json>): seq<Json>
    decreases SizeItems(items), 1
  {
    if items == [] then [] else [SortKeys(items[0])] + SortItems(items[1..])
  }

  function SortMembers(fields: seq<Field>): seq<Field>
    decreases SizeFields(fields), 1
  {
    if fields == [] then [] else [Field(fields[0].key, SortKeys(fields[0].value))] + SortMembers(fields[1..])
  }

  // ---------- A parser for the printed subset of RFC 8259 ----------

  datatype Parsed<T> = Fail | Got(value: T, rest: string)

  /** The value of a hexadecimal digit. */
  function HexValue(c: char): Option<nat> {
    if '0' <= c <= '9' then Some(c as int - '0' as int)
    else if 'a' <= c <= 'f' then Some(10 + (c as int - 'a' as int))
    else if 'A' <= c <= 'F' then Some(10 + (c as int - 'A' as int))
    else None
  }

  /** Section 7: one character of a string, escaped or not. */
  function ParseChar(s: string): (r: Parsed<char>)
    ensures r.Got? ==> |r.rest| < |s|
  {
    if s == [] || s[0] < ' ' || s[0] == '"' then Fail
    else if s[0] != '\\' then Got(s[0], s[1..])
    else if |s| < 2 then Fail
    else match s[1]
      case '"' => Got('"', s[2..])
      case '\\' => Got('\\', s[2..])
      case '/' => Got('/', s[2..])
      case 'b' => Got('\U{8}', s[2..])
      case 'f' => Got('\U{C}', s[2..])
      case 'n' => Got('\n', s[2..])
      case 'r' => Got('\r', s[2..])
      case 't' => Got('\t', s[2..])
      case 'u' => ParseHex(s)
      case _ => Fail
  }

  function ParseHex(s: string): (r: Parsed<char>)
    ensures r.Got? ==> |r.rest| < |s|
  {
    if |s| < 6 then Fail
    else match (HexValue(s[2]), HexValue(s[3]), HexValue(s[4]), HexValue(s[5]))
      case (Some(a), Some(b), Some(c), Some(d)) =>
        var code := a * 4096 + b * 256 + c * 16 + d;
        if code < 0xD800 || 0xE000 <= code < 0x10000 then Got(code as char, s[6..]) else Fail
      case _ => Fail
  }

  /** The rest of a string after its opening quote. */
  function ParseText(s: string): (r: Parsed<string>)
    ensures r.Got? ==> |r.rest| < |s|
  {
    if s != [] && s[0] == '"' then Got("", s[1..])
    else match ParseChar(s)
      case Fail => Fail
      case Got(c, rest) =>
        match ParseText(rest)
        case Fail => Fail
        case Got(more, rest') => Got([c] + more, rest')
  }

  function DigitRun(s: string): (n: nat)
    ensures n <= |s| && AllDigits(s[..n])
    ensures n < |s| ==> !IsDigit(s[n])
  {
    if s == [] || !IsDigit(s[0]) then 0
    else
      var n := DigitRun(s[1..]);
      assert forall i :: 0 < i < n + 1 ==> s[i] == s[1..][..n][i - 1];
      n + 1
  }

  /** Section 6, without fraction or exponent: no leading zero, and no minus zero. */
  function ParseNatural(s: string): (r: Parsed<int>)
    ensures r.Got? ==> |r.rest| < |s|
  {
    var n := DigitRun(s);
    if n == 0 || (n > 1 && s[0] == '0') then Fail else Got(DecimalValue(s[..n]), s[n..])
  }

  function ParseNumber(s: string): (r: Parsed<int>)
    ensures r.Got? ==> |r.rest| < |s|
  {
    if s != [] && s[0] == '-' then
      match ParseNatural(s[1..])
      case Fail => Fail
      case Got(n, rest) => if n == 0 then Fail else Got(-n, rest)
    else ParseNatural(s)
  }

  /** Section 3: one value at the head of a text. */
  function ParseValue(s: string): (r: Parsed<Json>)
    ensures r.Got? ==> |r.rest| < |s|
    decreases |s|, 0
  {
    if s == [] then Fail
    else if "null" <= s then Got(Null, s[4..])
    else if "true" <= s then Got(Bool(true), s[4..])
    else if "false" <= s then Got(Bool(false), s[5..])
    else if s[0] == '"' then
      match ParseText(s[1..])
      case Fail => Fail
      case Got(t, rest) => Got(Str(t), rest)
    else if s[0] == '[' then
      if |s| > 1 && s[1] == ']' then Got(Arr([]), s[2..])
      else match ParseItems(s[1..])
        case Fail => Fail
        case Got(items, rest) => Got(Arr(items), rest)
    else if s[0] == '{' then
      if |s| > 1 && s[1] == '}' then Got(Obj([]), s[2..])
      else match ParseFields(s[1..])
        case Fail => Fail
        case Got(fields, rest) => Got(Obj(fields), rest)
    else match ParseNumber(s)
      case Fail => Fail
      case Got(n, rest) => Got(Num(n), rest)
  }

  /** Section 5: one or more values and the closing bracket. */
  function ParseItems(s: string): (r: Parsed<seq<Json>>)
    ensures r.Got? ==> |r.rest| < |s|
    decreases |s|, 1
  {
    match ParseValue(s)
    case Fail => Fail
    case Got(v, rest) =>
      if rest == [] then Fail
      else if rest[0] == ']' then Got([v], rest[1..])
      else if rest[0] != ',' then Fail
      else match ParseItems(rest[1..])
        case Fail => Fail
        case Got(more, rest') => Got([v] + more, rest')
  }

  /** Section 4: one member. */
  function ParseField(s: string): (r: Parsed<Field>)
    ensures r.Got? ==> |r.rest| < |s|
    decreases |s|, 1
  {
    if s == [] || s[0] != '"' then Fail
    else match ParseText(s[1..])
      case Fail => Fail
      case Got(key, rest) =>
        if rest == [] || rest[0] != ':' then Fail
        else match ParseValue(rest[1..])
          case Fail => Fail
          case Got(v, rest') => Got(Field(key, v), rest')
  }

  function ParseFields(s: string): (r: Parsed<seq<Field>>)
    ensures r.Got? ==> |r.rest| < |s|
    decreases |s|, 2
  {
    match ParseField(s)
    case Fail => Fail
    case Got(f, rest) =>
      if rest == [] then Fail
      else if rest[0] == '}' then Got([f], rest[1..])
      else if rest[0] != ',' then Fail
      else match ParseFields(rest[1..])
        case Fail => Fail
        case Got(more, rest') => Got([f] + more, rest')
  }
}
