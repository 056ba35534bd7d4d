/** JSON values as the Python validators read, compare and loop over them. */
module PythonValues {
  import opened Json
  import opened JsonEquality

  /** `v.get(key)` on a dictionary and `v.key` in the browser, a missing member reading as null. */
  function Member(v: Json, key: string): Json {
    if v.Obj? && key in Keys(v.fields) then Get(v.fields, key) else Null
  }

  /** `v.get(key, default)`. */
  function GetOr(v: Json, key: string, default: Json): Json {
    if v.Obj? && key in Keys(v.fields) then Get(v.fields, key) else default
  }

  /** A list of members with distinct keys is read member by member. */
  lemma MembersRead(fields: seq<Field>)
    requires DistinctKeys(fields)
    ensures forall i :: 0 <= i < |fields| ==> Member(Obj(fields), fields[i].key) == fields[i].value
  {
    forall i | 0 <= i < |fields| ensures Member(Obj(fields), fields[i].key) == fields[i].value {
      GetsOwnValue(fields, fields[i]);
    }
  }

  /** Python truth. */
  predicate Truthy(v: Json) {
    match v
    case Null => false
    case Bool(b) => b
    case Num(n) => n != 0
    case Str(s) => s != ""
    case Arr(items) => items != []
    case Obj(fields) => fields != []
  }

  /** `v or default`. */
  function Or(v: Json, default: Json): Json {
    if Truthy(v) then v else default
  }

  /** Python `==`. */
  predicate PyEqual(v: Json, w: Json) {
    Alike(true, v, w)
  }

  lemma StringsEqual(v: Json, s: string)
    ensures PyEqual(v, Str(s)) <==> v == Str(s)
  {
  }

  // ---------- Sets ----------

  /** Only these can be put into, or looked up in, a Python set; lists and dictionaries raise. */
  predicate Hashable(v: Json) {
    !v.Arr? && !v.Obj?
  }

  predicate AllHashable(ids: seq<Json>) {
    forall i :: 0 <= i < |ids| ==> Hashable(ids[i])
  }

  /** Membership in a set of hashable values. */
  predicate Within(x: Json, ids: seq<Json>) {
    exists i :: 0 <= i < |ids| && PyEqual(ids[i], x)
  }

  lemma MemberIsWithin(x: Json, ids: seq<Json>)
    requires x in ids
    ensures Within(x, ids)
  {
    var i :| 0 <= i < |ids| && ids[i] == x;
    Reflexive(true, x);
  }

  // ---------- Loops ----------

  /** What a `for` can loop over; anything else raises. */
  predicate Iterable(v: Json) {
    v.Arr? || v.Obj? || v.Str?
  }

  /** What it loops over: a list's items, a dictionary's keys, a text's characters. */
  function Elements(v: Json): seq<Json> {
    match v
    case Arr(items) => items
    case Obj(fields) => seq(|fields|, i requires 0 <= i < |fields| => Str(fields[i].key))
    case Str(s) => seq(|s|, i requires 0 <= i < |s| => Str([s[i]]))
    case _ => []
  }

  /** The items of a list, and none of anything else. */
  function ListOf(v: Json): seq<Json> {
    if v.Arr? then v.items else []
  }

  /** `[x.get(key) for x in list if isinstance(x, dict)]`. */
  function IdsUnder(list: seq<Json>, key: string): (r: seq<Json>)
    ensures forall x :: x in r <==> exists i :: 0 <= i < |list| && list[i].Obj? && Member(list[i], key) == x
  {
    if list == [] then []
    else
      assert forall i :: 0 < i < |list| ==> list[i] == list[1..][i - 1];
      var rest := IdsUnder(list[1..], key);
      assert forall i :: 0 <= i < |list| - 1 ==> list[1..][i] == list[i + 1];
      if list[0].Obj? then [Member(list[0], key)] + rest else rest
  }

  // ---------- Results ----------

  /** A run either returns its list or raises. */
  datatype Outcome<F> = Raised | Failures(list: seq<F>)

  /** `if bad: failures.append(f)`. */
  function When<F(!new)>(bad: bool, f: F): (r: seq<F>)
    ensures r == [] <==> !bad
    ensures forall g :: g in r <==> bad && g == f
  {
    if bad then [f] else []
  }

  /** One run after another: either may raise. */
  function Then<F(!new)>(a: Outcome<F>, b: Outcome<F>): (r: Outcome<F>)
    ensures r == Failures([]) <==> a == Failures([]) && b == Failures([])
    ensures r.Raised? <==> a.Raised? || b.Raised?
    ensures r.Failures? ==> forall g :: g in r.list <==> g in a.list || g in b.list
  {
    if a.Raised? || b.Raised? then Raised else Failures(a.list + b.list)
  }

  // ---------- Texts ----------

  predicate IsHex(c: char) {
    '0' <= c <= '9' || 'a' <= c <= 'f'
  }

  /** `^prefix[0-9a-f]{n}$`, whose `$` also stands before a final newline. */
  predicate Matches(prefix: string, n: nat, s: string) {
    |s| >= |prefix| + n && s[..|prefix|] == prefix
    && (forall i :: |prefix| <= i < |prefix| + n ==> IsHex(s[i]))
    && (s[|prefix| + n..] == "" || s[|prefix| + n..] == "\n")
  }

  predicate StandsAt(whole: string, part: string, i: nat)
    requires i + |part| <= |whole|
  {
    whole[i..i + |part|] == part
  }

  /** `part in whole`. */
  predicate Contains(whole: string, part: string) {
    exists i :: 0 <= i <= |whole| - |part| && StandsAt(whole, part, i)
  }

  /** What the validators call: SHA-256 in hexadecimal, `str()` of a value, and `lower()`. */
  datatype Python = Python(sha: string -> string, text: Json -> string, lower: string -> string)
}
