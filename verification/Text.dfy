/** What the modules share: options, distinct lists, decimal integers and code-point order. */
module Text {

  datatype Option<+T> = None | Some(value: T)

  ghost predicate Distinct<T>(xs: seq<T>) {
    forall i, j :: 0 <= i < j < |xs| ==> xs[i] != xs[j]
  }

  // ---------- Decimal integers ----------

  const DIGITS := "0123456789"

  predicate IsDigit(c: char) { '0' <= c <= '9' }

  function DigitValue(c: char): (d: nat)
    requires IsDigit(c)
    ensures d < 10 && DIGITS[d] == c
  {
    c as int - '0' as int
  }

  /** A natural number in decimal, most significant digit first, no leading zero. */
  function Decimal(n: nat): string
  {
    if n < 10 then [DIGITS[n]] else Decimal(n / 10) + [DIGITS[n % 10]]
  }

  /** What `${n}` prints for an integer. */
  function IntText(n: int): string {
    if n < 0 then "-" + Decimal(-n) else Decimal(n)
  }

  predicate AllDigits(s: string) { forall i :: 0 <= i < |s| ==> IsDigit(s[i]) }

  lemma {:induction false} DecimalDigits(n: nat)
    ensures Decimal(n) != [] && AllDigits(Decimal(n))
  {
    if n >= 10 { DecimalDigits(n / 10); }
  }

  /** The number a run of digits denotes. */
  function DecimalValue(s: string): nat
    requires AllDigits(s)
  {
    if s == [] then 0 else DecimalValue(s[..|s| - 1]) * 10 + DigitValue(s[|s| - 1])
  }

  lemma {:induction false} DecimalRoundTrip(n: nat)
    ensures AllDigits(Decimal(n)) && DecimalValue(Decimal(n)) == n
  {
    DecimalDigits(n);
    if n >= 10 {
      DecimalRoundTrip(n / 10);
      assert Decimal(n)[..|Decimal(n)| - 1] == Decimal(n / 10);
    } else {
      assert Decimal(n)[..0] == [];
    }
  }

  /** Decimal never prints a superfluous leading zero. */
  lemma {:induction false} DecimalLead(n: nat)
    ensures Decimal(n) != []
    ensures n > 0 ==> Decimal(n)[0] != '0'
    ensures n == 0 ==> Decimal(n) == "0"
  {
    DecimalDigits(n);
    if n >= 10 { DecimalLead(n / 10); }
  }

  lemma IntTextSign(n: int)
    ensures IntText(n) != [] && (IntText(n)[0] == '-' <==> n < 0)
  {
    DecimalDigits(if n < 0 then -n else n);
  }

  lemma IntTextInjective(m: int, n: int)
    requires IntText(m) == IntText(n)
    ensures m == n
  {
    IntTextSign(m);
    IntTextSign(n);
    DecimalRoundTrip(if m < 0 then -m else m);
    DecimalRoundTrip(if n < 0 then -n else n);
    assert m < 0 ==> IntText(m)[1..] == Decimal(-m);
    assert n < 0 ==> IntText(n)[1..] == Decimal(-n);
  }

  lemma IntTextLacks(n: int, c: char)
    requires c != '-' && !IsDigit(c)
    ensures c !in IntText(n)
  {
    DecimalDigits(if n < 0 then -n else n);
  }

  // ---------- Splitting at a separator ----------

  /** Two texts that agree up to a separator neither head contains have equal heads and tails. */
  lemma SplitAtSeparator(a: string, b: string, x: string, y: string, sep: char)
    requires a + [sep] + x == b + [sep] + y
    requires sep !in a && sep !in b
    ensures a == b && x == y
  {
    var s := a + [sep] + x;
    assert s[|a|] == sep && s[|b|] == sep;
    assert forall i :: 0 <= i < |a| ==> s[i] == a[i];
    assert forall i :: 0 <= i < |b| ==> s[i] == b[i];
    assert a == s[..|a|] && b == s[..|b|];
    assert x == s[|a| + 1..] && y == s[|b| + 1..];
  }

  // ---------- Code-point order ----------

  /** Strict lexicographic order: what `<` means on two strings. */
  predicate Before(a: string, b: string) {
    if b == [] then false
    else if a == [] then true
    else a[0] < b[0] || (a[0] == b[0] && Before(a[1..], b[1..]))
  }

  lemma {:induction false} BeforeTrichotomy(a: string, b: string)
    ensures Before(a, b) || Before(b, a) || a == b
    ensures !(Before(a, b) && Before(b, a))
    ensures !Before(a, a)
  {
    if a != [] && b != [] {
      BeforeTrichotomy(a[1..], b[1..]);
      if a[0] == b[0] && a[1..] == b[1..] {
        assert a == [a[0]] + a[1..] && b == [b[0]] + b[1..];
      }
    }
    if a != [] {
      BeforeTrichotomy(a[1..], a[1..]);
    }
  }

  lemma {:induction false} BeforeTransitive(a: string, b: string, c: string)
    requires Before(a, b) && Before(b, c)
    ensures Before(a, c)
  {
    if a != [] && a[0] == b[0] == c[0] {
      BeforeTransitive(a[1..], b[1..], c[1..]);
    }
  }

  /** What code-point order is: a text comes before its own continuations, and otherwise the first
      place where two texts differ decides, the smaller code point coming first. */
  ghost predicate Precedes(a: string, b: string) {
    (|a| < |b| && b[..|a|] == a) || exists i :: DiffersFirst(a, b, i) && a[i] < b[i]
  }

  /** Two texts agree up to place `i` and differ there. */
  predicate DiffersFirst(a: string, b: string, i: int) {
    0 <= i < |a| && i < |b| && a[..i] == b[..i] && a[i] != b[i]
  }

  lemma DiffersLater(a: string, b: string, i: int)
    requires a != [] && b != [] && a[0] == b[0]
    ensures DiffersFirst(a[1..], b[1..], i) <==> i >= 0 && DiffersFirst(a, b, i + 1)
  {
    if 0 <= i < |a| - 1 && i < |b| - 1 {
      assert a[..i + 1] == [a[0]] + a[1..][..i] && b[..i + 1] == [b[0]] + b[1..][..i];
      assert a[1..][..i] == a[..i + 1][1..] && b[1..][..i] == b[..i + 1][1..];
    }
  }

  lemma PrecedesLater(a: string, b: string)
    requires a != [] && b != [] && a[0] == b[0]
    ensures Precedes(a[1..], b[1..]) <==> Precedes(a, b)
  {
    if Precedes(a[1..], b[1..]) && !(|a| < |b| && b[1..][..|a| - 1] == a[1..]) {
      var i :| DiffersFirst(a[1..], b[1..], i) && a[1..][i] < b[1..][i];
      DiffersLater(a, b, i);
      assert DiffersFirst(a, b, i + 1) && a[i + 1] < b[i + 1];
    }
    if |a| < |b| {
      assert b[..|a|] == [b[0]] + b[1..][..|a| - 1] && a == [a[0]] + a[1..];
      assert b[1..][..|a| - 1] == b[..|a|][1..];
    }
    if Precedes(a, b) && !(|a| < |b| && b[..|a|] == a) {
      var i :| DiffersFirst(a, b, i) && a[i] < b[i];
      DiffersLater(a, b, i - 1);
      assert DiffersFirst(a[1..], b[1..], i - 1) && a[1..][i - 1] < b[1..][i - 1];
    }
  }

  lemma {:induction false} BeforeIsPrecedes(a: string, b: string)
    ensures Before(a, b) <==> Precedes(a, b)
  {
    if a == [] {
    } else if b == [] {
    } else if a[0] == b[0] {
      BeforeIsPrecedes(a[1..], b[1..]);
      PrecedesLater(a, b);
    } else {
      assert DiffersFirst(a, b, 0);
      assert |a| < |b| ==> b[..|a|][0] == b[0];
      assert forall i :: 0 < i < |a| && i < |b| ==> a[..i][0] == a[0] && b[..i][0] == b[0];
    }
  }

  /** The three-way result every string comparator in the sources computes. */
  function CompareText(a: string, b: string): int {
    if Before(a, b) then -1 else if Before(b, a) then 1 else 0
  }

  // ---------- A set of strings, sorted and joined ----------

  predicate IsLeast(m: string, s: set<string>) {
    m in s && forall x :: x in s ==> x == m || Before(m, x)
  }

  lemma {:induction false} LeastExists(s: set<string>)
    requires s != {}
    ensures exists m :: IsLeast(m, s)
    decreases |s|
  {
    var x :| x in s;
    if s == {x} {
      assert IsLeast(x, s);
    } else {
      LeastExists(s - {x});
      var m :| IsLeast(m, s - {x});
      BeforeTrichotomy(m, x);
      var least := if Before(m, x) then m else x;
      forall y | y in s ensures y == least || Before(least, y) {
        if y != x && y != m && least == x { BeforeTransitive(x, m, y); }
      }
      assert IsLeast(least, s);
    }
  }

  lemma LeastUnique(m: string, n: string, s: set<string>)
    requires IsLeast(m, s) && IsLeast(n, s)
    ensures m == n
  {
    BeforeTrichotomy(m, n);
  }

  /** The least string of a set. */
  function Least(s: set<string>): (m: string)
    requires s != {}
    ensures IsLeast(m, s)
  {
    LeastExists(s);
    assert forall m, n :: IsLeast(m, s) && IsLeast(n, s) ==> m == n by {
      forall m, n | IsLeast(m, s) && IsLeast(n, s) ensures m == n { LeastUnique(m, n, s); }
    }
    var m :| IsLeast(m, s);
    m
  }

  /** `[...s].sort()` for a set of strings. */
  function SortedStrings(s: set<string>): seq<string>
    decreases |s|
  {
    if s == {} then [] else var m := Least(s); [m] + SortedStrings(s - {m})
  }

  lemma {:induction false} SortedStringsElements(s: set<string>)
    ensures forall x :: x in SortedStrings(s) <==> x in s
    decreases |s|
  {
    if s != {} { SortedStringsElements(s - {Least(s)}); }
  }

  /** That list is in code-point order, and holds each string of the set once. */
  lemma {:induction false} SortedStringsAscend(s: set<string>)
    ensures forall i, j :: 0 <= i < j < |SortedStrings(s)| ==> Precedes(SortedStrings(s)[i], SortedStrings(s)[j])
    ensures forall x :: x in SortedStrings(s) <==> x in s
    ensures |SortedStrings(s)| == |s|
    decreases |s|
  {
    if s != {} {
      var m := Least(s);
      SortedStringsAscend(s - {m});
      forall x | x in SortedStrings(s - {m}) ensures Precedes(m, x) { BeforeIsPrecedes(m, x); }
    }
  }

  function Join(parts: seq<string>, sep: char): string {
    if parts == [] then ""
    else if |parts| == 1 then parts[0]
    else parts[0] + [sep] + Join(parts[1..], sep)
  }

  predicate Joinable(parts: seq<string>, sep: char) {
    forall i :: 0 <= i < |parts| ==> parts[i] != "" && sep !in parts[i]
  }

  lemma JoinHasSeparator(parts: seq<string>, sep: char)
    ensures |parts| > 1 ==> sep in Join(parts, sep)
  {
    if |parts| > 1 { assert Join(parts, sep)[|parts[0]|] == sep; }
  }

  /** A list of non-empty strings that do not contain the separator can be read back from its join. */
  lemma {:induction false} JoinInjective(a: seq<string>, b: seq<string>, sep: char)
    requires Joinable(a, sep) && Joinable(b, sep) && Join(a, sep) == Join(b, sep)
    ensures a == b
  {
    if a == [] || b == [] {
    } else if |a| == 1 || |b| == 1 {
      JoinHasSeparator(a, sep);
      JoinHasSeparator(b, sep);
    } else {
      SplitAtSeparator(a[0], b[0], Join(a[1..], sep), Join(b[1..], sep), sep);
      JoinInjective(a[1..], b[1..], sep);
      assert a == [a[0]] + a[1..] && b == [b[0]] + b[1..];
    }
  }

  /** So can a list of known length, if only its last part may contain the separator. */
  lemma {:induction false} JoinFixedLength(a: seq<string>, b: seq<string>, sep: char)
    requires |a| == |b| && Join(a, sep) == Join(b, sep)
    requires forall i :: 0 <= i < |a| - 1 ==> sep !in a[i] && sep !in b[i]
    ensures a == b
  {
    if |a| == 1 {
      assert a == [a[0]] && b == [b[0]];
    } else if |a| > 1 {
      SplitAtSeparator(a[0], b[0], Join(a[1..], sep), Join(b[1..], sep), sep);
      JoinFixedLength(a[1..], b[1..], sep);
      assert a == [a[0]] + a[1..] && b == [b[0]] + b[1..];
    }
  }

  /** The text a set of keys is compared by. */
  function KeyText(keys: set<string>): string {
    Join(SortedStrings(keys), '|')
  }

  /** The keys of the set in code-point order, with a bar between each and the next. */
  lemma KeyTextIs(keys: set<string>, list: seq<string>)
    requires |list| == |keys| && forall x :: x in list <==> x in keys
    requires forall i, j :: 0 <= i < j < |list| ==> Precedes(list[i], list[j])
    ensures KeyText(keys) == Join(list, '|')
  {
    SortedStringsAscend(keys);
    AscendingListsAgree(list, SortedStrings(keys));
  }

  lemma {:induction false} AscendingListsAgree(a: seq<string>, b: seq<string>)
    requires forall x :: x in a <==> x in b
    requires forall i, j :: 0 <= i < j < |a| ==> Precedes(a[i], a[j])
    requires forall i, j :: 0 <= i < j < |b| ==> Precedes(b[i], b[j])
    ensures a == b
  {
    if a != [] { assert a[0] in b; }
    if b != [] { assert b[0] in a; }
    if a != [] {
      SameHead(a, b);
      assert a == [a[0]] + a[1..] && b == [b[0]] + b[1..];
      BeforeIsPrecedes(a[0], a[0]);
      BeforeTrichotomy(a[0], a[0]);
      forall x | x in a[1..] || x in b[1..] ensures x in a[1..] && x in b[1..] {
        assert x in a && x in b && x != a[0];
      }
      AscendingListsAgree(a[1..], b[1..]);
    }
  }

  lemma SameHead(a: seq<string>, b: seq<string>)
    requires a != [] && b != [] && a[0] in b && b[0] in a
    requires forall i, j :: 0 <= i < j < |a| ==> Precedes(a[i], a[j])
    requires forall i, j :: 0 <= i < j < |b| ==> Precedes(b[i], b[j])
    ensures a[0] == b[0]
  {
    BeforeIsPrecedes(a[0], b[0]);
    BeforeIsPrecedes(b[0], a[0]);
    BeforeTrichotomy(a[0], b[0]);
  }

  lemma KeyTextInjective(a: set<string>, b: set<string>)
    requires forall x :: x in a ==> x != "" && '|' !in x
    requires forall x :: x in b ==> x != "" && '|' !in x
    requires KeyText(a) == KeyText(b)
    ensures a == b
  {
    SortedStringsElements(a);
    SortedStringsElements(b);
    assert forall i :: 0 <= i < |SortedStrings(a)| ==> SortedStrings(a)[i] in a;
    assert forall i :: 0 <= i < |SortedStrings(b)| ==> SortedStrings(b)[i] in b;
    JoinInjective(SortedStrings(a), SortedStrings(b), '|');
  }
}
