/** Digests of canonical texts, and what a version string says of the text it was made from. */
module ContentHashes {
  import opened Json
  import opened PythonValues

  /** A digest that, like SHA-256, always has 64 characters. */
  ghost predicate Digest(sha: string -> string) {
    forall t :: |sha(t)| == 64
  }

  /** Hexadecimal digits, sixty-four of them. */
  ghost predicate HexDigest(sha: string -> string) {
    Digest(sha) && forall t, i :: 0 <= i < 64 ==> IsHex(sha(t)[i])
  }

  function ContentHash(sha: string -> string, v: Json, length: nat): string {
    var d := sha(CanonicalJson(v));
    if |d| <= length then d else d[..length]
  }

  /** These two values do not share a truncated digest without sharing their text. */
  ghost predicate Distinguished(sha: string -> string, length: nat, v: Json, w: Json) {
    ContentHash(sha, v, length) == ContentHash(sha, w, length) ==> CanonicalJson(v) == CanonicalJson(w)
  }

  // ---------- Reading a version back ----------

  lemma SameTail(a: string, b: string, x: string, y: string)
    requires a + x == b + y && |x| == |y|
    ensures x == y
  {
    assert (a + x)[|a|..] == x;
    assert (b + y)[|b|..] == y;
  }

  lemma SameTailAfter(a: string, x: string, y: string)
    requires a + x == a + y
    ensures x == y
  {
    assert (a + x)[|a|..] == x;
    assert (a + y)[|a|..] == y;
  }
}
