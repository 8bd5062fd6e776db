/** String helpers standing in for the JavaScript string methods the source uses:
    `startsWith`, `split(':')[1]` and `toLowerCase`. */
module Text {

  predicate StartsWith(s: string, prefix: string)
  {
    |prefix| <= |s| && s[..|prefix|] == prefix
  }

  /** The part of `s` before its first ':' (all of `s` when it has none). */
  function FirstSegment(s: string): (r: string)
    ensures |r| <= |s| && r == s[..|r|]
    ensures ':' !in r
    ensures ':' !in s ==> r == s
    ensures ':' in s ==> |r| < |s| && s[|r|] == ':'
    decreases |s|
  {
    if s == [] || s[0] == ':' then [] else [s[0]] + FirstSegment(s[1..])
  }

  /** The part of `s` after its first ':'; `s` must contain one. */
  function AfterFirstColon(s: string): (r: string)
    requires ':' in s
    ensures |FirstSegment(s)| + 1 + |r| == |s|
    ensures r == s[|FirstSegment(s)| + 1..]
  {
    if s[0] == ':' then s[1..] else AfterFirstColon(s[1..])
  }

  /** `s.split(':')[1]`: the second ':'-separated field of `s`. */
  function SecondField(s: string): string
    requires ':' in s
  {
    FirstSegment(AfterFirstColon(s))
  }

  /** The second field of `tag + ":" + rest`, when `tag` has no ':', is the part
      of `rest` before its first ':'. */
  lemma {:induction false} SecondFieldAfterTag(tag: string, rest: string)
    requires ':' !in tag
    ensures ':' in tag + ":" + rest
    ensures SecondField(tag + ":" + rest) == FirstSegment(rest)
  {
    var s := tag + ":" + rest;
    assert s[|tag|] == ':';
    if tag == [] {
      assert s[1..] == rest;
    } else {
      assert s[1..] == tag[1..] + ":" + rest;
      SecondFieldAfterTag(tag[1..], rest);
    }
  }

  /** `toLowerCase` on one character, for the ASCII range. */
  function LowerChar(c: char): char
  {
    if 'A' <= c <= 'Z' then (c as int + 32) as char else c
  }

  /** The result has no upper-case ASCII letter, and every other character of
      `s` is left where it was. */
  function Lower(s: string): (r: string)
    ensures |r| == |s|
    ensures forall i :: 0 <= i < |r| ==> !('A' <= r[i] <= 'Z')
    ensures forall i :: 0 <= i < |s| && !('A' <= s[i] <= 'Z') ==> r[i] == s[i]
  {
    seq(|s|, i requires 0 <= i < |s| => LowerChar(s[i]))
  }

  /** Lowercasing twice is lowercasing once. */
  lemma LowerIdempotent(s: string)
    ensures Lower(Lower(s)) == Lower(s)
  {
  }

  /** Equality ignoring case is an equivalence, and every string is equal
      ignoring case to its lower-case form. */
  lemma SameIgnoringCaseEquivalence(a: string, b: string, c: string)
    ensures SameIgnoringCase(a, a)
    ensures SameIgnoringCase(a, b) ==> SameIgnoringCase(b, a)
    ensures SameIgnoringCase(a, b) && SameIgnoringCase(b, c) ==> SameIgnoringCase(a, c)
    ensures SameIgnoringCase(a, Lower(a))
  {
    LowerIdempotent(a);
  }

  /** `a.toLowerCase() === b.toLowerCase()` */
  predicate SameIgnoringCase(a: string, b: string)
  {
    Lower(a) == Lower(b)
  }
}
