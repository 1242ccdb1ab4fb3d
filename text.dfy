/** ASCII case folding and substring search, as used by the catalog searches. */
module Text {

  function LowerChar(c: char): char
  {
    if 'A' <= c <= 'Z' then (c as int + 32) as char else c
  }

  /** `s` with every ASCII upper-case letter replaced by its lower-case letter. */
  function Lower(s: string): (r: string)
    ensures |r| == |s|
    ensures forall i :: 0 <= i < |r| ==> !('A' <= r[i] <= 'Z')
  {
    seq(|s|, i requires 0 <= i < |s| => LowerChar(s[i]))
  }

  /** `sub` occurs in `s` at some position (an empty `sub` occurs everywhere). */
  predicate Contains(s: string, sub: string)
    decreases |s|
  {
    sub <= s || (s != [] && Contains(s[1..], sub))
  }

  predicate ContainsIgnoringCase(s: string, sub: string)
  {
    Contains(Lower(s), Lower(sub))
  }

  lemma LowerIdempotent(s: string)
    ensures Lower(Lower(s)) == Lower(s)
  {
  }

  /** The search does not depend on the case of the query. */
  lemma QueryCaseIrrelevant(s: string, q: string)
    ensures ContainsIgnoringCase(s, Lower(q)) == ContainsIgnoringCase(s, q)
  {
    LowerIdempotent(q);
  }

  lemma EmptyQueryMatches(s: string)
    ensures ContainsIgnoringCase(s, "")
  {
  }
}
