/** The JavaScript string operations the components use: `includes`, the first
    occurrence search behind it, and `split` with a string separator. */
module Strings {
  import opened Common

  /** `pat` occurs in `s` starting at index `k`. */
  predicate MatchAt(s: string, pat: string, k: int) {
    0 <= k && k + |pat| <= |s| && s[k..k + |pat|] == pat
  }

  /** `s.includes(pat)`. */
  predicate Contains(s: string, pat: string) {
    exists k | 0 <= k <= |s| :: MatchAt(s, pat, k)
  }

  /** The first occurrence of `pat` in `s` at or after `from`. */
  function IndexFrom(s: string, pat: string, from: nat): (r: Option<nat>)
    ensures r.Some? ==> from <= r.value && MatchAt(s, pat, r.value)
    ensures r.Some? ==> forall k :: from <= k < r.value ==> !MatchAt(s, pat, k)
    ensures r.None? ==> forall k :: from <= k ==> !MatchAt(s, pat, k)
    decreases |s| - from
  {
    if from + |pat| > |s| then None
    else if s[from..from + |pat|] == pat then Some(from)
    else IndexFrom(s, pat, from + 1)
  }

  /** `s.indexOf(pat)`, with `None` for -1. */
  function IndexOf(s: string, pat: string): (r: Option<nat>)
    ensures r.Some? ==> MatchAt(s, pat, r.value)
    ensures r.Some? ==> forall k :: 0 <= k < r.value ==> !MatchAt(s, pat, k)
    ensures r.None? <==> !Contains(s, pat)
  {
    IndexFrom(s, pat, 0)
  }

  /** `s.split(sep)` for a non-empty separator (section 22.1.3.23 of ECMA-262):
      the pieces between the occurrences of `sep` found left to right without
      overlap. */
  function Split(s: string, sep: string): (parts: seq<string>)
    requires |sep| > 0
    ensures |parts| >= 1
    ensures Contains(s, sep) ==> |parts| >= 2
    decreases |s|
  {
    match IndexOf(s, sep)
    case None => [s]
    case Some(i) => [s[..i]] + Split(s[i + |sep|..], sep)
  }

  /** The first piece of a split is the text before the first separator, or all of it. */
  lemma SplitHead(s: string, sep: string)
    requires |sep| > 0
    ensures IndexOf(s, sep).None? ==> Split(s, sep)[0] == s
    ensures IndexOf(s, sep).Some? ==> Split(s, sep)[0] == s[..IndexOf(s, sep).value]
  {
  }

  /** A prefix that ends before the first occurrence of `pat` does not contain it. */
  lemma {:induction false} PrefixBeforeFirstMatch(s: string, pat: string, j: nat)
    requires |pat| > 0 && j <= |s|
    requires forall k :: 0 <= k < j ==> !MatchAt(s, pat, k)
    ensures !Contains(s[..j], pat)
  {
    if Contains(s[..j], pat) {
      var k :| 0 <= k <= j && MatchAt(s[..j], pat, k);
      assert k + |pat| <= j && s[..j][k..k + |pat|] == pat;
      assert s[..j][k..k + |pat|] == s[k..k + |pat|];
      assert MatchAt(s, pat, k);
    }
  }
}
