/** The two string operations the keyword rules rely on: `str.lower()` (restricted to
    ASCII letters) and Python's substring test `pat in s`. */
module Text {

  function LowerChar(c: char): char
  {
    if 'A' <= c <= 'Z' then (c as int + 32) as char else c
  }

  /** ASCII model of `str.lower()`: upper-case Latin letters map to lower case, every other
      character is kept, and the length never changes. */
  function Lower(s: string): (r: string)
    ensures |r| == |s|
    ensures forall i :: 0 <= i < |s| ==> r[i] == LowerChar(s[i])
    ensures forall i :: 0 <= i < |r| ==> !('A' <= r[i] <= 'Z')
  {
    seq(|s|, i requires 0 <= i < |s| => LowerChar(s[i]))
  }

  lemma LowerIdempotent(s: string)
    ensures Lower(Lower(s)) == Lower(s)
  {
  }

  predicate MatchesAt(s: string, pat: string, i: nat)
  {
    i + |pat| <= |s| && s[i..i + |pat|] == pat
  }

  /** Python's `pat in s` for strings: some window of `s` equals `pat`. */
  predicate Contains(s: string, pat: string)
  {
    exists i: nat :: i <= |s| && MatchesAt(s, pat, i)
  }

  /** A window spelled out character by character witnesses `pat in s`. */
  lemma {:induction false} ContainsAt(s: string, pat: string, i: nat)
    requires i + |pat| <= |s|
    requires forall k :: 0 <= k < |pat| ==> s[i + k] == pat[k]
    ensures Contains(s, pat)
  {
    assert s[i..i + |pat|] == pat;
    assert MatchesAt(s, pat, i);
  }

  lemma MatchesAtAgrees(s: string, pat: string, i: nat, k: nat)
    requires k < |pat|
    ensures MatchesAt(s, pat, i) ==> i + k < |s| && s[i + k] == pat[k]
  {
  }

  /** `pat in s` fails when some character of `pat` occurs nowhere in `s`. */
  lemma {:induction false} NotContainsMissing(s: string, pat: string, k: nat)
    requires k < |pat|
    requires forall i :: 0 <= i < |s| ==> s[i] != pat[k]
    ensures !Contains(s, pat)
  {
    forall i: nat | i <= |s|
      ensures !MatchesAt(s, pat, i)
    {
      MatchesAtAgrees(s, pat, i, k);
    }
  }

  /** `pat in s` fails when every occurrence of the first character of `pat` in `s` is
      followed, `k` places later, by a character other than `pat[k]`. */
  lemma {:induction false} NotContainsPair(s: string, pat: string, k: nat)
    requires 0 < k < |pat|
    requires forall i :: 0 <= i && i + k < |s| && s[i] == pat[0] ==> s[i + k] != pat[k]
    ensures !Contains(s, pat)
  {
    forall i: nat | i <= |s|
      ensures !MatchesAt(s, pat, i)
    {
      MatchesAtAgrees(s, pat, i, 0);
      MatchesAtAgrees(s, pat, i, k);
    }
  }
}
