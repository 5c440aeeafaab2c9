/** The Python string methods the core relies on, over `seq<char>`. */
module Text {

  /** `t` occurs in `s` starting at index `i`. */
  predicate OccursAt(s: string, t: string, i: nat) {
    i + |t| <= |s| && s[i..i + |t|] == t
  }

  /** `t in s`. */
  predicate Contains(s: string, t: string) {
    exists i: nat | i <= |s| :: OccursAt(s, t, i)
  }

  /** `s.endswith(suffix)`. */
  predicate EndsWith(s: string, suffix: string) {
    |suffix| <= |s| && s[|s| - |suffix|..] == suffix
  }

  /** `s.replace(from, to)` for single characters: every occurrence of `from` becomes `to`. */
  function ReplaceChar(s: string, from: char, to: char): (r: string)
    ensures |r| == |s|
    ensures forall i :: 0 <= i < |s| ==> r[i] == (if s[i] == from then to else s[i])
  {
    if s == [] then [] else [if s[0] == from then to else s[0]] + ReplaceChar(s[1..], from, to)
  }

  /** `s.replace(pat, "")`: scanning from the left, every non-overlapping occurrence of `pat` is
      dropped and the scan resumes right after it. */
  function RemoveAll(s: string, pat: string): (r: string)
    requires pat != []
    ensures |r| <= |s|
    decreases |s|
  {
    if |s| < |pat| then s
    else if s[..|pat|] == pat then RemoveAll(s[|pat|..], pat)
    else [s[0]] + RemoveAll(s[1..], pat)
  }

  /** A string in which `pat` does not occur is left as it is. */
  lemma {:induction false} RemoveAllAbsent(s: string, pat: string)
    requires pat != [] && !Contains(s, pat)
    ensures RemoveAll(s, pat) == s
    decreases |s|
  {
    if |s| >= |pat| {
      assert !OccursAt(s, pat, 0);
      assert !Contains(s[1..], pat) by {
        forall i: nat | OccursAt(s[1..], pat, i) ensures false {
          assert s[1..][i..i + |pat|] == s[i + 1..i + 1 + |pat|];
          assert OccursAt(s, pat, i + 1);
        }
      }
      RemoveAllAbsent(s[1..], pat);
    }
  }

  /** A leading occurrence of `pat` is dropped and the rest is scanned on its own. */
  lemma RemoveAllLeading(pat: string, s: string)
    requires pat != []
    ensures RemoveAll(pat + s, pat) == RemoveAll(s, pat)
  {
    assert (pat + s)[..|pat|] == pat;
    assert (pat + s)[|pat|..] == s;
  }
}
