/**
  The two string searches the generator relies on: JavaScript's
  `String.prototype.replace` with a string pattern and a replacement without `$`
  patterns (only the FIRST occurrence is replaced, and the replacement is inserted
  literally) and the search for the last path separator.
 */
module Strings {

  /** `pat` occurs in `s` starting at index `j`. */
  predicate OccursAt(s: string, pat: string, j: nat) {
    j + |pat| <= |s| && s[j..j + |pat|] == pat
  }

  /** The first index at or after `from` where `pat` occurs in `s`, or -1 (`s.indexOf(pat, from)`). */
  function IndexOfFrom(s: string, pat: string, from: nat): (r: int)
    requires from <= |s|
    ensures r == -1 || (from <= r && OccursAt(s, pat, r))
    ensures r == -1 ==> forall j :: from <= j <= |s| ==> !OccursAt(s, pat, j)
    ensures r >= 0 ==> forall j :: from <= j < r ==> !OccursAt(s, pat, j)
    decreases |s| - from
  {
    if from + |pat| > |s| then -1
    else if s[from..from + |pat|] == pat then from
    else if from == |s| then -1
    else IndexOfFrom(s, pat, from + 1)
  }

  function IndexOf(s: string, pat: string): int {
    IndexOfFrom(s, pat, 0)
  }

  /** When `s` starts with `pat`, the first occurrence is at index 0. */
  lemma IndexOfPrefix(s: string, pat: string)
    requires OccursAt(s, pat, 0)
    ensures IndexOf(s, pat) == 0
  {
  }

  /**
    `s.replace(pat, rep)` for a string `pat` and a `rep` without `$` patterns: the
    first occurrence, if any, is replaced by `rep` taken literally.
   */
  function ReplaceFirst(s: string, pat: string, rep: string): (r: string)
    ensures (forall j :: 0 <= j <= |s| ==> !OccursAt(s, pat, j)) ==> r == s
    ensures OccursAt(s, pat, 0) ==> r == rep + s[|pat|..]
  {
    var i := IndexOf(s, pat);
    if i < 0 then s else s[..i] + rep + s[i + |pat|..]
  }

  /** Without an occurrence, `replace` returns its input unchanged. */
  lemma ReplaceFirstAbsent(s: string, pat: string, rep: string)
    requires forall j :: 0 <= j <= |s| ==> !OccursAt(s, pat, j)
    ensures ReplaceFirst(s, pat, rep) == s
  {
  }

  /** Replacing a prefix: `(pat + t).replace(pat, rep) == rep + t`. */
  lemma {:induction false} ReplaceFirstOfPrefix(pat: string, t: string, rep: string)
    ensures ReplaceFirst(pat + t, pat, rep) == rep + t
  {
    var s := pat + t;
    assert s[0..|pat|] == pat;
    IndexOfPrefix(s, pat);
    assert s[|pat|..] == t;
  }

  /** The last index of `c` in `s`, or -1 (`s.lastIndexOf(c)`). */
  function LastIndexOf(s: string, c: char): (r: int)
    ensures -1 <= r < |s|
    ensures r >= 0 ==> s[r] == c
    ensures forall j :: r < j < |s| ==> s[j] != c
  {
    if s == [] then -1
    else if s[|s| - 1] == c then |s| - 1
    else LastIndexOf(s[..|s| - 1], c)
  }

  /** The last `c` of `a + b`, when `a` ends with `c` and `b` holds none, is the end of `a`. */
  lemma LastIndexOfAfter(a: string, b: string, c: char)
    requires |a| > 0 && a[|a| - 1] == c
    requires forall j :: 0 <= j < |b| ==> b[j] != c
    ensures LastIndexOf(a + b, c) == |a| - 1
  {
    var s := a + b;
    assert s[|a| - 1] == c;
  }
}
