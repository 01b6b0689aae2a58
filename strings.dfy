/**
 * The two string operations the core uses: `startsWith` and
 * `replace(pattern, replacement)` with a string pattern, which replaces
 * only the FIRST occurrence of the pattern.
 */
module Strings {
  import opened Types

  predicate StartsWith(s: string, prefix: string)
  {
    |prefix| <= |s| && s[..|prefix|] == prefix
  }

  predicate OccursAt(s: string, pat: string, i: int)
  {
    0 <= i && i + |pat| <= |s| && s[i..i + |pat|] == pat
  }

  /** `s.indexOf(pat)` searching from position `from` onward. */
  function IndexFrom(s: string, pat: string, from: nat): (r: Option<nat>)
    requires from <= |s| + 1
    ensures r.Some? ==> from <= r.value && OccursAt(s, pat, r.value)
    ensures r.Some? ==> forall i :: from <= i < r.value ==> !OccursAt(s, pat, i)
    ensures r.None? ==> forall i :: from <= i ==> !OccursAt(s, pat, i)
    decreases |s| + 1 - from
  {
    if from + |pat| > |s| then None
    else if s[from..from + |pat|] == pat then Some(from)
    else IndexFrom(s, pat, from + 1)
  }

  /** Position of the first occurrence of `pat` in `s`, if any. */
  function IndexOf(s: string, pat: string): (r: Option<nat>)
    ensures r.Some? ==> OccursAt(s, pat, r.value)
    ensures r.Some? ==> forall i :: 0 <= i < r.value ==> !OccursAt(s, pat, i)
    ensures r.None? ==> forall i :: !OccursAt(s, pat, i)
  {
    IndexFrom(s, pat, 0)
  }

  /** `s.replace(pat, rep)` for a string `pat`. */
  function ReplaceFirst(s: string, pat: string, rep: string): string
  {
    match IndexOf(s, pat)
    case None => s
    case Some(i) => s[..i] + rep + s[i + |pat|..]
  }

  /** Replacing leaves the text before the first occurrence alone and changes nothing when there is none. */
  lemma {:induction false} ReplaceFirstSpec(s: string, pat: string, rep: string)
    ensures (forall i :: !OccursAt(s, pat, i)) ==> ReplaceFirst(s, pat, rep) == s
    ensures forall i :: OccursAt(s, pat, i) && (forall j :: 0 <= j < i ==> !OccursAt(s, pat, j)) ==>
      ReplaceFirst(s, pat, rep) == s[..i] + rep + s[i + |pat|..]
  {
  }

  /** For a one-character pattern: only its first occurrence is replaced; with none, nothing changes. */
  lemma ReplaceFirstChar(s: string, c: char, rep: string, i: int)
    requires 0 <= i < |s| && s[i] == c && forall j :: 0 <= j < i ==> s[j] != c
    ensures ReplaceFirst(s, [c], rep) == s[..i] + rep + s[i + 1..]
  {
    assert OccursAt(s, [c], i);
    forall j | 0 <= j < i ensures !OccursAt(s, [c], j) {
      assert s[j..j + 1][0] == s[j];
    }
  }

  lemma ReplaceFirstCharAbsent(s: string, c: char, rep: string)
    requires forall j :: 0 <= j < |s| ==> s[j] != c
    ensures ReplaceFirst(s, [c], rep) == s
  {
    forall j | 0 <= j < |s|
      ensures !OccursAt(s, [c], j)
    {
      assert s[j..j + 1][0] == s[j];
    }
  }

  /** When `s` starts with `pat`, replacing `pat` by nothing strips exactly that prefix. */
  lemma {:induction false} StripPrefix(s: string, pat: string)
    requires StartsWith(s, pat)
    ensures ReplaceFirst(s, pat, "") == s[|pat|..]
  {
    assert OccursAt(s, pat, 0);
    assert IndexOf(s, pat) == Some(0);
    assert s[..0] + "" + s[|pat|..] == s[|pat|..];
  }
}
