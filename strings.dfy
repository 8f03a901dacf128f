/**
 * The few JavaScript string idioms the application relies on: truthiness of
 * an optional string, `a || b || fallback` chains, `indexOf`,
 * `replace(pattern, '')` with a string pattern, and `split(sep)[0]`.
 */
module Strings {
  import opened Wrappers

  /** JavaScript truthiness of a value that is either a string or absent. */
  predicate Truthy(o: Option<string>) {
    o.Some? && o.value != ""
  }

  /** The value of `c0 || c1 || ... || fallback` over optional strings. */
  function FirstTruthy(candidates: seq<Option<string>>, fallback: string): (r: string)
    ensures (forall i :: 0 <= i < |candidates| ==> !Truthy(candidates[i])) ==> r == fallback
    ensures forall i :: 0 <= i < |candidates| && Truthy(candidates[i]) &&
                        (forall j :: 0 <= j < i ==> !Truthy(candidates[j]))
                        ==> r == candidates[i].value
    ensures fallback != "" ==> r != ""
    decreases |candidates|
  {
    if |candidates| == 0 then fallback
    else if Truthy(candidates[0]) then candidates[0].value
    else FirstTruthy(candidates[1..], fallback)
  }

  /** `pat` occurs in `s` starting at index `k`. */
  predicate OccursAt(s: string, pat: string, k: nat) {
    k + |pat| <= |s| && s[k..k + |pat|] == pat
  }

  lemma OccursAtTail(s: string, pat: string)
    requires |s| > 0
    ensures forall j: nat :: j > 0 ==> OccursAt(s, pat, j) == OccursAt(s[1..], pat, j - 1)
  {
    forall j: nat | j > 0 ensures OccursAt(s, pat, j) == OccursAt(s[1..], pat, j - 1) {
      if j + |pat| <= |s| {
        assert s[1..][j - 1..j - 1 + |pat|] == s[j..j + |pat|];
      }
    }
  }

  /** `s.indexOf(pat)`: the first index at which `pat` occurs, or None for -1. */
  function IndexOf(s: string, pat: string): (r: Option<nat>)
    ensures r.Some? ==> OccursAt(s, pat, r.value) && forall j: nat :: j < r.value ==> !OccursAt(s, pat, j)
    ensures r.None? ==> forall j: nat :: !OccursAt(s, pat, j)
    decreases |s|
  {
    if |s| < |pat| then None
    else if s[..|pat|] == pat then Some(0)
    else
      OccursAtTail(s, pat);
      assert !OccursAt(s, pat, 0);
      match IndexOf(s[1..], pat)
      case None => None
      case Some(i) => Some(i + 1)
  }

  /** `s.replace(pat, '')` with a string pattern: only the first occurrence is removed. */
  function RemoveFirst(s: string, pat: string): (r: string)
    ensures (forall j: nat :: !OccursAt(s, pat, j)) ==> r == s
    ensures forall k: nat :: OccursAt(s, pat, k) && (forall j: nat :: j < k ==> !OccursAt(s, pat, j)) ==>
                             r == s[..k] + s[k + |pat|..]
    ensures |s| - |pat| <= |r| <= |s|
  {
    match IndexOf(s, pat)
    case None => s
    case Some(i) => s[..i] + s[i + |pat|..]
  }

  /** `s.split(sep)[0]`: the text before the first `sep`, or all of `s` when there is none. */
  function BeforeFirst(s: string, sep: string): (r: string)
    requires sep != ""
    ensures r <= s
    ensures forall j: nat :: j < |r| ==> !OccursAt(s, sep, j)
    ensures r == s || OccursAt(s, sep, |r|)
  {
    match IndexOf(s, sep)
    case None => s
    case Some(i) => s[..i]
  }

  /**
   * With a one-character separator, the text before the first separator
   * does not contain that character, and ends where it occurs.
   */
  lemma BeforeFirstChar(s: string, c: char)
    ensures c !in BeforeFirst(s, [c])
    ensures BeforeFirst(s, [c]) == s || s[|BeforeFirst(s, [c])|] == c
  {
    var r := BeforeFirst(s, [c]);
    forall j | 0 <= j < |r| ensures r[j] != c {
      assert !OccursAt(s, [c], j);
      assert s[j..j + 1] == [s[j]];
    }
    if r != s {
      assert OccursAt(s, [c], |r|);
      assert s[|r|..|r| + 1] == [s[|r|]];
    }
  }
}
