/**
 * The string operations the search filters and the sidebar use:
 * `toLowerCase`, `includes` and `startsWith`.
 */
module Text {

  /** Lower-casing of one character, restricted to ASCII letters. */
  function LowerChar(c: char): (d: char)
    ensures 'A' <= c <= 'Z' ==> d != c && 'a' <= d <= 'z'
    ensures !('A' <= c <= 'Z') ==> d == c
  {
    if 'A' <= c <= 'Z' then (c as int + 32) as char else c
  }

  /** `s.toLowerCase()`, restricted to ASCII letters. */
  function ToLower(s: string): (r: string)
    ensures |r| == |s|
    ensures forall i :: 0 <= i < |s| ==> r[i] == LowerChar(s[i])
    decreases |s|
  {
    if s == [] then [] else [LowerChar(s[0])] + ToLower(s[1..])
  }

  /** `s.startsWith(prefix)`: a raw character prefix, with no notion of path segments. */
  predicate StartsWith(s: string, prefix: string) {
    |prefix| <= |s| && s[..|prefix|] == prefix
  }

  /** `t` occurs in `s` starting at position `k`. */
  predicate OccursAt(s: string, t: string, k: int) {
    0 <= k && k + |t| <= |s| && s[k..k + |t|] == t
  }

  /** `s.includes(t)`: `t` is a substring of `s`. */
  function Includes(s: string, t: string): (r: bool)
    ensures r <==> exists k :: OccursAt(s, t, k)
    decreases |s|
  {
    if StartsWith(s, t) then
      assert OccursAt(s, t, 0);
      true
    else if s == [] then
      false
    else
      OccursShift(s, t);
      Includes(s[1..], t)
  }

  /** Past a non-matching first position, `t` occurs in `s` exactly when it occurs in `s[1..]`. */
  lemma OccursShift(s: string, t: string)
    requires s != [] && !StartsWith(s, t)
    ensures (exists k :: OccursAt(s, t, k)) <==> (exists k :: OccursAt(s[1..], t, k))
  {
    if k :| OccursAt(s[1..], t, k) {
      assert s[1..][k..k + |t|] == s[k + 1..k + 1 + |t|];
      assert OccursAt(s, t, k + 1);
    }
    if k :| OccursAt(s, t, k) {
      assert k != 0;
      assert s[1..][k - 1..k - 1 + |t|] == s[k..k + |t|];
      assert OccursAt(s[1..], t, k - 1);
    }
  }

  /** The empty string is a substring of every string, so an empty query matches everything. */
  lemma EmptyIncluded(s: string)
    ensures Includes(s, "")
  {
    assert OccursAt(s, "", 0);
  }

  /** Two prefixes of one string are prefixes of each other: the shorter starts the longer. */
  lemma PrefixesNest(s: string, a: string, b: string)
    ensures StartsWith(s, a) && StartsWith(s, b) && |a| <= |b| ==> StartsWith(b, a)
  {
    if StartsWith(s, a) && StartsWith(s, b) && |a| <= |b| {
      assert b[..|a|] == s[..|b|][..|a|] == s[..|a|];
    }
  }
}
