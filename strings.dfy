/** Substring search, as Rust's `str::contains` with a string pattern. */
module Strings {

  /** `pattern` occurs in `s` starting at index `i`. */
  predicate OccursAt(s: string, pattern: string, i: int)
  {
    0 <= i && i + |pattern| <= |s| && s[i..i + |pattern|] == pattern
  }

  /** True when `pattern` is a substring of `s`; the empty pattern is a
      substring of every string. The search tries the front of `s`, then
      its tail. */
  function Contains(s: string, pattern: string): (r: bool)
    ensures r <==> exists i :: OccursAt(s, pattern, i)
    decreases |s|
  {
    if |pattern| > |s| then
      assert forall i :: !OccursAt(s, pattern, i);
      false
    else if s[..|pattern|] == pattern then
      assert OccursAt(s, pattern, 0);
      true
    else
      OccursInTail(s, pattern);
      Contains(s[1..], pattern)
  }

  /** When `pattern` is not a prefix of `s`, it occurs in `s` exactly when it
      occurs in the tail of `s`. */
  lemma OccursInTail(s: string, pattern: string)
    requires |pattern| <= |s| && s[..|pattern|] != pattern
    ensures |s| > 0
    ensures (exists i :: OccursAt(s, pattern, i)) <==> exists i :: OccursAt(s[1..], pattern, i)
  {
    forall i ensures OccursAt(s[1..], pattern, i) <==> OccursAt(s, pattern, i + 1) {
      if 0 <= i && i + 1 + |pattern| <= |s| {
        assert s[1..][i..i + |pattern|] == s[i + 1..i + 1 + |pattern|];
      }
    }
    if exists i :: OccursAt(s, pattern, i) {
      var i :| OccursAt(s, pattern, i);
      assert i != 0;
      assert OccursAt(s[1..], pattern, i - 1);
    }
  }
}
