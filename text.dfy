/** Substrings, for stating that a text contains another. */
module Text {

  /** The `len` characters of `s` starting at `k` (empty when out of range). */
  function Slice(s: string, k: int, len: nat): string {
    if 0 <= k && k + len <= |s| then s[k..k + len] else ""
  }

  /** `w` occurs in `s` at some position. */
  ghost predicate IsSubstring(w: string, s: string) {
    exists k :: 0 <= k <= |s| - |w| && Slice(s, k, |w|) == w
  }

  /** A text built as `prefix + w + suffix` contains `w`. */
  lemma InfixIsSubstring(prefix: string, w: string, suffix: string)
    ensures IsSubstring(w, prefix + w + suffix)
  {
    var s := prefix + w + suffix;
    assert s[|prefix|..|prefix| + |w|] == w;
    assert Slice(s, |prefix|, |w|) == w;
  }
}
