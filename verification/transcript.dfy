/**
 * The transcript reconciler of the streaming endpoint: Python's `str.strip()`
 * and the prefix diff between the previous and the current full transcript.
 */
module Transcript {

  /** The characters Python's `str.isspace()` accepts (the default set `strip()` removes). */
  predicate IsSpace(c: char) {
    || ('\t' <= c <= '\r')
    || ('\U{1c}' <= c <= ' ')
    || c == '\U{85}' || c == '\U{a0}' || c == '\U{1680}'
    || ('\U{2000}' <= c <= '\U{200a}')
    || c == '\U{2028}' || c == '\U{2029}' || c == '\U{202f}' || c == '\U{205f}' || c == '\U{3000}'
  }

  predicate AllSpace(s: string) {
    forall k :: 0 <= k < |s| ==> IsSpace(s[k])
  }

  /** The index of the first non-whitespace character at or after `i`, or `|s|`. */
  function SkipSpace(s: string, i: nat): (j: nat)
    requires i <= |s|
    ensures i <= j <= |s|
    ensures forall k :: i <= k < j ==> IsSpace(s[k])
    ensures j < |s| ==> !IsSpace(s[j])
    decreases |s| - i
  {
    if i < |s| && IsSpace(s[i]) then SkipSpace(s, i + 1) else i
  }

  /**
   * Scanning back from `j` but not below `lo`: one past the last
   * non-whitespace character, or `lo`.
   */
  function SkipSpaceBack(s: string, lo: nat, j: nat): (i: nat)
    requires lo <= j <= |s|
    ensures lo <= i <= j
    ensures forall k :: i <= k < j ==> IsSpace(s[k])
    ensures i > lo ==> !IsSpace(s[i - 1])
  {
    if j > lo && IsSpace(s[j - 1]) then SkipSpaceBack(s, lo, j - 1) else j
  }

  /** `s.strip()`: skip whitespace from the left, then from the right down to that point. */
  function Strip(s: string): (r: string)
    ensures |r| <= |s|
    ensures r != [] ==> !IsSpace(r[0]) && !IsSpace(r[|r| - 1])
  {
    var i := SkipSpace(s, 0);
    s[i..SkipSpaceBack(s, i, |s|)]
  }

  /**
   * `strip()` keeps one contiguous slice `s[i..i + |r|]` of its input, drops
   * only whitespace around it, and the slice neither starts nor ends with
   * whitespace.
   */
  lemma StripSpec(s: string) returns (i: nat)
    ensures var r := Strip(s);
      && i + |r| <= |s| && r == s[i..i + |r|]
      && AllSpace(s[..i]) && AllSpace(s[i + |r|..])
      && (r != [] ==> !IsSpace(r[0]) && !IsSpace(r[|r| - 1]))
  {
    i := SkipSpace(s, 0);
    var j := SkipSpaceBack(s, i, |s|);
    var r := s[i..j];
    assert Strip(s) == r;
    forall k | 0 <= k < i ensures IsSpace(s[..i][k]) {
      assert s[..i][k] == s[k];
    }
    forall k | 0 <= k < |s| - j ensures IsSpace(s[j..][k]) {
      assert s[j..][k] == s[j + k];
    }
    if r != [] {
      assert r[0] == s[i] && r[|r| - 1] == s[j - 1];
    }
  }

  /** A string made only of whitespace strips to the empty string, and only such a string does. */
  lemma StripEmptyIffAllSpace(s: string)
    ensures Strip(s) == [] <==> AllSpace(s)
  {
    var i := StripSpec(s);
    if Strip(s) == [] {
      assert s == s[..i] + s[i..];
    }
  }

  /** `c.startswith(p)`: `c` is `p` followed by the rest of `c`. */
  predicate IsPrefix(p: string, c: string)
    ensures IsPrefix(p, c) ==> |p| <= |c| && c == p + c[|p|..]
  {
    |p| <= |c| && c[..|p|] == p
  }

  /**
   * The reconcile step of `stream_chunk`: the text of `current` that is new
   * with respect to `prev`. On a prefix match it is the stripped remainder;
   * otherwise (a revision or a restart) the whole of `current`, NOT stripped.
   */
  function NewPart(prev: string, current: string): (r: string)
    ensures IsPrefix(prev, current) ==> r == Strip(current[|prev|..])
    ensures !IsPrefix(prev, current) ==> r == current
  {
    if IsPrefix(prev, current) then Strip(current[|prev|..]) else current
  }

  /** Re-sending the same transcript yields no new text. */
  lemma NewPartOfSame(x: string)
    ensures NewPart(x, x) == []
  {
    assert x[|x|..] == [];
  }

  /** The new part is always a contiguous piece `current[i..j]` of the current transcript. */
  lemma NewPartIsSlice(prev: string, current: string) returns (i: nat, j: nat)
    ensures i <= j <= |current| && NewPart(prev, current) == current[i..j]
  {
    if IsPrefix(prev, current) {
      var rest := current[|prev|..];
      var a := SkipSpace(rest, 0);
      var b := SkipSpaceBack(rest, a, |rest|);
      i, j := |prev| + a, |prev| + b;
      assert NewPart(prev, current) == rest[a..b];
      assert forall t :: 0 <= t < b - a ==> rest[a..b][t] == current[i..j][t];
    } else {
      i, j := 0, |current|;
      assert current[i..j] == current;
    }
  }

  /** A continuation that only appends whitespace yields no new text. */
  lemma NewPartOfWhitespaceExtension(prev: string, tail: string)
    requires AllSpace(tail)
    ensures NewPart(prev, prev + tail) == []
  {
    assert (prev + tail)[..|prev|] == prev;
    assert (prev + tail)[|prev|..] == tail;
    StripEmptyIffAllSpace(tail);
  }
}
