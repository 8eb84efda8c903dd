/**
 * The part of java.lang.String that the mapper relies on: `trim()` and the
 * "null or blank after trimming" test. `trim()` removes every leading and
 * trailing character whose code point is at most U+0020 (space and the
 * control characters), nothing else.
 */
module JavaString {

  /** A character that `String.trim()` strips: code point <= U+0020. */
  predicate IsSpace(c: char) {
    c <= ' '
  }

  /** Every character of `s` would be stripped by `trim()`. */
  predicate AllSpace(s: string) {
    forall k :: 0 <= k < |s| ==> IsSpace(s[k])
  }

  /** Every character of `s` from index `lo` up to (not including) `hi` is a space. */
  predicate SpacesIn(s: string, lo: nat, hi: nat)
    requires lo <= hi <= |s|
  {
    forall k :: lo <= k < hi ==> IsSpace(s[k])
  }

  /** `s` neither starts nor ends with a strippable character. */
  predicate NoSurroundingSpace(s: string) {
    s == [] || (!IsSpace(s[0]) && !IsSpace(s[|s| - 1]))
  }

  /**
   * Index of the first character at or after `i` that is not a space (`|s|`
   * if there is none): where `trim()` starts the result.
   */
  function SkipLeading(s: string, i: nat): (r: nat)
    requires i <= |s|
    ensures i <= r <= |s| && SpacesIn(s, i, r)
    ensures r == |s| || !IsSpace(s[r])
    decreases |s| - i
  {
    if i < |s| && IsSpace(s[i]) then SkipLeading(s, i + 1) else i
  }

  /**
   * Index just after the last character before `j`, but not before `lo`, that
   * is not a space (`lo` if there is none): where `trim()` ends the result.
   */
  function SkipTrailing(s: string, lo: nat, j: nat): (r: nat)
    requires lo <= j <= |s|
    ensures lo <= r <= j && SpacesIn(s, r, j)
    ensures r == lo || !IsSpace(s[r - 1])
    decreases j
  {
    if lo < j && IsSpace(s[j - 1]) then SkipTrailing(s, lo, j - 1) else j
  }

  /**
   * `String.trim()`: the slice of `s` between its space prefix and its space
   * suffix. That this slice is the only one with those properties is
   * `TrimUnique`.
   */
  function Trim(s: string): (r: string)
    ensures |r| <= |s|
    ensures NoSurroundingSpace(r)
    ensures var start := SkipLeading(s, 0);
            var stop := SkipTrailing(s, start, |s|);
            && r == s[start..stop]
            && SpacesIn(s, 0, start) && SpacesIn(s, stop, |s|)
  {
    var start := SkipLeading(s, 0);
    s[start..SkipTrailing(s, start, |s|)]
  }

  /** `s.trim().isEmpty()`. */
  predicate IsBlank(s: string) {
    Trim(s) == []
  }

  /**
   * Trimming is determined by its result's position: if `s[i..j]` has no
   * surrounding space and everything outside it is space, that slice is
   * `Trim(s)`.
   */
  lemma TrimUnique(s: string, i: nat, j: nat)
    requires i <= j <= |s|
    requires SpacesIn(s, 0, i) && SpacesIn(s, j, |s|)
    requires i == j || (!IsSpace(s[i]) && !IsSpace(s[j - 1]))
    ensures Trim(s) == s[i..j]
  {
  }

  /** A string is blank exactly when every character of it is a space. */
  lemma BlankIffAllSpace(s: string)
    ensures IsBlank(s) <==> AllSpace(s)
  {
  }

  /** A string without surrounding space is its own trim. */
  lemma TrimFixesTrimmed(s: string)
    requires NoSurroundingSpace(s)
    ensures Trim(s) == s
  {
    TrimUnique(s, 0, |s|);
  }

  /** `trim()` is idempotent. */
  lemma TrimIdempotent(s: string)
    ensures Trim(Trim(s)) == Trim(s)
  {
    TrimFixesTrimmed(Trim(s));
  }

  /** A string whose first character is not a space is not blank. */
  lemma NotBlankWhenStartsWithText(s: string)
    requires s != [] && !IsSpace(s[0])
    ensures !IsBlank(s)
  {
    BlankIffAllSpace(s);
  }

  /**
   * Surrounding a string with spaces does not change what `trim()` gives:
   * `" name "` and `"name"` configure the same attribute.
   */
  lemma {:induction false} TrimIgnoresPadding(pre: string, s: string, post: string)
    requires AllSpace(pre) && AllSpace(post)
    ensures Trim(pre + s + post) == Trim(s)
  {
    var t := Trim(s);
    var i := SkipLeading(s, 0);
    var j := SkipTrailing(s, i, |s|);
    var x := pre + s + post;
    var a, b := |pre| + i, |pre| + j;
    assert x[a..b] == t by {
      forall k | 0 <= k < |t| ensures x[a..b][k] == t[k] {
        assert x[a + k] == s[i + k];
      }
    }
    assert SpacesIn(x, 0, a) by {
      forall k | 0 <= k < a ensures IsSpace(x[k]) {
        if k < |pre| { assert x[k] == pre[k]; } else { assert x[k] == s[k - |pre|]; }
      }
    }
    assert SpacesIn(x, b, |x|) by {
      forall k | b <= k < |x| ensures IsSpace(x[k]) {
        if k < |pre| + |s| { assert x[k] == s[k - |pre|]; } else { assert x[k] == post[k - |pre| - |s|]; }
      }
    }
    assert a == b || (!IsSpace(x[a]) && !IsSpace(x[b - 1])) by {
      if a < b { assert x[a] == t[0] && x[b - 1] == t[|t| - 1]; }
    }
    TrimUnique(x, a, b);
  }
}
