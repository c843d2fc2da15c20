/** The string operations the views rely on: trimming with Foundation's
    `.whitespacesAndNewlines` set, and case-insensitive "contains" for search.
    Strings are sequences of Unicode scalar values. */
module Text {

  /** Membership in `CharacterSet.whitespacesAndNewlines`: general categories
      Zs, Zl and Zp, the controls U+0009 to U+000D, and U+0085. */
  predicate IsWhitespace(c: char) {
    || ('\U{0009}' <= c <= '\U{000D}')
    || c == ' ' || c == '\U{0085}' || c == '\U{00A0}' || c == '\U{1680}'
    || ('\U{2000}' <= c <= '\U{200A}')
    || c == '\U{2028}' || c == '\U{2029}' || c == '\U{202F}' || c == '\U{205F}'
    || c == '\U{3000}'
  }

  predicate AllWhitespace(s: string) {
    forall k :: 0 <= k < |s| ==> IsWhitespace(s[k])
  }

  /** Drops the leading whitespace: what is left is a suffix of `s` that does
      not start with whitespace, and everything dropped was whitespace. */
  function TrimStart(s: string): (r: string)
    ensures |r| <= |s| && r == s[|s| - |r|..]
    ensures forall k :: 0 <= k < |s| - |r| ==> IsWhitespace(s[k])
    ensures r != [] ==> !IsWhitespace(r[0])
  {
    if s != [] && IsWhitespace(s[0]) then TrimStart(s[1..]) else s
  }

  /** Drops the trailing whitespace: what is left is a prefix of `s` that does
      not end with whitespace, and everything dropped was whitespace. */
  function TrimEnd(s: string): (r: string)
    ensures |r| <= |s| && r == s[..|r|]
    ensures forall k :: |r| <= k < |s| ==> IsWhitespace(s[k])
    ensures r != [] ==> !IsWhitespace(r[|r| - 1])
  {
    if s != [] && IsWhitespace(s[|s| - 1]) then TrimEnd(s[..|s| - 1]) else s
  }

  /** `s.trimmingCharacters(in: .whitespacesAndNewlines)`. */
  function Trim(s: string): (r: string)
  {
    TrimEnd(TrimStart(s))
  }

  /** `r` sits at offset `i` of `s` with only whitespace before and after it. */
  predicate SurroundedByWhitespace(s: string, r: string, i: int) {
    && 0 <= i <= |s| - |r|
    && s[i..i + |r|] == r
    && (forall k :: 0 <= k < i ==> IsWhitespace(s[k]))
    && (forall k :: i + |r| <= k < |s| ==> IsWhitespace(s[k]))
  }

  /** Trimming the end of a suffix that follows only whitespace leaves a run
      with whitespace on both sides. */
  lemma TrimEndOfSuffix(s: string, t: string, i: int)
    requires 0 <= i <= |s| && t == s[i..]
    requires forall k :: 0 <= k < i ==> IsWhitespace(s[k])
    ensures SurroundedByWhitespace(s, TrimEnd(t), i)
  {
  }

  /** Trimming cuts `s` into whitespace, the result, and whitespace. */
  lemma {:induction false} TrimSplits(s: string)
    ensures exists i :: SurroundedByWhitespace(s, Trim(s), i)
  {
    var t := TrimStart(s);
    TrimEndOfSuffix(s, t, |s| - |t|);
    assert SurroundedByWhitespace(s, Trim(s), |s| - |t|);
  }

  /** The result of trimming neither starts nor ends with whitespace. */
  lemma TrimEnds(s: string)
    ensures Trim(s) != [] ==> !IsWhitespace(Trim(s)[0]) && !IsWhitespace(Trim(s)[|Trim(s)| - 1])
  {
  }

  /** A trimmed string is its own trimming. */
  lemma TrimIdempotent(s: string)
    ensures Trim(Trim(s)) == Trim(s)
  {
  }

  /** A string trims to nothing exactly when it is all whitespace. */
  lemma TrimEmpty(s: string)
    ensures Trim(s) == [] <==> AllWhitespace(s)
  {
  }

  /** Simple case folding: upper-case ASCII letters become lower case. */
  function Lower(c: char): (d: char)
    ensures 'A' <= c <= 'Z' ==> 'a' <= d <= 'z'
    ensures !('A' <= c <= 'Z') ==> d == c
  {
    if 'A' <= c <= 'Z' then (c as int + 32) as char else c
  }

  function Fold(s: string): (r: string)
    ensures |r| == |s|
    ensures forall k :: 0 <= k < |s| ==> r[k] == Lower(s[k])
  {
    seq(|s|, k requires 0 <= k < |s| => Lower(s[k]))
  }

  /** `needle` occurs in `haystack` as a contiguous run, found by trying each
      start position in turn. */
  predicate IsInfix(needle: string, haystack: string)
    decreases |haystack|
  {
    needle <= haystack || (haystack != [] && IsInfix(needle, haystack[1..]))
  }

  /** `needle` occurs in `haystack` starting at position `i`. */
  predicate OccursAt(needle: string, haystack: string, i: int) {
    0 <= i <= |haystack| - |needle| && haystack[i..i + |needle|] == needle
  }

  /** An occurrence in the tail is an occurrence one place later in the whole. */
  lemma OccursShiftedRight(needle: string, haystack: string, i: int)
    requires haystack != [] && OccursAt(needle, haystack[1..], i)
    ensures OccursAt(needle, haystack, i + 1)
  {
  }

  /** An occurrence past the first place is an occurrence one place earlier in the tail. */
  lemma OccursShiftedLeft(needle: string, haystack: string, i: int)
    requires OccursAt(needle, haystack, i) && i >= 1
    ensures OccursAt(needle, haystack[1..], i - 1)
  {
  }

  /** The search agrees with the positional definition of an occurrence. */
  lemma {:induction false} IsInfixAt(needle: string, haystack: string)
    ensures IsInfix(needle, haystack) <==> exists i :: OccursAt(needle, haystack, i)
    decreases |haystack|
  {
    if needle <= haystack {
      assert OccursAt(needle, haystack, 0);
    } else if haystack != [] {
      var tail := haystack[1..];
      IsInfixAt(needle, tail);
      if exists i :: OccursAt(needle, tail, i) {
        var i :| OccursAt(needle, tail, i);
        OccursShiftedRight(needle, haystack, i);
      }
      if exists i :: OccursAt(needle, haystack, i) {
        var i :| OccursAt(needle, haystack, i);
        if i >= 1 {
          OccursShiftedLeft(needle, haystack, i);
        }
      }
    }
  }

  /** The model of `localizedCaseInsensitiveContains`: an occurrence after
      folding both sides to lower case. */
  predicate ContainsIgnoringCase(haystack: string, needle: string) {
    IsInfix(Fold(needle), Fold(haystack))
  }

  /** A verbatim occurrence is found, whatever the case of the letters. */
  lemma ContainsVerbatim(haystack: string, needle: string)
    requires IsInfix(needle, haystack)
    ensures ContainsIgnoringCase(haystack, needle)
  {
    IsInfixAt(needle, haystack);
    var i :| OccursAt(needle, haystack, i);
    assert Fold(haystack)[i..i + |needle|] == Fold(needle);
    assert OccursAt(Fold(needle), Fold(haystack), i);
    IsInfixAt(Fold(needle), Fold(haystack));
  }

  /** Queries that differ only in the case of ASCII letters find the same posts. */
  lemma ContainsIgnoresQueryCase(haystack: string, q1: string, q2: string)
    requires Fold(q1) == Fold(q2)
    ensures ContainsIgnoringCase(haystack, q1) == ContainsIgnoringCase(haystack, q2)
  {
  }
}
