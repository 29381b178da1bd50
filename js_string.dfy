/**
 * The few string built-ins of JavaScript the booking code relies on: the
 * whitespace class `\s` of regular expressions, `String.prototype.trim`,
 * `String.prototype.toLowerCase` (ASCII letters only).
 */
module JsString {

  /** ECMAScript WhiteSpace and LineTerminator code points: what `\s` matches and `trim` strips. */
  predicate IsWhitespace(c: char) {
    || c == '\t' || c == '\n' || c == '\U{000B}' || c == '\U{000C}' || c == '\r'
    || c == ' ' || c == '\U{00A0}' || c == '\U{1680}'
    || ('\U{2000}' <= c <= '\U{200A}')
    || c == '\U{2028}' || c == '\U{2029}' || c == '\U{202F}' || c == '\U{205F}'
    || c == '\U{3000}' || c == '\U{FEFF}'
  }

  /** No whitespace at either end. */
  predicate IsTrimmed(s: string) {
    s == [] || (!IsWhitespace(s[0]) && !IsWhitespace(s[|s| - 1]))
  }

  /** The first index at or after `i` that holds no whitespace, or `|s|`. */
  function TrimLeftIndex(s: string, i: nat): (r: nat)
    requires i <= |s|
    ensures i <= r <= |s|
    ensures forall k :: i <= k < r ==> IsWhitespace(s[k])
    ensures r < |s| ==> !IsWhitespace(s[r])
    decreases |s| - i
  {
    if i < |s| && IsWhitespace(s[i]) then TrimLeftIndex(s, i + 1) else i
  }

  /** One past the last index below `j` and at or after `lo` that holds no whitespace, or `lo`. */
  function TrimRightIndex(s: string, lo: nat, j: nat): (r: nat)
    requires lo <= j <= |s|
    ensures lo <= r <= j
    ensures forall k :: r <= k < j ==> IsWhitespace(s[k])
    ensures r > lo ==> !IsWhitespace(s[r - 1])
  {
    if j > lo && IsWhitespace(s[j - 1]) then TrimRightIndex(s, lo, j - 1) else j
  }

  /** `s.trim()`: `s` without the whitespace at either end. */
  function Trim(s: string): (r: string)
    ensures IsTrimmed(r)
    ensures SliceAt(s, TrimLeftIndex(s, 0), r)
    ensures forall k :: 0 <= k < TrimLeftIndex(s, 0) ==> IsWhitespace(s[k])
    ensures forall k :: TrimLeftIndex(s, 0) + |r| <= k < |s| ==> IsWhitespace(s[k])
  {
    var a := TrimLeftIndex(s, 0);
    s[a..TrimRightIndex(s, a, |s|)]
  }

  /** A string with no whitespace at either end is its own trim. */
  lemma TrimmedFixed(s: string)
    requires IsTrimmed(s)
    ensures Trim(s) == s
  {
    if s != [] {
      assert TrimLeftIndex(s, 0) == 0;
      assert TrimRightIndex(s, 0, |s|) == |s|;
    }
  }

  /** Trimming twice is trimming once. */
  lemma TrimIdempotent(s: string)
    ensures Trim(Trim(s)) == Trim(s)
  {
    TrimmedFixed(Trim(s));
  }

  function LowerChar(c: char): char {
    if 'A' <= c <= 'Z' then (c as int + 32) as char else c
  }

  /**
   * `s.toLowerCase()` restricted to ASCII letters: the result is lowercase,
   * and a string that already is comes back unchanged.
   */
  function ToLower(s: string): (r: string)
    ensures |r| == |s|
    ensures forall i :: 0 <= i < |s| ==> r[i] == LowerChar(s[i])
    ensures IsLowerCase(r)
    ensures IsLowerCase(s) ==> r == s
  {
    seq(|s|, i requires 0 <= i < |s| => LowerChar(s[i]))
  }

  /** Lowercasing twice is lowercasing once. */
  lemma {:induction false} ToLowerIdempotent(s: string)
    ensures ToLower(ToLower(s)) == ToLower(s)
  {
    var once := ToLower(s);
    var twice := ToLower(once);
    forall i | 0 <= i < |s|
      ensures twice[i] == once[i]
    {
      assert once[i] == LowerChar(s[i]);
    }
  }

  /** `toLowerCase` gives a lowercase string, and so does any slice of it. */
  lemma LowerSlice(s: string, i: int, t: string)
    requires SliceAt(ToLower(s), i, t)
    ensures IsLowerCase(t)
  {
    var lowered := ToLower(s);
    forall k | 0 <= k < |t|
      ensures LowerChar(t[k]) == t[k]
    {
      assert t[k] == lowered[i + k] == LowerChar(s[i + k]);
    }
  }

  /** A string without whitespace is its own trim. */
  lemma TrimNoWhitespace(s: string)
    requires forall k | 0 <= k < |s| :: !IsWhitespace(s[k])
    ensures Trim(s) == s
  {
    TrimmedFixed(s);
  }

  /** Every character is already lowercase. */
  predicate IsLowerCase(s: string) {
    forall i :: 0 <= i < |s| ==> LowerChar(s[i]) == s[i]
  }

  /** Lowercasing never turns a whitespace character into a non-whitespace one or back. */
  lemma LowerCharKeepsWhitespace(c: char)
    ensures IsWhitespace(LowerChar(c)) == IsWhitespace(c)
  {
  }

  /** `needle` occurs in `s` starting at index `i`. */
  predicate SliceAt(s: string, i: int, needle: string) {
    0 <= i <= |s| - |needle| && s[i..i + |needle|] == needle
  }

}
