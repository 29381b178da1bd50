/**
 * The email pattern `^[^\s@]+@[^\s@]+\.[^\s@]+$`: a nonempty local part, one
 * `@`, and a domain with a dot that has characters on both sides, none of
 * the three parts holding whitespace or `@`.
 */
module EmailRegex {
  import opened JsString

  /** A character of the class `[^\s@]`. */
  predicate Plain(c: char) {
    !IsWhitespace(c) && c != '@'
  }

  /** `[^\s@]+`. */
  predicate PlainRun(s: string) {
    |s| > 0 && forall k :: 0 <= k < |s| ==> Plain(s[k])
  }

  /** The pattern matches with its `@` at index `i` and the chosen `.` at index `j`. */
  predicate MatchAt(s: string, i: int, j: int) {
    && 0 <= i < j < |s|
    && s[i] == '@' && s[j] == '.'
    && PlainRun(s[..i]) && PlainRun(s[i + 1..j]) && PlainRun(s[j + 1..])
  }

  /** The pattern as the regular expression reads it: some way to split `s` into its three runs. */
  ghost predicate MatchesPattern(s: string) {
    exists i, j :: MatchAt(s, i, j)
  }

  /** Index of the first `c` in `s` at or after `from`, or `|s|` when there is none. */
  function FirstIndex(s: string, c: char, from: nat): (r: nat)
    requires from <= |s|
    ensures from <= r <= |s|
    ensures r < |s| ==> s[r] == c
    ensures forall k :: from <= k < r ==> s[k] != c
    decreases |s| - from
  {
    if from == |s| || s[from] == c then from else FirstIndex(s, c, from + 1)
  }

  /**
   * `emailRegex.test(s)`, decided in one reading: no whitespace, a first
   * `@` that is not the first character and no `@` after it, and a `.`
   * strictly between the character after the `@` and the last character.
   */
  predicate IsEmail(s: string) {
    var i := FirstIndex(s, '@', 0);
    && 0 < i < |s|
    && (forall k | 0 <= k < |s| :: !IsWhitespace(s[k]))
    && (forall k | i < k < |s| :: s[k] != '@')
    && exists j | i + 1 < j < |s| - 1 :: s[j] == '.'
  }

  /** The one-pass check accepts exactly the strings the pattern matches. */
  lemma IsEmailMatchesPattern(s: string)
    ensures IsEmail(s) <==> MatchesPattern(s)
  {
    if IsEmail(s) {
      var i := FirstIndex(s, '@', 0);
      var j :| i + 1 < j < |s| - 1 && s[j] == '.';
      PlainRunOf(s, 0, i);
      PlainRunOf(s, i + 1, j);
      PlainRunOf(s, j + 1, |s|);
      assert MatchAt(s, i, j);
    }
    if MatchesPattern(s) {
      var i, j :| MatchAt(s, i, j);
      PlainRunAt(s, 0, i);
      PlainRunAt(s, i + 1, j);
      PlainRunAt(s, j + 1, |s|);
      assert FirstIndex(s, '@', 0) == i;
    }
  }

  /** A slice of characters that are neither whitespace nor `@` is a run of the class. */
  lemma PlainRunOf(s: string, a: int, b: int)
    requires 0 <= a < b <= |s|
    requires forall k | a <= k < b :: Plain(s[k])
    ensures PlainRun(s[a..b])
  {
    assert forall k | 0 <= k < b - a :: s[a..b][k] == s[a + k];
  }

  /** Every character of a run of the class is neither whitespace nor `@`. */
  lemma PlainRunAt(s: string, a: int, b: int)
    requires 0 <= a <= b <= |s| && PlainRun(s[a..b])
    ensures forall k | a <= k < b :: Plain(s[k])
  {
    forall k | a <= k < b
      ensures Plain(s[k])
    {
      assert s[k] == s[a..b][k - a];
    }
  }

  /** Lowercasing keeps every character of a slice plain or not plain. */
  lemma PlainRunLower(s: string, a: int, b: int)
    requires 0 <= a <= b <= |s|
    ensures PlainRun(s[a..b]) <==> PlainRun(ToLower(s)[a..b])
  {
    var t := ToLower(s);
    forall k | 0 <= k < b - a
      ensures Plain(s[a..b][k]) <==> Plain(t[a..b][k])
    {
      assert s[a..b][k] == s[a + k] && t[a..b][k] == t[a + k];
      LowerCharKeepsWhitespace(s[a + k]);
    }
  }

  lemma LowerKeepsMatch(s: string, i: int, j: int)
    ensures MatchAt(s, i, j) <==> MatchAt(ToLower(s), i, j)
  {
    var t := ToLower(s);
    if 0 <= i < j < |s| {
      assert t[i] == LowerChar(s[i]) && t[j] == LowerChar(s[j]);
      PlainRunLower(s, 0, i);
      PlainRunLower(s, i + 1, j);
      PlainRunLower(s, j + 1, |s|);
      assert s[..i] == s[0..i] && t[..i] == t[0..i];
      assert s[j + 1..] == s[j + 1..|s|] && t[j + 1..] == t[j + 1..|t|];
    }
  }

  /** `toLowerCase` leaves `@`, `.` and whitespace alone, so it keeps a string an email or not. */
  lemma LowerKeepsEmail(s: string)
    ensures IsEmail(ToLower(s)) <==> IsEmail(s)
  {
    var t := ToLower(s);
    IsEmailMatchesPattern(s);
    IsEmailMatchesPattern(t);
    if MatchesPattern(s) {
      var i, j :| MatchAt(s, i, j);
      LowerKeepsMatch(s, i, j);
    }
    if MatchesPattern(t) {
      var i, j :| MatchAt(t, i, j);
      LowerKeepsMatch(s, i, j);
    }
  }

  /** An email holds no whitespace, so trimming leaves it alone. */
  lemma EmailTrimmed(s: string)
    requires IsEmail(s)
    ensures Trim(s) == s
  {
    TrimNoWhitespace(s);
  }

  // ---- The cases the email tests exercise ----

  lemma EmptyIsNotEmail()
    ensures !IsEmail("")
  {
  }

  lemma SubdomainIsEmail(s: string)
    requires s == "user@mail.example.com"
    ensures IsEmail(s)
  {
    assert forall k | 0 <= k < 4 :: s[k] != '@';
    assert s[4] == '@';
    assert FirstIndex(s, '@', 0) == 4;
    assert forall k | 4 < k < |s| :: s[k] != '@';
    assert s[9] == '.';
  }

  lemma MissingAtIsNotEmail(s: string)
    requires s == "userexample.com"
    ensures !IsEmail(s)
  {
    assert forall k | 0 <= k < |s| :: s[k] != '@';
  }

  lemma DoubleAtIsNotEmail(s: string)
    requires s == "user@@example.com"
    ensures !IsEmail(s)
  {
    assert forall k | 0 <= k < 4 :: s[k] != '@';
    assert s[4] == '@';
    assert FirstIndex(s, '@', 0) == 4;
    assert s[5] == '@';
  }

  lemma SpaceIsNotEmail(s: string)
    requires s == "john doe@example.com"
    ensures !IsEmail(s)
  {
    assert IsWhitespace(s[4]);
  }

  lemma MissingTopLevelDomainIsNotEmail(s: string)
    requires s == "user@localhost"
    ensures !IsEmail(s)
  {
    assert forall k | 0 <= k < 4 :: s[k] != '@';
    assert s[4] == '@';
    assert FirstIndex(s, '@', 0) == 4;
    assert forall j | 5 < j < |s| - 1 :: s[j] != '.';
  }
}
