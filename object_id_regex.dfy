/** The ObjectId pattern `^[a-fA-F0-9]{24}$`: exactly 24 hexadecimal digits of either case. */
module ObjectIdRegex {

  /** `[a-fA-F0-9]`. */
  predicate IsHexDigit(c: char) {
    ('0' <= c <= '9') || ('a' <= c <= 'f') || ('A' <= c <= 'F')
  }

  /** `[a-fA-F0-9]{n}` matched from the start of `s` to its end, one digit at a time. */
  predicate HexRepeat(s: string, n: nat) {
    if n == 0 then s == []
    else |s| > 0 && IsHexDigit(s[0]) && HexRepeat(s[1..], n - 1)
  }

  /** `objectIdRegex.test(s)`. */
  predicate IsObjectId(s: string) {
    HexRepeat(s, 24)
  }

  /** The anchored repetition holds exactly when `s` has `n` characters, every one a hex digit. */
  lemma {:induction false} HexRepeatChars(s: string, n: nat)
    ensures HexRepeat(s, n) <==> |s| == n && forall k :: 0 <= k < |s| ==> IsHexDigit(s[k])
  {
    if n > 0 && |s| > 0 {
      HexRepeatChars(s[1..], n - 1);
      if IsHexDigit(s[0]) && (forall k :: 0 <= k < |s| - 1 ==> IsHexDigit(s[1..][k])) {
        forall k | 0 <= k < |s|
          ensures IsHexDigit(s[k])
        {
          if k > 0 {
            assert s[k] == s[1..][k - 1];
          }
        }
      }
    }
  }

  lemma ObjectIdChars(s: string)
    ensures IsObjectId(s) <==> |s| == 24 && forall k :: 0 <= k < |s| ==> IsHexDigit(s[k])
  {
    HexRepeatChars(s, 24);
  }

  lemma SampleObjectId(s: string)
    requires s == "64b7f0c2A1d3e4F5a6b7c8d9"
    ensures IsObjectId(s)
  {
    ObjectIdChars(s);
  }

  lemma ShortIsNotObjectId(s: string)
    requires s == "64b7f0c2a1d3e4f5a6b7c8d"
    ensures !IsObjectId(s)
  {
    ObjectIdChars(s);
  }

  lemma NonHexIsNotObjectId(s: string)
    requires s == "64b7f0c2a1d3e4f5a6b7c8dg"
    ensures !IsObjectId(s)
  {
    ObjectIdChars(s);
    assert !IsHexDigit(s[23]);
  }
}
