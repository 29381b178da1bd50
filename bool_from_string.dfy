/**
 * `boolFromString`: a string, lowercased, that must then read `true` or
 * `false`, turned into the boolean it names.
 */
module BoolFromString {
  import opened Wrappers
  import opened Values
  import opened JsString
  import opened Zod

  /** The enum's default message for a value outside `['true', 'false']`. */
  const OptionMessage: string := "Invalid option: expected one of \"true\"|\"false\""

  /** `boolFromString.safeParse(v)`. */
  function ParseBoolFromString(v: Value): (r: Parsed<bool>)
    ensures WellFormed(r)
    ensures r.Valid? <==> v.VString? && (ToLower(v.s) == "true" || ToLower(v.s) == "false")
    ensures r.Valid? ==> r.value == (ToLower(v.s) == "true")
  {
    if !v.VString? then Invalid([Issue([], ExpectedMessage("string", v))])
    else
      var lowered := ToLower(v.s);
      if lowered == "true" then Valid(true)
      else if lowered == "false" then Valid(false)
      else Invalid([Issue([], OptionMessage)])
  }

  /** Case does not matter: a string and its lowercase form parse alike. */
  lemma CaseInsensitive(s: string)
    ensures ParseBoolFromString(VString(s)) == ParseBoolFromString(VString(ToLower(s)))
  {
    ToLowerIdempotent(s);
  }

  /** Writing a boolean and reading it back gives the boolean. */
  lemma RoundTrip(b: bool)
    ensures ParseBoolFromString(VString(if b then "true" else "false")) == Valid(b)
  {
    var s := if b then "true" else "false";
    assert ToLower(s) == s by {
      assert forall i :: 0 <= i < |s| ==> LowerChar(s[i]) == s[i];
    }
  }

  /** Mixed case reads the same, as in `"TrUe"`. */
  lemma MixedCaseTrue()
    ensures ParseBoolFromString(VString("TrUe")) == Valid(true)
  {
    assert ToLower("TrUe") == "true" by {
      assert forall i :: 0 <= i < 4 ==> ToLower("TrUe")[i] == "true"[i];
    }
  }
}
