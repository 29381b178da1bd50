/** `bookingPaymentSchema`: the strict `{clientSecret}` object with a nonempty secret. */
module BookingPaymentSchema {
  import opened Wrappers
  import opened Values
  import opened Zod

  const SecretTypeMessage: string := "\"clientSecret\" must be a string"
  const SecretMessage: string := "\"clientSecret\" must be a valid secret"
  const SecretChecks: seq<StringCheck> := [MinLength(1, SecretMessage)]

  function EncodePayment(clientSecret: string): Value {
    VObject(map["clientSecret" := VString(clientSecret)])
  }

  function SecretField(f: map<string, Value>): (r: Parsed<string>)
    ensures FieldOutcome(r)
    ensures r.Valid? <==> "clientSecret" in f && f["clientSecret"].VString? && |f["clientSecret"].s| >= 1
    ensures r.Valid? ==> r.value == f["clientSecret"].s
  {
    assert "clientSecret" in f && f["clientSecret"].VString? ==>
      (PassesAll(SecretChecks, f["clientSecret"].s) <==> |f["clientSecret"].s| >= 1) by {
      if "clientSecret" in f && f["clientSecret"].VString? {
        assert Passes(SecretChecks[0], f["clientSecret"].s) <==> |f["clientSecret"].s| >= 1;
      }
    }
    StringSchema(Field(f, "clientSecret"), SecretTypeMessage, SecretChecks)
  }

  /** `bookingPaymentSchema.safeParse(v)`: accepted exactly when `v` is `{clientSecret}` with a nonempty string. */
  function ParsePayment(v: Value): (r: Parsed<string>)
    ensures WellFormed(r)
    ensures r.Valid? ==> |r.value| >= 1 && v == EncodePayment(r.value)
  {
    var f := ObjectFields(v);
    if f.None? then NotAnObject(v)
    else
      var s := SecretField(f.value);
      var issues := At("clientSecret", s) + StrictKeys(f.value, {"clientSecret"});
      if issues != [] then Invalid(issues)
      else
        AtField("clientSecret", s);
        assert f.value == EncodePayment(s.value).fields;
        Valid(s.value)
  }

  lemma ParseEncodePayment(clientSecret: string)
    requires |clientSecret| >= 1
    ensures ParsePayment(EncodePayment(clientSecret)) == Valid(clientSecret)
  {
    AtField("clientSecret", SecretField(EncodePayment(clientSecret).fields));
  }

  /** The empty secret is reported at `clientSecret` with the secret message, and only that. */
  lemma EmptySecretRejected()
    ensures ParsePayment(EncodePayment("")) == Invalid([Issue([Key("clientSecret")], SecretMessage)])
  {
    var f := EncodePayment("").fields;
    var s := SecretField(f);
    assert !Passes(SecretChecks[0], "");
    assert s.issues == [Issue([], SecretMessage)];
    AtField("clientSecret", s);
  }

  /** An object without `clientSecret` is refused with the type message at `clientSecret`. */
  lemma MissingSecretRejected(v: Value)
    requires ObjectFields(v).Some? && "clientSecret" !in ObjectFields(v).value
    ensures ParsePayment(v).Invalid?
    ensures HasMessageAt(IssuesOf(ParsePayment(v)), [Key("clientSecret")], SecretTypeMessage)
  {
    var f := ObjectFields(v).value;
    var s := SecretField(f);
    assert s == Invalid([Issue([], SecretTypeMessage)]);
    AtFieldMessage("clientSecret", s, SecretTypeMessage);
    HasMessageAtConcat(At("clientSecret", s), StrictKeys(f, {"clientSecret"}), [Key("clientSecret")], SecretTypeMessage);
  }

  /** A secret that is not a string is reported with the type message. */
  lemma NonStringSecretRejected(x: Value)
    requires !x.VString?
    ensures ParsePayment(VObject(map["clientSecret" := x])) == Invalid([Issue([Key("clientSecret")], SecretTypeMessage)])
  {
    AtField("clientSecret", SecretField(map["clientSecret" := x]));
  }
}
