/** `contractErrorSchema`: the `{message}` error body; the object is not strict, so other keys are dropped. */
module ContractErrorSchema {
  import opened Wrappers
  import opened Values
  import opened Zod

  const MessageTypeMessage: string := "\"message\" must be a string"

  function EncodeError(message: string): Value {
    VObject(map["message" := VString(message)])
  }

  /** `contractErrorSchema.safeParse(v)`: accepted exactly when `v`'s `message` is a string, which is the result. */
  function ParseContractError(v: Value): (r: Parsed<string>)
    ensures WellFormed(r)
    ensures r.Valid? <==> v.VObject? && "message" in v.fields && v.fields["message"].VString?
    ensures r.Valid? ==> r.value == v.fields["message"].s
    ensures r.Invalid? && ObjectFields(v).Some? ==> r.issues == [Issue([Key("message")], MessageTypeMessage)]
  {
    var f := ObjectFields(v);
    if f.None? then NotAnObject(v)
    else
      var m := StringSchema(Field(f.value, "message"), MessageTypeMessage, []);
      var issues := At("message", m);
      AtField("message", m);
      if issues != [] then Invalid(issues) else Valid(m.value)
  }

  lemma ParseEncodeError(message: string)
    ensures ParseContractError(EncodeError(message)) == Valid(message)
  {
  }

  /** Keys other than `message` change nothing. */
  lemma ParseIgnoresUnknownKeys(f: map<string, Value>, key: string, x: Value)
    requires key != "message"
    ensures ParseContractError(VObject(f[key := x])) == ParseContractError(VObject(f))
  {
  }
}
