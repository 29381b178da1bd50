/**
 * `bookingStatusSchema` (one of the four status names) and
 * `bookingStatusReturn` (the strict `{bookingStatus}` object the cancel and
 * confirm endpoints answer with).
 */
module BookingStatusSchema {
  import opened Wrappers
  import opened Values
  import opened Status
  import opened Zod

  /** `bookingStatusSchema.safeParse(v)`: the four names and nothing else, whatever the input's type. */
  function ParseBookingStatus(v: Value): (r: Parsed<BookingStatus>)
    ensures WellFormed(r)
    ensures r.Valid? ==> v == VString(Name(r.value))
    ensures r.Invalid? ==> r.issues == [Issue([], StatusMessage)]
  {
    StatusSchema(Some(v))
  }

  lemma ParseName(s: BookingStatus)
    ensures ParseBookingStatus(VString(Name(s))) == Valid(s)
  {
    NameRoundTrip(s);
  }

  function EncodeStatusReturn(s: BookingStatus): Value {
    VObject(map["bookingStatus" := VString(Name(s))])
  }

  /** `bookingStatusReturn.safeParse(v)`: accepted exactly when `v` is `{bookingStatus: <a status name>}`. */
  function ParseStatusReturn(v: Value): (r: Parsed<BookingStatus>)
    ensures WellFormed(r)
    ensures r.Valid? ==> v == EncodeStatusReturn(r.value)
  {
    var f := ObjectFields(v);
    if f.None? then NotAnObject(v)
    else
      var s := StatusSchema(Field(f.value, "bookingStatus"));
      var issues := At("bookingStatus", s) + StrictKeys(f.value, {"bookingStatus"});
      if issues != [] then Invalid(issues)
      else
        AtField("bookingStatus", s);
        assert f.value == EncodeStatusReturn(s.value).fields;
        Valid(s.value)
  }

  lemma ParseEncodeStatusReturn(s: BookingStatus)
    ensures ParseStatusReturn(EncodeStatusReturn(s)) == Valid(s)
  {
    NameRoundTrip(s);
    var f := EncodeStatusReturn(s).fields;
    AtField("bookingStatus", StatusSchema(Field(f, "bookingStatus")));
  }

  /**
   * The reply is accepted exactly when it is an object whose only key is
   * `bookingStatus`, holding one of the four status names.
   */
  lemma ParseStatusReturnAccepts(v: Value)
    ensures ParseStatusReturn(v).Valid? <==>
      && v.VObject? && v.fields.Keys == {"bookingStatus"}
      && v.fields["bookingStatus"].VString? && FromName(v.fields["bookingStatus"].s).Known?
  {
    var r := ParseStatusReturn(v);
    if r.Valid? {
      NameRoundTrip(r.value);
    }
    if v.VObject? && v.fields.Keys == {"bookingStatus"} && v.fields["bookingStatus"].VString? && FromName(v.fields["bookingStatus"].s).Known? {
      var s := FromName(v.fields["bookingStatus"].s).status;
      assert v == EncodeStatusReturn(s);
      ParseEncodeStatusReturn(s);
    }
  }

  /** An object whose `bookingStatus` is missing or not a status name is refused with the listing message at `bookingStatus`. */
  lemma StatusReturnIssue(v: Value)
    requires ObjectFields(v).Some?
    requires var f := ObjectFields(v).value;
      !("bookingStatus" in f && f["bookingStatus"].VString? && FromName(f["bookingStatus"].s).Known?)
    ensures ParseStatusReturn(v).Invalid?
    ensures HasMessageAt(IssuesOf(ParseStatusReturn(v)), [Key("bookingStatus")], StatusMessage)
  {
    var f := ObjectFields(v).value;
    var s := StatusSchema(Field(f, "bookingStatus"));
    AtFieldMessage("bookingStatus", s, StatusMessage);
    HasMessageAtConcat(At("bookingStatus", s), StrictKeys(f, {"bookingStatus"}), [Key("bookingStatus")], StatusMessage);
  }

  /** An extra key next to a valid status is reported as unrecognized, and only that. */
  lemma ExtraKeyRejected(s: BookingStatus, key: string, x: Value)
    requires key != "bookingStatus"
    ensures ParseStatusReturn(VObject(EncodeStatusReturn(s).fields[key := x])) == Invalid([UnrecognizedKeys([], {key})])
  {
    NameRoundTrip(s);
    var f := EncodeStatusReturn(s).fields[key := x];
    AtField("bookingStatus", StatusSchema(Field(f, "bookingStatus")));
    assert f.Keys - {"bookingStatus"} == {key};
  }
}
