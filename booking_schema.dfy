/**
 * `bookingSchema`, the earlier booking shape: an `email`, a `name`, a
 * slot-aligned `startDate` and an optional `status`. The object is not
 * strict, so keys outside its shape are dropped; `bookingMongoDbSchema` in
 * the same file extends it with the base document fields, also not strict.
 */
module BookingSchema {
  import opened Wrappers
  import opened Values
  import opened SlotAlignment
  import opened EmailRegex
  import opened Status
  import opened Zod
  import Base = BaseDocumentSchema

  datatype Booking = Booking(email: string, name: string, startDate: int, status: Option<BookingStatus>)

  const EmailTypeMessage: string := "\"email\" must be a string"
  const EmailMaxMessage: string := "\"email\" must be at most 254 characters long"
  const EmailFormatMessage: string := "\"email\" must be a valid email"
  const NameTypeMessage: string := "\"name\" must be a string"
  const NameMaxMessage: string := "\"name\" must be at most 120 characters long"
  const NameMinMessage: string := "\"name\" must be at least 2 characters long"
  const StartDateTypeMessage: string := "\"startDate\" must be a valid date"
  const StartDateAlignMessage: string := "\"startDate\" must be aligned to the booking slot boundaries (UTC)"

  const EmailChecks: seq<StringCheck> := [MaxLength(254, EmailMaxMessage), EmailFormat(EmailFormatMessage)]
  const NameChecks: seq<StringCheck> := [MaxLength(120, NameMaxMessage), MinLength(2, NameMinMessage)]

  const Shape: set<string> := {"email", "name", "startDate", "status"}

  predicate ValidBooking(b: Booking, slotMs: int) {
    && |b.email| <= 254 && IsEmail(b.email)
    && 2 <= |b.name| <= 120
    && IsAlignedInstant(b.startDate, slotMs)
  }

  /** Each field of an input object against its rule; the status may be absent. */
  predicate FieldOk(f: map<string, Value>, slotMs: int, key: string) {
    if key == "email" then "email" in f && f["email"].VString? && |f["email"].s| <= 254 && IsEmail(f["email"].s)
    else if key == "name" then "name" in f && f["name"].VString? && 2 <= |f["name"].s| <= 120
    else if key == "startDate" then "startDate" in f && IsAlignedToSlot(f["startDate"], slotMs)
    else "status" !in f || (f["status"].VString? && FromName(f["status"].s).Known?)
  }

  predicate AllFieldsOk(f: map<string, Value>, slotMs: int) {
    forall key | key in Shape :: FieldOk(f, slotMs, key)
  }

  function EmailField(f: map<string, Value>, slotMs: int): (r: Parsed<string>)
    ensures FieldOutcome(r)
    ensures r.Valid? <==> FieldOk(f, slotMs, "email")
  {
    assert "email" in f && f["email"].VString? ==> (PassesAll(EmailChecks, f["email"].s) <==> FieldOk(f, slotMs, "email")) by {
      if "email" in f && f["email"].VString? {
        assert Passes(EmailChecks[0], f["email"].s) <==> |f["email"].s| <= 254;
        assert Passes(EmailChecks[1], f["email"].s) <==> IsEmail(f["email"].s);
      }
    }
    StringSchema(Field(f, "email"), EmailTypeMessage, EmailChecks)
  }

  function NameField(f: map<string, Value>, slotMs: int): (r: Parsed<string>)
    ensures FieldOutcome(r)
    ensures r.Valid? <==> FieldOk(f, slotMs, "name")
  {
    assert "name" in f && f["name"].VString? ==> (PassesAll(NameChecks, f["name"].s) <==> FieldOk(f, slotMs, "name")) by {
      if "name" in f && f["name"].VString? {
        assert Passes(NameChecks[0], f["name"].s) <==> |f["name"].s| <= 120;
        assert Passes(NameChecks[1], f["name"].s) <==> |f["name"].s| >= 2;
      }
    }
    StringSchema(Field(f, "name"), NameTypeMessage, NameChecks)
  }

  function StartDateField(f: map<string, Value>, slotMs: int): (r: Parsed<int>)
    ensures FieldOutcome(r)
    ensures r.Valid? <==> FieldOk(f, slotMs, "startDate")
  {
    AlignedDateSchema(Field(f, "startDate"), StartDateTypeMessage, StartDateAlignMessage, slotMs)
  }

  function StatusField(f: map<string, Value>, slotMs: int): (r: Parsed<Option<BookingStatus>>)
    ensures FieldOutcome(r)
    ensures r.Valid? <==> FieldOk(f, slotMs, "status")
  {
    OptionalStatusSchema(Field(f, "status"))
  }

  /** The issues of the four fields, in shape order. */
  function FieldIssues(f: map<string, Value>, slotMs: int): seq<Issue> {
    At("email", EmailField(f, slotMs)) + At("name", NameField(f, slotMs))
    + At("startDate", StartDateField(f, slotMs)) + At("status", StatusField(f, slotMs))
  }

  lemma FieldIssuesEmpty(f: map<string, Value>, slotMs: int)
    ensures FieldIssues(f, slotMs) == [] <==> AllFieldsOk(f, slotMs)
  {
    AtField("email", EmailField(f, slotMs));
    AtField("name", NameField(f, slotMs));
    AtField("startDate", StartDateField(f, slotMs));
    AtField("status", StatusField(f, slotMs));
  }

  lemma FieldIssuesRestrict(f: map<string, Value>, slotMs: int, keys: set<string>)
    requires Shape <= keys
    ensures FieldIssues(Restrict(f, keys), slotMs) == FieldIssues(f, slotMs)
  {
    var g := Restrict(f, keys);
    assert Field(g, "email") == Field(f, "email");
    assert Field(g, "name") == Field(f, "name");
    assert Field(g, "startDate") == Field(f, "startDate");
    assert Field(g, "status") == Field(f, "status");
  }

  /** The payload a client sends for `b`; an absent status is an absent key. */
  function Encode(b: Booking): Value {
    var base := map["email" := VString(b.email), "name" := VString(b.name), "startDate" := VDate(b.startDate)];
    VObject(if b.status.Some? then base["status" := VString(Name(b.status.value))] else base)
  }

  function Decode(f: map<string, Value>, slotMs: int): Booking
    requires AllFieldsOk(f, slotMs)
  {
    assert FieldOk(f, slotMs, "email") && FieldOk(f, slotMs, "name") && FieldOk(f, slotMs, "startDate");
    assert FieldOk(f, slotMs, "status");
    var status := if "status" in f then Some(FromName(f["status"].s).status) else None;
    Booking(f["email"].s, f["name"].s, f["startDate"].ms, status)
  }

  lemma DecodeEncode(f: map<string, Value>, slotMs: int)
    requires AllFieldsOk(f, slotMs)
    ensures ValidBooking(Decode(f, slotMs), slotMs)
    ensures Restrict(f, Shape) == Encode(Decode(f, slotMs)).fields
  {
    assert FieldOk(f, slotMs, "email") && FieldOk(f, slotMs, "name") && FieldOk(f, slotMs, "startDate");
    assert FieldOk(f, slotMs, "status");
  }

  lemma EncodeDecode(b: Booking, slotMs: int)
    requires ValidBooking(b, slotMs)
    ensures AllFieldsOk(Encode(b).fields, slotMs)
    ensures Decode(Encode(b).fields, slotMs) == b
  {
    if b.status.Some? {
      NameRoundTrip(b.status.value);
    }
  }

  /**
   * `bookingSchema.safeParse(v)`: an accepted object's shape entries are
   * exactly the encoding of the result; other keys are dropped.
   */
  function ParseBooking(v: Value, slotMs: int): (r: Parsed<Booking>)
    ensures WellFormed(r)
    ensures r.Valid? ==> ObjectFields(v).Some?
    ensures r.Valid? ==> ValidBooking(r.value, slotMs) && Restrict(ObjectFields(v).value, Shape) == Encode(r.value).fields
  {
    var f := ObjectFields(v);
    if f.None? then NotAnObject(v)
    else
      var issues := FieldIssues(f.value, slotMs);
      if issues != [] then Invalid(issues)
      else
        FieldIssuesEmpty(f.value, slotMs);
        DecodeEncode(f.value, slotMs);
        Valid(Decode(f.value, slotMs))
  }

  lemma ParseIssues(v: Value, slotMs: int)
    requires ObjectFields(v).Some?
    ensures IssuesOf(ParseBooking(v, slotMs)) == FieldIssues(ObjectFields(v).value, slotMs)
  {
  }

  /** An issue at `path` among the field issues comes from one of the four fields. */
  lemma FieldIssuesAt(f: map<string, Value>, slotMs: int, path: seq<PathItem>)
    ensures HasIssueAt(FieldIssues(f, slotMs), path) <==>
      || HasIssueAt(At("email", EmailField(f, slotMs)), path)
      || HasIssueAt(At("name", NameField(f, slotMs)), path)
      || HasIssueAt(At("startDate", StartDateField(f, slotMs)), path)
      || HasIssueAt(At("status", StatusField(f, slotMs)), path)
  {
    var a := At("email", EmailField(f, slotMs));
    var b := At("name", NameField(f, slotMs));
    var c := At("startDate", StartDateField(f, slotMs));
    var d := At("status", StatusField(f, slotMs));
    HasIssueAtConcat(a + b + c, d, path);
    HasIssueAtConcat(a + b, c, path);
    HasIssueAtConcat(a, b, path);
  }

  /** A field is reported at its own path exactly when it breaks its rule. */
  lemma IssueAtKey(f: map<string, Value>, slotMs: int, key: string)
    requires key in Shape
    ensures HasIssueAt(FieldIssues(f, slotMs), [Key(key)]) <==> !FieldOk(f, slotMs, key)
  {
    FieldIssuesAt(f, slotMs, [Key(key)]);
    AtFieldPaths("email", EmailField(f, slotMs), [Key(key)]);
    AtFieldPaths("name", NameField(f, slotMs), [Key(key)]);
    AtFieldPaths("startDate", StartDateField(f, slotMs), [Key(key)]);
    AtFieldPaths("status", StatusField(f, slotMs), [Key(key)]);
  }

  /** On an object, each field is reported at its own path exactly when it breaks its rule. */
  lemma BookingFieldIssues(v: Value, slotMs: int)
    requires ObjectFields(v).Some?
    ensures forall key | key in Shape ::
      HasIssueAt(IssuesOf(ParseBooking(v, slotMs)), [Key(key)]) <==> !FieldOk(ObjectFields(v).value, slotMs, key)
  {
    ParseIssues(v, slotMs);
    forall key | key in Shape
      ensures HasIssueAt(FieldIssues(ObjectFields(v).value, slotMs), [Key(key)]) <==> !FieldOk(ObjectFields(v).value, slotMs, key)
    {
      IssueAtKey(ObjectFields(v).value, slotMs, key);
    }
  }

  /**
   * A `startDate` that is a valid Date off the slot grid is reported with the
   * alignment message; one that is not a valid Date, with the type message.
   */
  lemma StartDateMessages(v: Value, slotMs: int)
    requires ObjectFields(v).Some?
    ensures var f := ObjectFields(v).value;
      var issues := IssuesOf(ParseBooking(v, slotMs));
      && ("startDate" in f && f["startDate"].VDate? && !IsAlignedInstant(f["startDate"].ms, slotMs) ==>
            HasMessageAt(issues, [Key("startDate")], StartDateAlignMessage))
      && (!("startDate" in f && f["startDate"].VDate?) ==>
            HasMessageAt(issues, [Key("startDate")], StartDateTypeMessage))
  {
    var f := ObjectFields(v).value;
    var a := At("email", EmailField(f, slotMs));
    var b := At("name", NameField(f, slotMs));
    var c := At("startDate", StartDateField(f, slotMs));
    var d := At("status", StatusField(f, slotMs));
    ParseIssues(v, slotMs);
    var message := if "startDate" in f && f["startDate"].VDate? then StartDateAlignMessage else StartDateTypeMessage;
    if !("startDate" in f && f["startDate"].VDate? && IsAlignedInstant(f["startDate"].ms, slotMs)) {
      AtFieldMessage("startDate", StartDateField(f, slotMs), message);
      HasMessageAtConcat(a, b, [Key("startDate")], message);
      HasMessageAtConcat(a + b, c, [Key("startDate")], message);
      HasMessageAtConcat(a + b + c, d, [Key("startDate")], message);
    }
  }

  /** Every valid booking is accepted as itself, with or without a status. */
  lemma ParseEncode(b: Booking, slotMs: int)
    requires ValidBooking(b, slotMs)
    ensures ParseBooking(Encode(b), slotMs) == Valid(b)
  {
    EncodeDecode(b, slotMs);
    FieldIssuesEmpty(Encode(b).fields, slotMs);
  }

  /** Keys outside the shape change nothing: the object strips them. */
  lemma ParseIgnoresUnknownKeys(f: map<string, Value>, key: string, x: Value, slotMs: int)
    requires key !in Shape
    ensures ParseBooking(VObject(f[key := x]), slotMs) == ParseBooking(VObject(f), slotMs)
  {
    var g := f[key := x];
    SameShapeFields(g, f, slotMs);
    ParseIssues(VObject(g), slotMs);
    ParseIssues(VObject(f), slotMs);
  }

  /** Two objects that agree on the shape's keys have the same issues and decode alike. */
  lemma SameShapeFields(g: map<string, Value>, f: map<string, Value>, slotMs: int)
    requires forall k :: k in Shape ==> Field(g, k) == Field(f, k)
    ensures FieldIssues(g, slotMs) == FieldIssues(f, slotMs)
    ensures AllFieldsOk(g, slotMs) ==> AllFieldsOk(f, slotMs) && Decode(g, slotMs) == Decode(f, slotMs)
  {
    assert Field(g, "email") == Field(f, "email");
    assert Field(g, "name") == Field(f, "name");
    assert Field(g, "startDate") == Field(f, "startDate");
    assert Field(g, "status") == Field(f, "status");
    if AllFieldsOk(g, slotMs) {
      FieldIssuesEmpty(g, slotMs);
      FieldIssuesEmpty(f, slotMs);
    }
  }

  // ---- bookingMongoDbSchema of the same file: the booking extended with the base fields ----

  datatype BookingDocument = BookingDocument(booking: Booking, document: Base.BaseDocument)

  const DocumentShape: set<string> := Shape + Base.Shape

  function ParseBookingDocument(v: Value, slotMs: int): (r: Parsed<BookingDocument>)
    ensures WellFormed(r)
    ensures r.Valid? ==> ObjectFields(v).Some?
    ensures r.Valid? ==> ParseBooking(v, slotMs) == Valid(r.value.booking)
    ensures r.Valid? ==> Base.ParseBaseDocument(v) == Valid(r.value.document)
  {
    var f := ObjectFields(v);
    if f.None? then NotAnObject(v)
    else
      var issues := FieldIssues(f.value, slotMs) + Base.FieldIssues(f.value);
      if issues != [] then Invalid(issues)
      else
        FieldIssuesEmpty(f.value, slotMs);
        Base.FieldIssuesEmpty(f.value);
        Valid(BookingDocument(Decode(f.value, slotMs), Base.Decode(f.value)))
  }

  /** Extension without strictness: a document is valid exactly when it is a valid booking and a valid base document. */
  lemma DocumentExtendsBoth(v: Value, slotMs: int)
    ensures ParseBookingDocument(v, slotMs).Valid? <==> ParseBooking(v, slotMs).Valid? && Base.ParseBaseDocument(v).Valid?
  {
    if ObjectFields(v).Some? {
      var f := ObjectFields(v).value;
      ParseIssues(v, slotMs);
      Base.ParseIssues(v);
      assert |FieldIssues(f, slotMs) + Base.FieldIssues(f)| == |FieldIssues(f, slotMs)| + |Base.FieldIssues(f)|;
    }
  }
}
