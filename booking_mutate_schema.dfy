/**
 * `bookingMutateSchema`: the client payload that creates or updates a
 * booking. A strict object of a slot-aligned `dateTime`, an `email`, a
 * `name` and a `status`.
 */
module BookingMutateSchema {
  import opened Wrappers
  import opened Values
  import opened SlotAlignment
  import opened EmailRegex
  import opened Status
  import opened Zod

  datatype BookingMutate = BookingMutate(dateTime: int, email: string, name: string, status: BookingStatus)

  const DateTimeTypeMessage: string := "\"dateTime\" must be a valid date"
  const DateTimeAlignMessage: string := "\"dateTime\" must be aligned to the booking slot boundaries (UTC)"
  const EmailTypeMessage: string := "\"email\" must be a string"
  const EmailMaxMessage: string := "\"email\" must be at most 254 characters long"
  const EmailFormatMessage: string := "\"email\" must be a valid email"
  const NameTypeMessage: string := "\"name\" must be a string"
  const NameMaxMessage: string := "\"name\" must be at most 120 characters long"
  const NameMinMessage: string := "\"name\" must be at least 2 characters long"

  const EmailChecks: seq<StringCheck> := [MaxLength(254, EmailMaxMessage), EmailFormat(EmailFormatMessage)]
  const NameChecks: seq<StringCheck> := [MaxLength(120, NameMaxMessage), MinLength(2, NameMinMessage)]

  const Shape: set<string> := {"dateTime", "email", "name", "status"}

  /** The payload rules, field by field. */
  predicate ValidEmail(email: string) {
    |email| <= 254 && IsEmail(email)
  }

  predicate ValidName(name: string) {
    2 <= |name| <= 120
  }

  predicate ValidMutate(b: BookingMutate, slotMs: int) {
    IsAlignedInstant(b.dateTime, slotMs) && ValidEmail(b.email) && ValidName(b.name)
  }

  lemma EmailChecksMeaning(x: string)
    ensures PassesAll(EmailChecks, x) <==> ValidEmail(x)
  {
    assert Passes(EmailChecks[0], x) <==> |x| <= 254;
    assert Passes(EmailChecks[1], x) <==> IsEmail(x);
  }

  lemma NameChecksMeaning(x: string)
    ensures PassesAll(NameChecks, x) <==> ValidName(x)
  {
    assert Passes(NameChecks[0], x) <==> |x| <= 120;
    assert Passes(NameChecks[1], x) <==> |x| >= 2;
  }

  /** Each field of an input object against its rule. */
  predicate FieldOk(f: map<string, Value>, slotMs: int, key: string) {
    if key == "dateTime" then "dateTime" in f && IsAlignedToSlot(f["dateTime"], slotMs)
    else if key == "email" then "email" in f && f["email"].VString? && ValidEmail(f["email"].s)
    else if key == "name" then "name" in f && f["name"].VString? && ValidName(f["name"].s)
    else "status" in f && f["status"].VString? && FromName(f["status"].s).Known?
  }

  /** The payload a client sends for `b`. */
  function Encode(b: BookingMutate): Value {
    VObject(map[
      "dateTime" := VDate(b.dateTime),
      "email" := VString(b.email),
      "name" := VString(b.name),
      "status" := VString(Name(b.status))])
  }

  function DateTimeField(f: map<string, Value>, slotMs: int): (r: Parsed<int>)
    ensures FieldOutcome(r)
  {
    AlignedDateSchema(Field(f, "dateTime"), DateTimeTypeMessage, DateTimeAlignMessage, slotMs)
  }

  function EmailField(f: map<string, Value>): (r: Parsed<string>)
    ensures FieldOutcome(r)
  {
    StringSchema(Field(f, "email"), EmailTypeMessage, EmailChecks)
  }

  function NameField(f: map<string, Value>): (r: Parsed<string>)
    ensures FieldOutcome(r)
  {
    StringSchema(Field(f, "name"), NameTypeMessage, NameChecks)
  }

  /** The issues of the four fields, in shape order. */
  function FieldIssues(f: map<string, Value>, slotMs: int): seq<Issue> {
    At("dateTime", DateTimeField(f, slotMs))
    + At("email", EmailField(f))
    + At("name", NameField(f))
    + At("status", StatusSchema(Field(f, "status")))
  }

  /** Field issues, then the unrecognized keys. */
  function MutateIssues(f: map<string, Value>, slotMs: int): seq<Issue> {
    FieldIssues(f, slotMs) + StrictKeys(f, Shape)
  }

  /** The field issues are empty exactly when every field keeps its rule. */
  lemma FieldIssuesEmpty(f: map<string, Value>, slotMs: int)
    ensures FieldIssues(f, slotMs) == [] <==> forall key | key in Shape :: FieldOk(f, slotMs, key)
  {
    FieldValid(f, slotMs);
    AtField("dateTime", DateTimeField(f, slotMs));
    AtField("email", EmailField(f));
    AtField("name", NameField(f));
    AtField("status", StatusSchema(Field(f, "status")));
  }

  /** The field issues depend on the shape's keys only. */
  lemma FieldIssuesRestrict(f: map<string, Value>, slotMs: int, keys: set<string>)
    requires Shape <= keys
    ensures FieldIssues(Restrict(f, keys), slotMs) == FieldIssues(f, slotMs)
  {
    var g := Restrict(f, keys);
    assert Field(g, "dateTime") == Field(f, "dateTime");
    assert Field(g, "email") == Field(f, "email");
    assert Field(g, "name") == Field(f, "name");
    assert Field(g, "status") == Field(f, "status");
  }

  predicate AllFieldsOk(f: map<string, Value>, slotMs: int) {
    forall key | key in Shape :: FieldOk(f, slotMs, key)
  }

  /** The payload an object with valid fields carries. */
  function Decode(f: map<string, Value>, slotMs: int): BookingMutate
    requires AllFieldsOk(f, slotMs)
  {
    assert FieldOk(f, slotMs, "dateTime") && FieldOk(f, slotMs, "email");
    assert FieldOk(f, slotMs, "name") && FieldOk(f, slotMs, "status");
    BookingMutate(f["dateTime"].ms, f["email"].s, f["name"].s, FromName(f["status"].s).status)
  }

  /** Decoding valid fields gives a valid payload whose encoding is the shape's part of the object. */
  lemma DecodeEncode(f: map<string, Value>, slotMs: int)
    requires AllFieldsOk(f, slotMs)
    ensures ValidMutate(Decode(f, slotMs), slotMs)
    ensures Restrict(f, Shape) == Encode(Decode(f, slotMs)).fields
  {
    assert FieldOk(f, slotMs, "dateTime") && FieldOk(f, slotMs, "email");
    assert FieldOk(f, slotMs, "name") && FieldOk(f, slotMs, "status");
  }

  /** A valid payload's encoding has valid fields, which decode back to it. */
  lemma EncodeDecode(b: BookingMutate, slotMs: int)
    requires ValidMutate(b, slotMs)
    ensures AllFieldsOk(Encode(b).fields, slotMs)
    ensures Decode(Encode(b).fields, slotMs) == b
    ensures Encode(b).fields.Keys == Shape
  {
    NameRoundTrip(b.status);
  }

  /** `bookingMutateSchema.safeParse(v)`. What it accepts is exactly an encoded valid payload. */
  function ParseBookingMutate(v: Value, slotMs: int): (r: Parsed<BookingMutate>)
    ensures WellFormed(r)
    ensures r.Valid? ==> ValidMutate(r.value, slotMs) && v == Encode(r.value)
  {
    var f := ObjectFields(v);
    if f.None? then NotAnObject(v)
    else
      var issues := MutateIssues(f.value, slotMs);
      if issues != [] then Invalid(issues)
      else
        FieldIssuesEmpty(f.value, slotMs);
        DecodeEncode(f.value, slotMs);
        assert f.value == Restrict(f.value, Shape);
        Valid(Decode(f.value, slotMs))
  }

  /** Every valid payload is accepted as itself. */
  lemma ParseEncode(b: BookingMutate, slotMs: int)
    requires ValidMutate(b, slotMs)
    ensures ParseBookingMutate(Encode(b), slotMs) == Valid(b)
  {
    EncodeDecode(b, slotMs);
    FieldIssuesEmpty(Encode(b).fields, slotMs);
  }

  /** Acceptance, stated on the input: the input is an encoded valid payload. */
  lemma ParseAccepts(v: Value, slotMs: int)
    ensures ParseBookingMutate(v, slotMs).Valid? <==> exists b :: ValidMutate(b, slotMs) && v == Encode(b)
  {
    if exists b :: ValidMutate(b, slotMs) && v == Encode(b) {
      var b :| ValidMutate(b, slotMs) && v == Encode(b);
      ParseEncode(b, slotMs);
    }
  }

  /** Splits the issue list into its five parts for a question about one path. */
  lemma MutateIssuesAt(f: map<string, Value>, slotMs: int, path: seq<PathItem>)
    ensures HasIssueAt(MutateIssues(f, slotMs), path) <==>
      || HasIssueAt(At("dateTime", DateTimeField(f, slotMs)), path)
      || HasIssueAt(At("email", EmailField(f)), path)
      || HasIssueAt(At("name", NameField(f)), path)
      || HasIssueAt(At("status", StatusSchema(Field(f, "status"))), path)
      || HasIssueAt(StrictKeys(f, Shape), path)
  {
    var a := At("dateTime", DateTimeField(f, slotMs));
    var b := At("email", EmailField(f));
    var c := At("name", NameField(f));
    var d := At("status", StatusSchema(Field(f, "status")));
    var e := StrictKeys(f, Shape);
    HasIssueAtConcat(a + b + c + d, e, path);
    HasIssueAtConcat(a + b + c, d, path);
    HasIssueAtConcat(a + b, c, path);
    HasIssueAtConcat(a, b, path);
  }

  lemma MutateMessageAt(f: map<string, Value>, slotMs: int, path: seq<PathItem>, message: string)
    requires || HasMessageAt(At("dateTime", DateTimeField(f, slotMs)), path, message)
             || HasMessageAt(At("email", EmailField(f)), path, message)
             || HasMessageAt(At("name", NameField(f)), path, message)
             || HasMessageAt(At("status", StatusSchema(Field(f, "status"))), path, message)
    ensures HasMessageAt(MutateIssues(f, slotMs), path, message)
  {
    var a := At("dateTime", DateTimeField(f, slotMs));
    var b := At("email", EmailField(f));
    var c := At("name", NameField(f));
    var d := At("status", StatusSchema(Field(f, "status")));
    var e := StrictKeys(f, Shape);
    HasMessageAtConcat(a + b + c + d, e, path, message);
    HasMessageAtConcat(a + b + c, d, path, message);
    HasMessageAtConcat(a + b, c, path, message);
    HasMessageAtConcat(a, b, path, message);
  }

  /** On an object, the parse reports exactly the assembled issues. */
  lemma ParseIssues(v: Value, slotMs: int)
    requires ObjectFields(v).Some?
    ensures IssuesOf(ParseBookingMutate(v, slotMs)) == MutateIssues(ObjectFields(v).value, slotMs)
  {
  }

  lemma FieldValid(f: map<string, Value>, slotMs: int)
    ensures DateTimeField(f, slotMs).Valid? <==> FieldOk(f, slotMs, "dateTime")
    ensures EmailField(f).Valid? <==> FieldOk(f, slotMs, "email")
    ensures NameField(f).Valid? <==> FieldOk(f, slotMs, "name")
    ensures StatusSchema(Field(f, "status")).Valid? <==> FieldOk(f, slotMs, "status")
  {
    if "email" in f && f["email"].VString? {
      EmailChecksMeaning(f["email"].s);
    }
    if "name" in f && f["name"].VString? {
      NameChecksMeaning(f["name"].s);
    }
  }

  /** A field is reported at its own path exactly when it breaks its rule. */
  lemma MutateIssueAtKey(f: map<string, Value>, slotMs: int, key: string)
    requires key in Shape
    ensures HasIssueAt(MutateIssues(f, slotMs), [Key(key)]) <==> !FieldOk(f, slotMs, key)
  {
    FieldValid(f, slotMs);
    MutateIssuesAt(f, slotMs, [Key(key)]);
    AtFieldPaths("dateTime", DateTimeField(f, slotMs), [Key(key)]);
    AtFieldPaths("email", EmailField(f), [Key(key)]);
    AtFieldPaths("name", NameField(f), [Key(key)]);
    AtFieldPaths("status", StatusSchema(Field(f, "status")), [Key(key)]);
    StrictKeysPaths(f, Shape, key);
  }

  /**
   * Each field is reported at its own path exactly when it breaks its rule,
   * and keys outside the shape are reported together.
   */
  lemma MutateFieldIssues(v: Value, slotMs: int)
    requires ObjectFields(v).Some?
    ensures var f := ObjectFields(v).value;
      var issues := IssuesOf(ParseBookingMutate(v, slotMs));
      && (forall key | key in Shape :: HasIssueAt(issues, [Key(key)]) <==> !FieldOk(f, slotMs, key))
      && (!(f.Keys <= Shape) ==> UnrecognizedKeys([], f.Keys - Shape) in issues)
  {
    var f := ObjectFields(v).value;
    ParseIssues(v, slotMs);
    forall key | key in Shape
      ensures HasIssueAt(MutateIssues(f, slotMs), [Key(key)]) <==> !FieldOk(f, slotMs, key)
    {
      MutateIssueAtKey(f, slotMs, key);
    }
    var issues := MutateIssues(f, slotMs);
    if !(f.Keys <= Shape) {
      assert issues[|issues| - 1] == UnrecognizedKeys([], f.Keys - Shape);
    }
  }

  /** Every message of a failing field appears under the field's key. */
  lemma FieldMessagesReported<T>(f: map<string, Value>, slotMs: int, key: string, p: Parsed<T>)
    requires FieldOutcome(p) && p.Invalid?
    requires || (key == "dateTime" && At(key, p) == At("dateTime", DateTimeField(f, slotMs)))
             || (key == "email" && At(key, p) == At("email", EmailField(f)))
             || (key == "name" && At(key, p) == At("name", NameField(f)))
             || (key == "status" && At(key, p) == At("status", StatusSchema(Field(f, "status"))))
    ensures forall m :: Issue([], m) in p.issues ==> HasMessageAt(MutateIssues(f, slotMs), [Key(key)], m)
  {
    forall m | Issue([], m) in p.issues
      ensures HasMessageAt(MutateIssues(f, slotMs), [Key(key)], m)
    {
      AtFieldMessage(key, p, m);
      MutateMessageAt(f, slotMs, [Key(key)], m);
    }
  }

  lemma DateTimeMessages(f: map<string, Value>, slotMs: int)
    ensures "dateTime" in f && f["dateTime"].VDate? && !IsAlignedInstant(f["dateTime"].ms, slotMs)
      ==> HasMessageAt(MutateIssues(f, slotMs), [Key("dateTime")], DateTimeAlignMessage)
    ensures !("dateTime" in f && f["dateTime"].VDate?)
      ==> HasMessageAt(MutateIssues(f, slotMs), [Key("dateTime")], DateTimeTypeMessage)
  {
    var d := DateTimeField(f, slotMs);
    if d.Invalid? {
      FieldMessagesReported(f, slotMs, "dateTime", d);
    }
  }

  lemma EmailMessages(f: map<string, Value>, slotMs: int)
    ensures !("email" in f && f["email"].VString?)
      ==> HasMessageAt(MutateIssues(f, slotMs), [Key("email")], EmailTypeMessage)
    ensures "email" in f && f["email"].VString? && |f["email"].s| > 254
      ==> HasMessageAt(MutateIssues(f, slotMs), [Key("email")], EmailMaxMessage)
    ensures "email" in f && f["email"].VString? && !IsEmail(f["email"].s)
      ==> HasMessageAt(MutateIssues(f, slotMs), [Key("email")], EmailFormatMessage)
  {
    var e := EmailField(f);
    if e.Invalid? {
      FieldMessagesReported(f, slotMs, "email", e);
    }
    if "email" in f && f["email"].VString? {
      var x := f["email"].s;
      if !Passes(EmailChecks[0], x) || !Passes(EmailChecks[1], x) {
        assert !PassesAll(EmailChecks, x);
        assert e.issues == CheckIssues(EmailChecks, x);
      }
    }
  }

  lemma NameMessages(f: map<string, Value>, slotMs: int)
    ensures !("name" in f && f["name"].VString?)
      ==> HasMessageAt(MutateIssues(f, slotMs), [Key("name")], NameTypeMessage)
    ensures "name" in f && f["name"].VString? && |f["name"].s| > 120
      ==> HasMessageAt(MutateIssues(f, slotMs), [Key("name")], NameMaxMessage)
    ensures "name" in f && f["name"].VString? && |f["name"].s| < 2
      ==> HasMessageAt(MutateIssues(f, slotMs), [Key("name")], NameMinMessage)
  {
    var n := NameField(f);
    if n.Invalid? {
      FieldMessagesReported(f, slotMs, "name", n);
    }
    if "name" in f && f["name"].VString? {
      var x := f["name"].s;
      if !Passes(NameChecks[0], x) || !Passes(NameChecks[1], x) {
        assert !PassesAll(NameChecks, x);
        assert n.issues == CheckIssues(NameChecks, x);
      }
    }
  }

  lemma StatusMessages(f: map<string, Value>, slotMs: int)
    ensures !("status" in f && f["status"].VString? && FromName(f["status"].s).Known?)
      ==> HasMessageAt(MutateIssues(f, slotMs), [Key("status")], StatusMessage)
  {
    var s := StatusSchema(Field(f, "status"));
    if s.Invalid? {
      FieldMessagesReported(f, slotMs, "status", s);
    }
  }

  /** The message each broken rule reports under its field. */
  lemma MutateMessages(v: Value, slotMs: int)
    requires ObjectFields(v).Some?
    ensures var f := ObjectFields(v).value;
      var issues := IssuesOf(ParseBookingMutate(v, slotMs));
      && ("dateTime" in f && f["dateTime"].VDate? && !IsAlignedInstant(f["dateTime"].ms, slotMs)
          ==> HasMessageAt(issues, [Key("dateTime")], DateTimeAlignMessage))
      && (!("dateTime" in f && f["dateTime"].VDate?) ==> HasMessageAt(issues, [Key("dateTime")], DateTimeTypeMessage))
      && (!("email" in f && f["email"].VString?) ==> HasMessageAt(issues, [Key("email")], EmailTypeMessage))
      && ("email" in f && f["email"].VString? && |f["email"].s| > 254 ==> HasMessageAt(issues, [Key("email")], EmailMaxMessage))
      && ("email" in f && f["email"].VString? && !IsEmail(f["email"].s) ==> HasMessageAt(issues, [Key("email")], EmailFormatMessage))
      && (!("name" in f && f["name"].VString?) ==> HasMessageAt(issues, [Key("name")], NameTypeMessage))
      && ("name" in f && f["name"].VString? && |f["name"].s| > 120 ==> HasMessageAt(issues, [Key("name")], NameMaxMessage))
      && ("name" in f && f["name"].VString? && |f["name"].s| < 2 ==> HasMessageAt(issues, [Key("name")], NameMinMessage))
      && (!("status" in f && f["status"].VString? && FromName(f["status"].s).Known?) ==> HasMessageAt(issues, [Key("status")], StatusMessage))
  {
    var f := ObjectFields(v).value;
    ParseIssues(v, slotMs);
    DateTimeMessages(f, slotMs);
    EmailMessages(f, slotMs);
    NameMessages(f, slotMs);
    StatusMessages(f, slotMs);
  }
}
