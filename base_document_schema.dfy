/**
 * `baseDocumentSchema`: the fields every stored document carries, an
 * ObjectId `_id` and the `createdAt` / `updatedAt` timestamps. The object is
 * not strict: keys outside its shape are dropped from the result.
 */
module BaseDocumentSchema {
  import opened Wrappers
  import opened Values
  import opened ObjectIdRegex
  import opened Zod

  datatype BaseDocument = BaseDocument(id: string, createdAt: int, updatedAt: int)

  const IdTypeMessage: string := "\"_id\" must be a string"
  const IdFormatMessage: string := "\"_id\" must be a valid ObjectId"
  const CreatedAtMessage: string := "\"createdAt\" must be a valid date"
  const UpdatedAtMessage: string := "\"updatedAt\" must be a valid date"

  const IdChecks: seq<StringCheck> := [ObjectIdFormat(IdFormatMessage)]

  const Shape: set<string> := {"_id", "createdAt", "updatedAt"}

  /** Each field of an input object against its rule. */
  predicate FieldOk(f: map<string, Value>, key: string) {
    if key == "_id" then "_id" in f && f["_id"].VString? && IsObjectId(f["_id"].s)
    else key in f && f[key].VDate?
  }

  function IdField(f: map<string, Value>): (r: Parsed<string>)
    ensures FieldOutcome(r)
    ensures r.Valid? <==> FieldOk(f, "_id")
  {
    assert "_id" in f && f["_id"].VString? ==> (PassesAll(IdChecks, f["_id"].s) <==> IsObjectId(f["_id"].s)) by {
      if "_id" in f && f["_id"].VString? {
        assert Passes(IdChecks[0], f["_id"].s) <==> IsObjectId(f["_id"].s);
      }
    }
    StringSchema(Field(f, "_id"), IdTypeMessage, IdChecks)
  }

  function CreatedAtField(f: map<string, Value>): (r: Parsed<int>)
    ensures FieldOutcome(r)
    ensures r.Valid? <==> FieldOk(f, "createdAt")
  {
    DateSchema(Field(f, "createdAt"), CreatedAtMessage)
  }

  function UpdatedAtField(f: map<string, Value>): (r: Parsed<int>)
    ensures FieldOutcome(r)
    ensures r.Valid? <==> FieldOk(f, "updatedAt")
  {
    DateSchema(Field(f, "updatedAt"), UpdatedAtMessage)
  }

  /** The issues of the three fields, in shape order. */
  function FieldIssues(f: map<string, Value>): seq<Issue> {
    At("_id", IdField(f)) + At("createdAt", CreatedAtField(f)) + At("updatedAt", UpdatedAtField(f))
  }

  lemma FieldIssuesEmpty(f: map<string, Value>)
    ensures FieldIssues(f) == [] <==> forall key | key in Shape :: FieldOk(f, key)
  {
    AtField("_id", IdField(f));
    AtField("createdAt", CreatedAtField(f));
    AtField("updatedAt", UpdatedAtField(f));
  }

  /** The field issues depend on the shape's keys only. */
  lemma FieldIssuesRestrict(f: map<string, Value>, keys: set<string>)
    requires Shape <= keys
    ensures FieldIssues(Restrict(f, keys)) == FieldIssues(f)
  {
    var g := Restrict(f, keys);
    assert Field(g, "_id") == Field(f, "_id");
    assert Field(g, "createdAt") == Field(f, "createdAt");
    assert Field(g, "updatedAt") == Field(f, "updatedAt");
  }

  predicate AllFieldsOk(f: map<string, Value>) {
    forall key | key in Shape :: FieldOk(f, key)
  }

  /** The document an object with valid fields describes. */
  function Decode(f: map<string, Value>): BaseDocument
    requires AllFieldsOk(f)
  {
    assert FieldOk(f, "_id") && FieldOk(f, "createdAt") && FieldOk(f, "updatedAt");
    BaseDocument(f["_id"].s, f["createdAt"].ms, f["updatedAt"].ms)
  }

  lemma DecodeEncode(f: map<string, Value>)
    requires AllFieldsOk(f)
    ensures IsObjectId(Decode(f).id)
    ensures Restrict(f, Shape) == Encode(Decode(f)).fields
  {
    assert FieldOk(f, "_id") && FieldOk(f, "createdAt") && FieldOk(f, "updatedAt");
  }

  lemma EncodeDecode(d: BaseDocument)
    requires IsObjectId(d.id)
    ensures AllFieldsOk(Encode(d).fields)
    ensures Decode(Encode(d).fields) == d
    ensures Encode(d).fields.Keys == Shape
  {
  }

  function Encode(d: BaseDocument): Value {
    VObject(map["_id" := VString(d.id), "createdAt" := VDate(d.createdAt), "updatedAt" := VDate(d.updatedAt)])
  }

  /**
   * `baseDocumentSchema.safeParse(v)`: the shape's entries of an accepted
   * object are exactly the encoding of the result.
   */
  function ParseBaseDocument(v: Value): (r: Parsed<BaseDocument>)
    ensures WellFormed(r)
    ensures r.Valid? ==> ObjectFields(v).Some?
    ensures r.Valid? ==> IsObjectId(r.value.id) && Restrict(ObjectFields(v).value, Shape) == Encode(r.value).fields
  {
    var f := ObjectFields(v);
    if f.None? then NotAnObject(v)
    else
      var issues := FieldIssues(f.value);
      if issues != [] then Invalid(issues)
      else
        FieldIssuesEmpty(f.value);
        DecodeEncode(f.value);
        Valid(Decode(f.value))
  }

  lemma ParseIssues(v: Value)
    requires ObjectFields(v).Some?
    ensures IssuesOf(ParseBaseDocument(v)) == FieldIssues(ObjectFields(v).value)
  {
  }

  /** A string `_id` that is not an ObjectId fails with the ObjectId message alone, reported at `_id`. */
  lemma IdFormatIssue(v: Value)
    requires ObjectFields(v).Some?
    requires var f := ObjectFields(v).value; "_id" in f && f["_id"].VString? && !IsObjectId(f["_id"].s)
    ensures IdField(ObjectFields(v).value) == Invalid([Issue([], IdFormatMessage)])
    ensures ParseBaseDocument(v).Invalid?
    ensures HasMessageAt(IssuesOf(ParseBaseDocument(v)), [Key("_id")], IdFormatMessage)
  {
    var f := ObjectFields(v).value;
    assert !Passes(IdChecks[0], f["_id"].s);
    var id := IdField(f);
    assert id == Invalid([Issue([], IdFormatMessage)]);
    ParseIssues(v);
    AtFieldMessage("_id", id, IdFormatMessage);
    HasMessageAtConcat(At("_id", id), At("createdAt", CreatedAtField(f)), [Key("_id")], IdFormatMessage);
    HasMessageAtConcat(At("_id", id) + At("createdAt", CreatedAtField(f)), At("updatedAt", UpdatedAtField(f)), [Key("_id")], IdFormatMessage);
  }

  /** A timestamp that is absent or not a valid Date, such as a date string, is reported at its own key. */
  lemma TimestampIssue(v: Value, key: string)
    requires ObjectFields(v).Some? && (key == "createdAt" || key == "updatedAt")
    requires !(key in ObjectFields(v).value && ObjectFields(v).value[key].VDate?)
    ensures ParseBaseDocument(v).Invalid?
    ensures HasMessageAt(IssuesOf(ParseBaseDocument(v)), [Key(key)], if key == "createdAt" then CreatedAtMessage else UpdatedAtMessage)
  {
    var f := ObjectFields(v).value;
    var message := if key == "createdAt" then CreatedAtMessage else UpdatedAtMessage;
    var a := At("_id", IdField(f));
    var b := At("createdAt", CreatedAtField(f));
    var c := At("updatedAt", UpdatedAtField(f));
    ParseIssues(v);
    if key == "createdAt" {
      AtFieldMessage("createdAt", CreatedAtField(f), message);
    } else {
      AtFieldMessage("updatedAt", UpdatedAtField(f), message);
    }
    HasMessageAtConcat(a, b, [Key(key)], message);
    HasMessageAtConcat(a + b, c, [Key(key)], message);
  }

  /** A document with an ObjectId is accepted as itself. */
  lemma ParseEncode(d: BaseDocument)
    requires IsObjectId(d.id)
    ensures ParseBaseDocument(Encode(d)) == Valid(d)
  {
    EncodeDecode(d);
    FieldIssuesEmpty(Encode(d).fields);
  }

  /** Keys outside the shape change nothing: the object strips them. */
  lemma ParseIgnoresUnknownKeys(f: map<string, Value>, key: string, x: Value)
    requires key !in Shape
    ensures ParseBaseDocument(VObject(f[key := x])) == ParseBaseDocument(VObject(f))
  {
    var g := f[key := x];
    assert Field(g, "_id") == Field(f, "_id");
    assert Field(g, "createdAt") == Field(f, "createdAt");
    assert Field(g, "updatedAt") == Field(f, "updatedAt");
    assert FieldIssues(g) == FieldIssues(f);
  }
}
