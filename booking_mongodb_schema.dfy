/**
 * `bookingMongoDbSchema`: the mutation payload extended with the base
 * document fields, strict over the union of both shapes.
 */
module BookingMongoDbSchema {
  import opened Values
  import opened Zod
  import opened ObjectIdRegex
  import opened Status
  import Mutate = BookingMutateSchema
  import Base = BaseDocumentSchema

  datatype BookingMongoDb = BookingMongoDb(booking: Mutate.BookingMutate, document: Base.BaseDocument)

  /** `extend` appends the base shape to the payload's shape. */
  const Shape: set<string> := Mutate.Shape + Base.Shape

  predicate ValidDocument(d: BookingMongoDb, slotMs: int) {
    Mutate.ValidMutate(d.booking, slotMs) && IsObjectId(d.document.id)
  }

  function Encode(d: BookingMongoDb): Value {
    VObject(Mutate.Encode(d.booking).fields + Base.Encode(d.document).fields)
  }

  /** Payload fields, then base fields, then the unrecognized keys. */
  function DocumentIssues(f: map<string, Value>, slotMs: int): seq<Issue> {
    Mutate.FieldIssues(f, slotMs) + Base.FieldIssues(f) + StrictKeys(f, Shape)
  }

  function ParseBookingMongoDb(v: Value, slotMs: int): (r: Parsed<BookingMongoDb>)
    ensures WellFormed(r)
    ensures r.Valid? ==> ValidDocument(r.value, slotMs) && v == Encode(r.value)
  {
    var f := ObjectFields(v);
    if f.None? then NotAnObject(v)
    else
      var issues := DocumentIssues(f.value, slotMs);
      if issues != [] then Invalid(issues)
      else
        var g := f.value;
        Mutate.FieldIssuesEmpty(g, slotMs);
        Base.FieldIssuesEmpty(g);
        Mutate.DecodeEncode(g, slotMs);
        Base.DecodeEncode(g);
        RestrictSplit(g, Mutate.Shape, Base.Shape);
        var d := BookingMongoDb(Mutate.Decode(g, slotMs), Base.Decode(g));
        assert "_id" in g;
        Valid(d)
  }

  /** Every valid document is accepted as itself. */
  lemma ParseEncode(d: BookingMongoDb, slotMs: int)
    requires ValidDocument(d, slotMs)
    ensures ParseBookingMongoDb(Encode(d), slotMs) == Valid(d)
  {
    EncodeNoIssues(d, slotMs);
    EncodeDecodes(d, slotMs);
  }

  /** An encoded valid document raises no issue. */
  lemma EncodeNoIssues(d: BookingMongoDb, slotMs: int)
    requires ValidDocument(d, slotMs)
    ensures DocumentIssues(Encode(d).fields, slotMs) == []
  {
    var x := Mutate.Encode(d.booking).fields;
    var y := Base.Encode(d.document).fields;
    var f := x + y;
    Mutate.EncodeDecode(d.booking, slotMs);
    Base.EncodeDecode(d.document);
    RestrictUnionLeft(x, y, Mutate.Shape);
    RestrictUnionRight(x, y, Base.Shape);
    Mutate.FieldIssuesRestrict(f, slotMs, Mutate.Shape);
    Base.FieldIssuesRestrict(f, Base.Shape);
    Mutate.FieldIssuesEmpty(x, slotMs);
    Base.FieldIssuesEmpty(y);
  }

  /** Decoding an encoded valid document gives back both its parts. */
  lemma EncodeDecodes(d: BookingMongoDb, slotMs: int)
    requires ValidDocument(d, slotMs)
    ensures Mutate.AllFieldsOk(Encode(d).fields, slotMs) && Mutate.Decode(Encode(d).fields, slotMs) == d.booking
    ensures Base.AllFieldsOk(Encode(d).fields) && Base.Decode(Encode(d).fields) == d.document
  {
    var x := Mutate.Encode(d.booking).fields;
    var y := Base.Encode(d.document).fields;
    var f := x + y;
    Mutate.EncodeDecode(d.booking, slotMs);
    Base.EncodeDecode(d.document);
    RestrictUnionLeft(x, y, Mutate.Shape);
    RestrictUnionRight(x, y, Base.Shape);
    Mutate.FieldIssuesRestrict(f, slotMs, Mutate.Shape);
    Base.FieldIssuesRestrict(f, Base.Shape);
    Mutate.FieldIssuesEmpty(x, slotMs);
    Mutate.FieldIssuesEmpty(f, slotMs);
    Base.FieldIssuesEmpty(y);
    Base.FieldIssuesEmpty(f);
    assert Mutate.Decode(f, slotMs) == Mutate.Decode(x, slotMs);
    assert Base.Decode(f) == Base.Decode(y);
  }

  /**
   * Extension: an object is a valid document exactly when its payload keys
   * form a valid payload, it is a valid base document, and it has no other keys.
   */
  lemma ExtendsBoth(v: Value, slotMs: int)
    requires ObjectFields(v).Some?
    ensures var f := ObjectFields(v).value;
      ParseBookingMongoDb(v, slotMs).Valid? <==>
        && Mutate.ParseBookingMutate(VObject(Restrict(f, Mutate.Shape)), slotMs).Valid?
        && Base.ParseBaseDocument(v).Valid?
        && f.Keys <= Shape
  {
    var f := ObjectFields(v).value;
    var g := Restrict(f, Mutate.Shape);
    var fieldIssues := Mutate.FieldIssues(f, slotMs);
    Mutate.FieldIssuesRestrict(f, slotMs, Mutate.Shape);
    Mutate.ParseIssues(VObject(g), slotMs);
    assert IssuesOf(Mutate.ParseBookingMutate(VObject(g), slotMs)) == fieldIssues + [];
    Base.ParseIssues(v);
    ParseIssues(v, slotMs);
    ConcatEmpty(fieldIssues, Base.FieldIssues(f), StrictKeys(f, Shape));
  }

  lemma ParseIssues(v: Value, slotMs: int)
    requires ObjectFields(v).Some?
    ensures IssuesOf(ParseBookingMongoDb(v, slotMs)) == DocumentIssues(ObjectFields(v).value, slotMs)
  {
  }

  lemma ConcatEmpty(a: seq<Issue>, b: seq<Issue>, c: seq<Issue>)
    ensures a + b + c == [] <==> a == [] && b == [] && c == []
  {
    assert |a + b + c| == |a| + |b| + |c|;
  }
}
