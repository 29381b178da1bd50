/**
 * `bookingQueryParamsSchema` (a booking id route parameter) and
 * `bookingQuerySearchSchema` (an inclusive date range of at most 31 days,
 * both ends coerced to Dates).
 */
module BookingQuerySchema {
  import opened Wrappers
  import opened Values
  import opened ObjectIdRegex
  import opened Constants
  import opened Zod

  // ---- Route parameters ----

  const BookingIdTypeMessage: string := "\"bookingId\" must be a string"
  const BookingIdFormatMessage: string := "\"bookingId\" must be a valid ObjectId"
  const IdChecks: seq<StringCheck> := [ObjectIdFormat(BookingIdFormatMessage)]

  function EncodeParams(bookingId: string): Value {
    VObject(map["bookingId" := VString(bookingId)])
  }

  /** `bookingQueryParamsSchema.safeParse(v)`: accepted exactly when `v` is `{bookingId}` with an ObjectId. */
  function ParseQueryParams(v: Value): (r: Parsed<string>)
    ensures WellFormed(r)
    ensures r.Valid? ==> IsObjectId(r.value) && v == EncodeParams(r.value)
  {
    var f := ObjectFields(v);
    if f.None? then NotAnObject(v)
    else
      var id := StringSchema(Field(f.value, "bookingId"), BookingIdTypeMessage, IdChecks);
      var issues := At("bookingId", id) + StrictKeys(f.value, {"bookingId"});
      if issues != [] then Invalid(issues)
      else
        AtField("bookingId", id);
        assert Passes(IdChecks[0], id.value);
        assert f.value == EncodeParams(id.value).fields;
        Valid(id.value)
  }

  lemma ParseEncodeParams(bookingId: string)
    requires IsObjectId(bookingId)
    ensures ParseQueryParams(EncodeParams(bookingId)) == Valid(bookingId)
  {
    var f := EncodeParams(bookingId).fields;
    assert PassesAll(IdChecks, bookingId) by {
      assert Passes(IdChecks[0], bookingId);
    }
    AtField("bookingId", StringSchema(Field(f, "bookingId"), BookingIdTypeMessage, IdChecks));
  }

  /** A string that is no ObjectId is reported at `bookingId` with the format message. */
  lemma MalformedIdMessage(bookingId: string)
    requires !IsObjectId(bookingId)
    ensures ParseQueryParams(EncodeParams(bookingId)).Invalid?
    ensures HasMessageAt(IssuesOf(ParseQueryParams(EncodeParams(bookingId))), [Key("bookingId")], BookingIdFormatMessage)
  {
    var f := EncodeParams(bookingId).fields;
    var id := StringSchema(Field(f, "bookingId"), BookingIdTypeMessage, IdChecks);
    assert !Passes(IdChecks[0], bookingId);
    assert id.issues == [Issue([], BookingIdFormatMessage)];
    AtFieldMessage("bookingId", id, BookingIdFormatMessage);
    HasMessageAtConcat(At("bookingId", id), StrictKeys(f, {"bookingId"}), [Key("bookingId")], BookingIdFormatMessage);
  }

  // ---- Date range search ----

  const EndDateMessage: string := "\"endDate\" must be a valid date"
  const StartDateMessage: string := "\"startDate\" must be a valid date"
  const OrderMessage: string := "\"startDate\" must be before or equal to \"endDate\""
  const RangeMessage: string := "Date range cannot exceed 31 days"

  /** 31 days in milliseconds. */
  const MaxRangeMs: int := 31 * DayMs

  const SearchShape: set<string> := {"endDate", "startDate"}

  datatype DateRange = DateRange(endDate: int, startDate: int)

  /** The two refinements, each adding its issue when it fails; the second runs even when the first failed. */
  function RefineIssues(endDate: int, startDate: int): (r: seq<Issue>)
    ensures r == [] <==> startDate <= endDate && endDate - startDate <= MaxRangeMs
  {
    (if startDate <= endDate then [] else [Issue([Key("startDate")], OrderMessage)])
    + (if endDate - startDate <= MaxRangeMs then [] else [Issue([Key("endDate")], RangeMessage)])
  }

  /**
   * `bookingQuerySearchSchema.safeParse(v)`. The object refinements run only
   * when neither date failed and no unknown key was found, since those
   * issues abort the object.
   */
  function SearchIssues(f: map<string, Value>, parseDate: string -> Option<int>): seq<Issue> {
    var e := CoerceDateSchema(Field(f, "endDate"), parseDate, EndDateMessage);
    var s := CoerceDateSchema(Field(f, "startDate"), parseDate, StartDateMessage);
    var fieldIssues := At("endDate", e) + At("startDate", s) + StrictKeys(f, SearchShape);
    if fieldIssues != [] then fieldIssues else RefineIssues(e.value, s.value)
  }

  function ParseQuerySearch(v: Value, parseDate: string -> Option<int>): (r: Parsed<DateRange>)
    ensures WellFormed(r)
    ensures r.Valid? <==>
      && v.VObject?
      && v.fields.Keys <= SearchShape
      && CoerceToTime(Field(v.fields, "endDate"), parseDate).Some?
      && CoerceToTime(Field(v.fields, "startDate"), parseDate).Some?
      && var range := DateRange(CoerceToTime(Field(v.fields, "endDate"), parseDate).value,
                                CoerceToTime(Field(v.fields, "startDate"), parseDate).value);
         range.startDate <= range.endDate && range.endDate - range.startDate <= MaxRangeMs
    ensures r.Valid? ==> r.value.endDate == CoerceToTime(Field(v.fields, "endDate"), parseDate).value
    ensures r.Valid? ==> r.value.startDate == CoerceToTime(Field(v.fields, "startDate"), parseDate).value
  {
    var f := ObjectFields(v);
    if f.None? then NotAnObject(v)
    else
      var e := CoerceDateSchema(Field(f.value, "endDate"), parseDate, EndDateMessage);
      var s := CoerceDateSchema(Field(f.value, "startDate"), parseDate, StartDateMessage);
      AtField("endDate", e);
      AtField("startDate", s);
      var issues := SearchIssues(f.value, parseDate);
      if issues != [] then Invalid(issues)
      else Valid(DateRange(e.value, s.value))
  }

  /** An accepted range is ordered and spans at most 31 days. */
  lemma AcceptedRangeBounded(v: Value, parseDate: string -> Option<int>)
    requires ParseQuerySearch(v, parseDate).Valid?
    ensures var range := ParseQuerySearch(v, parseDate).value;
      0 <= range.endDate - range.startDate <= MaxRangeMs
  {
  }

  /** With both dates valid and no unknown key, a reversed range reports only the order issue at `startDate`. */
  lemma ReversedRangeIssue(endDate: int, startDate: int, parseDate: string -> Option<int>)
    requires -MaxTimeMs <= startDate <= MaxTimeMs && -MaxTimeMs <= endDate <= MaxTimeMs
    requires endDate < startDate
    ensures ParseQuerySearch(VObject(map["endDate" := VDate(endDate), "startDate" := VDate(startDate)]), parseDate)
         == Invalid([Issue([Key("startDate")], OrderMessage)])
  {
    var f := map["endDate" := VDate(endDate), "startDate" := VDate(startDate)];
    AtField("endDate", CoerceDateSchema(Field(f, "endDate"), parseDate, EndDateMessage));
    AtField("startDate", CoerceDateSchema(Field(f, "startDate"), parseDate, StartDateMessage));
  }

  /** An ordered range longer than 31 days reports only the range issue at `endDate`. */
  lemma LongRangeIssue(endDate: int, startDate: int, parseDate: string -> Option<int>)
    requires -MaxTimeMs <= startDate <= MaxTimeMs && -MaxTimeMs <= endDate <= MaxTimeMs
    requires endDate - startDate > MaxRangeMs
    ensures ParseQuerySearch(VObject(map["endDate" := VDate(endDate), "startDate" := VDate(startDate)]), parseDate)
         == Invalid([Issue([Key("endDate")], RangeMessage)])
  {
    var f := map["endDate" := VDate(endDate), "startDate" := VDate(startDate)];
    AtField("endDate", CoerceDateSchema(Field(f, "endDate"), parseDate, EndDateMessage));
    AtField("startDate", CoerceDateSchema(Field(f, "startDate"), parseDate, StartDateMessage));
  }

  /** An unknown key stops the refinements: the unknown keys are the only issue when the dates are fine. */
  lemma UnknownKeyIssue(f: map<string, Value>, parseDate: string -> Option<int>)
    requires !(f.Keys <= SearchShape)
    requires CoerceToTime(Field(f, "endDate"), parseDate).Some?
    requires CoerceToTime(Field(f, "startDate"), parseDate).Some?
    ensures ParseQuerySearch(VObject(f), parseDate) == Invalid([UnrecognizedKeys([], f.Keys - SearchShape)])
  {
    AtField("endDate", CoerceDateSchema(Field(f, "endDate"), parseDate, EndDateMessage));
    AtField("startDate", CoerceDateSchema(Field(f, "startDate"), parseDate, StartDateMessage));
  }

  /** With both keys missing, each date is reported at its own path. */
  lemma MissingDatesIssues(parseDate: string -> Option<int>)
    ensures ParseQuerySearch(VObject(map[]), parseDate)
         == Invalid([Issue([Key("endDate")], EndDateMessage), Issue([Key("startDate")], StartDateMessage)])
  {
    var f: map<string, Value> := map[];
    var e := CoerceDateSchema(Field(f, "endDate"), parseDate, EndDateMessage);
    var s := CoerceDateSchema(Field(f, "startDate"), parseDate, StartDateMessage);
    AtField("endDate", e);
    AtField("startDate", s);
  }
}
