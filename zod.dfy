/**
 * The schema primitives the booking validations are built from, with the
 * parsing rules of the zod library: a type mismatch stops a field's schema,
 * every string check runs whether or not an earlier one failed, a
 * refinement runs only on a value that parsed, and a strict object lists the
 * keys outside its shape in one issue after the issues of its fields.
 */
module Zod {
  import opened Wrappers
  import opened Values
  import opened JsString
  import opened EmailRegex
  import opened ObjectIdRegex
  import opened SlotAlignment
  import opened Status

  /** Largest magnitude of a valid Date's time value (ECMAScript time range). */
  const MaxTimeMs: int := 8_640_000_000_000_000

  /** Every issue is a message at the schema's own level. */
  predicate TopLevel(issues: seq<Issue>) {
    forall i :: 0 <= i < |issues| ==> issues[i].Issue? && issues[i].path == []
  }

  /** A field schema's outcome: a rejection carries issues, all at the field itself. */
  predicate FieldOutcome<T>(r: Parsed<T>) {
    WellFormed(r) && TopLevel(IssuesOf(r))
  }

  /** The name zod reports for the type of an unexpected input. */
  function TypeName(v: Value): string {
    match v
    case VString(_) => "string"
    case VNumber(_) => "number"
    case VBool(_) => "boolean"
    case VDate(_) => "date"
    case VInvalidDate => "date"
    case VNull => "null"
    case VObject(_) => "object"
    case VArray(_) => "array"
  }

  /** The default message of a type mismatch. */
  function ExpectedMessage(expected: string, v: Value): string {
    "Invalid input: expected " + expected + ", received " + TypeName(v)
  }

  /**
   * The own keys an object schema reads from its input: a plain object's
   * keys; a Date passes the object test and has none; `None` for anything
   * else (null, arrays, primitives).
   */
  function ObjectFields(v: Value): (r: Option<map<string, Value>>)
    ensures r.Some? <==> v.VObject? || v.VDate? || v.VInvalidDate?
    ensures v.VObject? ==> r == Some(v.fields)
  {
    match v
    case VObject(f) => Some(f)
    case VDate(_) => Some(map[])
    case VInvalidDate => Some(map[])
    case _ => None
  }

  /** The issue of an object schema given something that is not an object. */
  function NotAnObject<T>(v: Value): (r: Parsed<T>)
    ensures r.Invalid? && r.issues == [Issue([], ExpectedMessage("object", v))]
  {
    Invalid([Issue([], ExpectedMessage("object", v))])
  }

  /** `z.date(message)`: a valid Date; absent, an Invalid Date or any other value fails with `message`. */
  function DateSchema(v: Option<Value>, message: string): (r: Parsed<int>)
    ensures FieldOutcome(r)
    ensures r.Valid? <==> v.Some? && v.value.VDate?
    ensures r.Valid? ==> r.value == v.value.ms
    ensures r.Invalid? ==> r.issues == [Issue([], message)]
  {
    if v.Some? && v.value.VDate? then Valid(v.value.ms) else Invalid([Issue([], message)])
  }

  /**
   * `z.date(typeMessage).refine(isAlignedToSlot, alignMessage)`: the
   * alignment is checked only once the value is a valid Date.
   */
  function AlignedDateSchema(v: Option<Value>, typeMessage: string, alignMessage: string, slotMs: int): (r: Parsed<int>)
    ensures FieldOutcome(r)
    ensures r.Valid? <==> v.Some? && IsAlignedToSlot(v.value, slotMs)
    ensures r.Valid? ==> r.value == v.value.ms
    ensures r.Invalid? && v.Some? && v.value.VDate? ==> r.issues == [Issue([], alignMessage)]
    ensures r.Invalid? && !(v.Some? && v.value.VDate?) ==> r.issues == [Issue([], typeMessage)]
  {
    var d := DateSchema(v, typeMessage);
    if d.Invalid? then d
    else if IsAlignedInstant(d.value, slotMs) then d
    else Invalid([Issue([], alignMessage)])
  }

  /**
   * `z.coerce.date(message)` converts its input with `new Date(input)` before
   * the Date check; `Date.parse` is a parameter. The time value is clipped to
   * the valid range (TimeClip), outside of which the Date is invalid.
   */
  function CoerceToTime(v: Option<Value>, parseDate: string -> Option<int>): (r: Option<int>)
    ensures r.Some? ==> -MaxTimeMs <= r.value <= MaxTimeMs
  {
    var raw :=
      if v.None? then None  // new Date(undefined) is an Invalid Date
      else match v.value
        case VDate(ms) => Some(ms)
        case VNull => Some(0)
        case VBool(b) => Some(if b then 1 else 0)
        case VNumber(n) => Some(n)
        case VString(s) => parseDate(s)
        case _ => None;
    if raw.Some? && -MaxTimeMs <= raw.value <= MaxTimeMs then raw else None
  }

  function CoerceDateSchema(v: Option<Value>, parseDate: string -> Option<int>, message: string): (r: Parsed<int>)
    ensures FieldOutcome(r)
    ensures r.Valid? <==> CoerceToTime(v, parseDate).Some?
    ensures r.Valid? ==> r.value == CoerceToTime(v, parseDate).value && -MaxTimeMs <= r.value <= MaxTimeMs
    ensures r.Invalid? ==> r.issues == [Issue([], message)]
  {
    var t := CoerceToTime(v, parseDate);
    if t.Some? then Valid(t.value) else Invalid([Issue([], message)])
  }

  /** The checks a string schema may carry, each with its own message. */
  datatype StringCheck =
    | MaxLength(max: nat, message: string)
    | MinLength(min: nat, message: string)
    | EmailFormat(message: string)
    | ObjectIdFormat(message: string)

  predicate Passes(c: StringCheck, s: string) {
    match c
    case MaxLength(n, _) => |s| <= n
    case MinLength(n, _) => |s| >= n
    case EmailFormat(_) => IsEmail(s)
    case ObjectIdFormat(_) => IsObjectId(s)
  }

  predicate PassesAll(checks: seq<StringCheck>, s: string) {
    forall i :: 0 <= i < |checks| ==> Passes(checks[i], s)
  }

  /** The issues of the checks `s` fails, in declaration order; a failing check does not stop the next one. */
  function CheckIssues(checks: seq<StringCheck>, s: string): (r: seq<Issue>)
    ensures TopLevel(r)
    ensures r == [] <==> PassesAll(checks, s)
    ensures forall i :: 0 <= i < |checks| && !Passes(checks[i], s) ==> Issue([], checks[i].message) in r
    ensures forall x :: x in r ==> exists i :: 0 <= i < |checks| && !Passes(checks[i], s) && x == Issue([], checks[i].message)
  {
    if checks == [] then []
    else
      var rest := CheckIssues(checks[1..], s);
      assert forall i :: 1 <= i < |checks| ==> checks[i] == checks[1..][i - 1];
      assert PassesAll(checks[1..], s) ==> forall i :: 1 <= i < |checks| ==> Passes(checks[i], s);
      LaterIssuesFail(checks, s, rest);
      if Passes(checks[0], s) then rest
      else [Issue([], checks[0].message)] + rest
  }

  /** An issue of the later checks names a later check that fails. */
  lemma LaterIssuesFail(checks: seq<StringCheck>, s: string, rest: seq<Issue>)
    requires |checks| > 0
    requires forall x :: x in rest ==> exists j :: 0 <= j < |checks[1..]| && !Passes(checks[1..][j], s) && x == Issue([], checks[1..][j].message)
    ensures forall x :: x in rest ==> exists i :: 0 <= i < |checks| && !Passes(checks[i], s) && x == Issue([], checks[i].message)
  {
    forall x | x in rest
      ensures exists i :: 0 <= i < |checks| && !Passes(checks[i], s) && x == Issue([], checks[i].message)
    {
      var j :| 0 <= j < |checks[1..]| && !Passes(checks[1..][j], s) && x == Issue([], checks[1..][j].message);
      assert checks[j + 1] == checks[1..][j];
    }
  }

  /** `z.string(typeMessage)` followed by `checks`. */
  function StringSchema(v: Option<Value>, typeMessage: string, checks: seq<StringCheck>): (r: Parsed<string>)
    ensures FieldOutcome(r)
    ensures r.Valid? <==> v.Some? && v.value.VString? && PassesAll(checks, v.value.s)
    ensures r.Valid? ==> r.value == v.value.s
    ensures r.Invalid? && !(v.Some? && v.value.VString?) ==> r.issues == [Issue([], typeMessage)]
    ensures r.Invalid? && v.Some? && v.value.VString? ==> r.issues == CheckIssues(checks, v.value.s)
  {
    if !(v.Some? && v.value.VString?) then Invalid([Issue([], typeMessage)])
    else
      var issues := CheckIssues(checks, v.value.s);
      if issues == [] then Valid(v.value.s) else Invalid(issues)
  }

  /** The booking status enum: one of the four names, else the listing message. */
  function StatusSchema(v: Option<Value>): (r: Parsed<BookingStatus>)
    ensures FieldOutcome(r)
    ensures r.Valid? <==> v.Some? && v.value.VString? && FromName(v.value.s).Known?
    ensures r.Valid? ==> v.value == VString(Name(r.value))
    ensures r.Invalid? ==> r.issues == [Issue([], StatusMessage)]
  {
    if v.Some? && v.value.VString? && FromName(v.value.s).Known? then Valid(FromName(v.value.s).status)
    else Invalid([Issue([], StatusMessage)])
  }

  /** `.optional()` on the status: an absent key is accepted as no status. */
  function OptionalStatusSchema(v: Option<Value>): (r: Parsed<Option<BookingStatus>>)
    ensures FieldOutcome(r)
    ensures v.None? ==> r == Valid(None)
    ensures v.Some? ==> (r.Valid? <==> StatusSchema(v).Valid?)
    ensures v.Some? && r.Valid? ==> r.value == Some(StatusSchema(v).value)
  {
    if v.None? then Valid(None)
    else
      var s := StatusSchema(v);
      if s.Valid? then Valid(Some(s.value)) else Invalid(s.issues)
  }

  /** The issue a strict object adds for input keys outside its shape, if any. */
  function StrictKeys(fields: map<string, Value>, shape: set<string>): (r: seq<Issue>)
    ensures r == [] <==> fields.Keys <= shape
    ensures r != [] ==> r == [UnrecognizedKeys([], fields.Keys - shape)]
  {
    if fields.Keys <= shape then [] else [UnrecognizedKeys([], fields.Keys - shape)]
  }

  /** A field schema's issues under its key: none exactly when it parsed, each at `[key]`. */
  lemma AtField<T>(key: string, p: Parsed<T>)
    requires FieldOutcome(p)
    ensures At(key, p) == [] <==> p.Valid?
    ensures forall i :: 0 <= i < |At(key, p)| ==> At(key, p)[i] == Issue([Key(key)], IssuesOf(p)[i].message)
  {
    var issues := IssuesOf(p);
    var r := At(key, p);
    forall i | 0 <= i < |r|
      ensures r[i] == Issue([Key(key)], issues[i].message)
    {
      PrefixKeepsMessage(Key(key), issues, i);
    }
  }

  lemma {:induction false} PrefixKeepsMessage(item: PathItem, issues: seq<Issue>, i: int)
    requires TopLevel(issues) && 0 <= i < |issues|
    ensures Prefix(item, issues)[i] == Issue([item], issues[i].message)
  {
    if i > 0 {
      assert TopLevel(issues[1..]) by {
        forall j | 0 <= j < |issues[1..]|
          ensures issues[1..][j].Issue? && issues[1..][j].path == []
        {
          assert issues[1..][j] == issues[j + 1];
        }
      }
      PrefixKeepsMessage(item, issues[1..], i - 1);
    }
  }

  /** An issue keeps its message when it is moved under a path item. */
  lemma {:induction false} PrefixHasMessage(item: PathItem, issues: seq<Issue>, path: seq<PathItem>, message: string)
    requires HasMessageAt(issues, path, message)
    ensures HasMessageAt(Prefix(item, issues), [item] + path, message)
  {
    var i :| 0 <= i < |issues| && issues[i] == Issue(path, message);
    if i == 0 {
      assert Prefix(item, issues)[0] == Issue([item] + path, message);
    } else {
      assert issues[1..][i - 1] == issues[i];
      PrefixHasMessage(item, issues[1..], path, message);
      var rest := Prefix(item, issues[1..]);
      var j :| 0 <= j < |rest| && rest[j] == Issue([item] + path, message);
      assert Prefix(item, issues)[j + 1] == rest[j];
    }
  }

  /** An issue at `path` in a concatenation comes from one of the parts. */
  lemma HasIssueAtConcat(a: seq<Issue>, b: seq<Issue>, path: seq<PathItem>)
    ensures HasIssueAt(a + b, path) <==> HasIssueAt(a, path) || HasIssueAt(b, path)
  {
    if HasIssueAt(a, path) {
      var i :| 0 <= i < |a| && a[i].path == path;
      assert (a + b)[i] == a[i];
    }
    if HasIssueAt(a + b, path) {
      var i :| 0 <= i < |a + b| && (a + b)[i].path == path;
      if i >= |a| {
        assert b[i - |a|] == (a + b)[i];
      }
    }
    if HasIssueAt(b, path) {
      var i :| 0 <= i < |b| && b[i].path == path;
      assert (a + b)[i + |a|] == b[i];
    }
  }

  lemma HasMessageAtConcat(a: seq<Issue>, b: seq<Issue>, path: seq<PathItem>, message: string)
    ensures HasMessageAt(a + b, path, message) <==> HasMessageAt(a, path, message) || HasMessageAt(b, path, message)
  {
    if HasMessageAt(a, path, message) {
      var i :| 0 <= i < |a| && a[i] == Issue(path, message);
      assert (a + b)[i] == a[i];
    }
    if HasMessageAt(a + b, path, message) {
      var i :| 0 <= i < |a + b| && (a + b)[i] == Issue(path, message);
      if i >= |a| {
        assert b[i - |a|] == (a + b)[i];
      }
    }
    if HasMessageAt(b, path, message) {
      var i :| 0 <= i < |b| && b[i] == Issue(path, message);
      assert (a + b)[i + |a|] == b[i];
    }
  }

  /** A field's issues under its key sit at `[key]` only, and are there exactly when the field failed. */
  lemma AtFieldPaths<T>(key: string, p: Parsed<T>, path: seq<PathItem>)
    requires FieldOutcome(p)
    ensures HasIssueAt(At(key, p), path) <==> p.Invalid? && path == [Key(key)]
  {
    AtField(key, p);
    if p.Invalid? && path == [Key(key)] {
      assert At(key, p)[0].path == path;
    }
  }

  /** A field's message under its key. */
  lemma AtFieldMessage<T>(key: string, p: Parsed<T>, message: string)
    requires FieldOutcome(p)
    requires p.Invalid? && Issue([], message) in p.issues
    ensures HasMessageAt(At(key, p), [Key(key)], message)
  {
    AtField(key, p);
    var i :| 0 <= i < |p.issues| && p.issues[i] == Issue([], message);
    assert At(key, p)[i] == Issue([Key(key)], message);
  }

  /** The unrecognized-keys issue never sits at a field's path. */
  lemma StrictKeysPaths(fields: map<string, Value>, shape: set<string>, key: string)
    ensures !HasIssueAt(StrictKeys(fields, shape), [Key(key)])
  {
  }
}
