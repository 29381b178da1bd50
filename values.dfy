/**
 * Untyped input values as a schema validator sees them, and the issues a
 * validator reports. A JavaScript `Date` is its millisecond timestamp; an
 * Invalid Date (NaN time) is a separate value. An absent key (`undefined`)
 * is a key missing from an object's field map.
 */
module Values {
  import opened Wrappers

  datatype Value =
    | VString(s: string)
    | VNumber(n: int)
    | VBool(b: bool)
    | VDate(ms: int)
    | VInvalidDate
    | VNull
    | VObject(fields: map<string, Value>)
    | VArray(items: seq<Value>)

  /** One step of an issue path: an object key or an array index. */
  datatype PathItem = Key(name: string) | Index(i: nat)

  /** A validation issue: a message at a path, or the keys a strict object did not recognise. */
  datatype Issue =
    | Issue(path: seq<PathItem>, message: string)
    | UnrecognizedKeys(path: seq<PathItem>, keys: set<string>)

  /** The outcome of a schema: the parsed value, or every issue found. */
  datatype Parsed<+T> = Valid(value: T) | Invalid(issues: seq<Issue>)

  /** A rejection always carries at least one issue. */
  predicate WellFormed<T>(p: Parsed<T>) {
    p.Invalid? ==> |p.issues| > 0
  }

  function IssuesOf<T>(p: Parsed<T>): seq<Issue> {
    if p.Valid? then [] else p.issues
  }

  /** Moves issues one level down, under `item`. */
  function Prefix(item: PathItem, issues: seq<Issue>): (r: seq<Issue>)
    ensures |r| == |issues|
    ensures forall i :: 0 <= i < |r| ==> r[i].path == [item] + issues[i].path
  {
    if issues == [] then []
    else
      var head := match issues[0]
        case Issue(p, m) => Issue([item] + p, m)
        case UnrecognizedKeys(p, ks) => UnrecognizedKeys([item] + p, ks);
      [head] + Prefix(item, issues[1..])
  }

  /** The issues of a field's schema, reported under the field's key. */
  function At<T>(key: string, p: Parsed<T>): seq<Issue> {
    Prefix(Key(key), IssuesOf(p))
  }

  /** Some issue is reported exactly at `path`. */
  predicate HasIssueAt(issues: seq<Issue>, path: seq<PathItem>) {
    exists i :: 0 <= i < |issues| && issues[i].path == path
  }

  /** Some issue at `path` carries exactly `message`. */
  predicate HasMessageAt(issues: seq<Issue>, path: seq<PathItem>, message: string) {
    exists i :: 0 <= i < |issues| && issues[i] == Issue(path, message)
  }

  /** The value of `key`, or `None` when the key is absent (`undefined`). */
  function Field(fields: map<string, Value>, key: string): Option<Value> {
    if key in fields then Some(fields[key]) else None
  }

  /** The entries of `fields` whose keys are in `keys`: what a non-strict object keeps. */
  function Restrict(fields: map<string, Value>, keys: set<string>): (r: map<string, Value>)
    ensures r.Keys == fields.Keys * keys
    ensures forall k :: k in r ==> r[k] == fields[k]
  {
    map k | k in fields.Keys * keys :: fields[k]
  }

  /** An object whose keys lie in `a + b` is the union of its two restrictions. */
  lemma RestrictSplit(fields: map<string, Value>, a: set<string>, b: set<string>)
    requires fields.Keys <= a + b
    ensures fields == Restrict(fields, a) + Restrict(fields, b)
  {
  }

  /** Restricting a union to the keys of its left part gives that part back, when the right part has none of them. */
  lemma RestrictUnionLeft(x: map<string, Value>, y: map<string, Value>, keys: set<string>)
    requires x.Keys == keys && y.Keys * keys == {}
    ensures Restrict(x + y, keys) == x
  {
    forall k | k in x
      ensures k !in y
    {
      assert k in keys && k !in y.Keys * keys;
    }
  }

  lemma RestrictUnionRight(x: map<string, Value>, y: map<string, Value>, keys: set<string>)
    requires y.Keys == keys && x.Keys * keys == {}
    ensures Restrict(x + y, keys) == y
  {
  }
}
