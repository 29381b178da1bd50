/**
 * `availableSlotSchema` (the strict `{slot}` object holding a slot's start)
 * and `availableSlotArraySchema` (an array of them).
 */
module AvailableSlotSchema {
  import opened Wrappers
  import opened Values
  import opened Zod

  const SlotMessage: string := "\"slot\" must be a valid date"

  function EncodeSlot(t: int): Value {
    VObject(map["slot" := VDate(t)])
  }

  /** `availableSlotSchema.safeParse(v)`: accepted exactly when `v` is `{slot: <a valid Date>}`. */
  function ParseAvailableSlot(v: Value): (r: Parsed<int>)
    ensures WellFormed(r)
    ensures r.Valid? ==> v == EncodeSlot(r.value)
  {
    var f := ObjectFields(v);
    if f.None? then NotAnObject(v)
    else
      var d := DateSchema(Field(f.value, "slot"), SlotMessage);
      var issues := At("slot", d) + StrictKeys(f.value, {"slot"});
      AtField("slot", d);
      if issues != [] then Invalid(issues)
      else
        assert f.value == EncodeSlot(d.value).fields;
        Valid(d.value)
  }

  /** An encoded slot, stated on the value. */
  predicate IsSlotValue(v: Value) {
    v.VObject? && v.fields.Keys == {"slot"} && v.fields["slot"].VDate?
  }

  lemma ParseAvailableSlotValid(v: Value)
    ensures ParseAvailableSlot(v).Valid? <==> IsSlotValue(v)
  {
    if IsSlotValue(v) {
      assert v == EncodeSlot(v.fields["slot"].ms);
      ParseEncodeSlot(v.fields["slot"].ms);
    }
  }

  /** Every slot start is accepted as itself. */
  lemma ParseEncodeSlot(t: int)
    ensures ParseAvailableSlot(EncodeSlot(t)) == Valid(t)
  {
    AtField("slot", DateSchema(Field(EncodeSlot(t).fields, "slot"), SlotMessage));
  }

  function EncodeSlots(ts: seq<int>): (r: Value)
    ensures r.VArray? && |r.items| == |ts|
    ensures forall i :: 0 <= i < |ts| ==> r.items[i] == EncodeSlot(ts[i])
  {
    VArray(seq(|ts|, i requires 0 <= i < |ts| => EncodeSlot(ts[i])))
  }

  /** The issues one element of the array schema reports, under its own path. */
  function SlotIssues(v: Value): (r: seq<Issue>)
    ensures r == [] <==> IsSlotValue(v)
  {
    ParseAvailableSlotValid(v);
    IssuesOf(ParseAvailableSlot(v))
  }

  /** The issues of the elements from index `from` on, each under its index. */
  function ElementIssues(items: seq<Value>, from: nat): seq<Issue>
    requires from <= |items|
    decreases |items| - from
  {
    if from == |items| then []
    else Prefix(Index(from), SlotIssues(items[from])) + ElementIssues(items, from + 1)
  }

  /** Every element from index `from` on is an encoded slot. */
  predicate AllSlots(items: seq<Value>, from: nat)
    requires from <= |items|
    decreases |items| - from
  {
    from == |items| || (IsSlotValue(items[from]) && AllSlots(items, from + 1))
  }

  lemma {:induction false} AllSlotsMeaning(items: seq<Value>, from: nat)
    requires from <= |items|
    ensures AllSlots(items, from) <==> forall i :: from <= i < |items| ==> IsSlotValue(items[i])
    decreases |items| - from
  {
    if from < |items| {
      AllSlotsMeaning(items, from + 1);
    }
  }

  /** No element issue is left exactly when every element from `from` on is a valid slot. */
  lemma ElementIssuesEmpty(items: seq<Value>, from: nat)
    requires from <= |items|
    ensures ElementIssues(items, from) == [] <==> AllSlots(items, from)
  {
    if AllSlots(items, from) {
      AllSlotsNoIssues(items, from);
    } else {
      NotAllSlotsIssues(items, from);
    }
  }

  lemma {:induction false} AllSlotsNoIssues(items: seq<Value>, from: nat)
    requires from <= |items| && AllSlots(items, from)
    ensures ElementIssues(items, from) == []
    decreases |items| - from
  {
    if from < |items| {
      AllSlotsNoIssues(items, from + 1);
      PrefixedEmpty(Index(from), SlotIssues(items[from]), ElementIssues(items, from + 1));
    }
  }

  lemma {:induction false} NotAllSlotsIssues(items: seq<Value>, from: nat)
    requires from <= |items| && !AllSlots(items, from)
    ensures ElementIssues(items, from) != []
    decreases |items| - from
  {
    if !IsSlotValue(items[from]) {
      PrefixedEmpty(Index(from), SlotIssues(items[from]), ElementIssues(items, from + 1));
    } else {
      NotAllSlotsIssues(items, from + 1);
      PrefixedEmpty(Index(from), SlotIssues(items[from]), ElementIssues(items, from + 1));
    }
  }

  /** Issues moved under a path item, then more issues: none at all exactly when neither part has any. */
  lemma PrefixedEmpty(item: PathItem, here: seq<Issue>, rest: seq<Issue>)
    ensures Prefix(item, here) + rest == [] <==> here == [] && rest == []
  {
    assert |Prefix(item, here) + rest| == |here| + |rest|;
  }

  /** An element object without `slot` is reported with the slot message at `slot`. */
  lemma MissingSlotIssue(v: Value)
    requires ObjectFields(v).Some? && "slot" !in ObjectFields(v).value
    ensures HasMessageAt(SlotIssues(v), [Key("slot")], SlotMessage)
  {
    var f := ObjectFields(v).value;
    var d := DateSchema(Field(f, "slot"), SlotMessage);
    AtFieldMessage("slot", d, SlotMessage);
    HasMessageAtConcat(At("slot", d), StrictKeys(f, {"slot"}), [Key("slot")], SlotMessage);
  }

  /** A message at `path` in element `i` is reported at `[i] + path` among the element issues from `from` on. */
  lemma {:induction false} ElementIssuesAt(items: seq<Value>, from: nat, i: nat, path: seq<PathItem>, message: string)
    requires from <= i < |items|
    requires HasMessageAt(SlotIssues(items[i]), path, message)
    ensures HasMessageAt(ElementIssues(items, from), [Index(i)] + path, message)
    decreases i - from
  {
    var here := Prefix(Index(from), SlotIssues(items[from]));
    var rest := ElementIssues(items, from + 1);
    if from == i {
      PrefixHasMessage(Index(i), SlotIssues(items[i]), path, message);
    } else {
      ElementIssuesAt(items, from + 1, i, path, message);
    }
    HasMessageAtConcat(here, rest, [Index(i)] + path, message);
  }

  /** In the array schema, an element without `slot` is reported at `[i, 'slot']` with the slot message. */
  lemma MissingSlotInArray(items: seq<Value>, i: nat)
    requires i < |items| && ObjectFields(items[i]).Some? && "slot" !in ObjectFields(items[i]).value
    ensures ParseAvailableSlots(VArray(items)).Invalid?
    ensures HasMessageAt(IssuesOf(ParseAvailableSlots(VArray(items))), [Index(i), Key("slot")], SlotMessage)
  {
    MissingSlotIssue(items[i]);
    ElementIssuesAt(items, 0, i, [Key("slot")], SlotMessage);
    assert [Index(i)] + [Key("slot")] == [Index(i), Key("slot")];
    ArrayIssues(items);
  }

  /** The array schema's issues on an array are its element issues. */
  lemma ArrayIssues(items: seq<Value>)
    ensures IssuesOf(ParseAvailableSlots(VArray(items))) == ElementIssues(items, 0)
    ensures ElementIssues(items, 0) != [] ==> ParseAvailableSlots(VArray(items)).Invalid?
  {
  }

  /** The parsed slots of elements that are all valid. */
  function ElementValues(items: seq<Value>): (r: seq<int>)
    requires forall i :: 0 <= i < |items| ==> IsSlotValue(items[i])
    ensures |r| == |items|
    ensures forall i :: 0 <= i < |items| ==> items[i] == EncodeSlot(r[i])
  {
    var r := seq(|items|, i requires 0 <= i < |items| && IsSlotValue(items[i]) => items[i].fields["slot"].ms);
    assert forall i :: 0 <= i < |items| ==> items[i].fields == EncodeSlot(r[i]).fields;
    r
  }

  /**
   * `availableSlotArraySchema.safeParse(v)`: accepted exactly when `v` is an
   * array of encoded slots, giving their starts in the same order.
   */
  function ParseAvailableSlots(v: Value): (r: Parsed<seq<int>>)
    ensures WellFormed(r)
    ensures r.Valid? <==> v.VArray? && forall i :: 0 <= i < |v.items| ==> IsSlotValue(v.items[i])
    ensures r.Valid? ==> v == EncodeSlots(r.value)
  {
    if !v.VArray? then Invalid([Issue([], ExpectedMessage("array", v))])
    else
      var issues := ElementIssues(v.items, 0);
      ElementIssuesEmpty(v.items, 0);
      AllSlotsMeaning(v.items, 0);
      if issues != [] then Invalid(issues)
      else
        var ts := ElementValues(v.items);
        assert v.items == EncodeSlots(ts).items;
        Valid(ts)
  }

  /** Any list of slot starts goes through the array schema unchanged. */
  lemma ParseEncodeSlots(ts: seq<int>)
    ensures ParseAvailableSlots(EncodeSlots(ts)) == Valid(ts)
  {
    var v := EncodeSlots(ts);
    forall i | 0 <= i < |v.items|
      ensures IsSlotValue(v.items[i])
    {
      assert v.items[i] == EncodeSlot(ts[i]);
    }
    var r := ParseAvailableSlots(v);
    var us := r.value;
    assert EncodeSlots(us) == v;
    assert |us| == |v.items| == |ts|;
    forall i | 0 <= i < |ts|
      ensures us[i] == ts[i]
    {
      assert EncodeSlot(us[i]) == v.items[i] == EncodeSlot(ts[i]);
      assert EncodeSlot(us[i]).fields["slot"] == EncodeSlot(ts[i]).fields["slot"];
    }
    assert us == ts;
  }
}
