/**
 * `BookingService`: the persistence layer over the bookings collection.
 * The collection is a map from document id to stored booking; the unique
 * index on the slot start is the invariant that no two documents share a
 * slot, which an insert or an update that would break it refuses with a
 * duplicate-key error. The service itself enforces no business rule.
 */
module BookingStore {
  import opened Wrappers
  import opened Status
  import opened BookingMutateSchema
  import opened BookingModel

  /** A `findOne` filter: by document id or by slot start. */
  datatype Filter = ById(id: nat) | BySlot(dateTime: int)

  /** The errors a write rejects with: failed validators, or the unique slot index. */
  datatype ServiceError = ValidationError(errors: map<string, ValidatorError>) | DuplicateKey(dateTime: int)

  predicate Matches(id: nat, b: Booking, f: Filter) {
    match f
    case ById(i) => id == i
    case BySlot(t) => b.dateTime == t
  }

  /** The unique index on the slot start: no two documents share a slot. */
  predicate UniqueSlots(docs: map<nat, Booking>) {
    forall i, j | i in docs && j in docs && docs[i].dateTime == docs[j].dateTime :: i == j
  }

  /** No document other than `self` holds slot `t`. */
  predicate SlotFree(docs: map<nat, Booking>, t: int, self: Option<nat>) {
    forall j | j in docs && Some(j) != self :: docs[j].dateTime != t
  }

  predicate InRange(b: Booking, startDate: int, endDate: int) {
    startDate <= b.dateTime <= endDate
  }

  /**
   * The documents with ids below `n` whose slot lies in `[startDate, endDate]`,
   * in id order, which is the order they were inserted in.
   */
  function RangeOf(docs: map<nat, Booking>, startDate: int, endDate: int, n: nat): seq<(nat, Booking)> {
    if n == 0 then []
    else
      RangeOf(docs, startDate, endDate, n - 1)
      + (if n - 1 in docs && InRange(docs[n - 1], startDate, endDate) then [(n - 1, docs[n - 1])] else [])
  }

  /** An entry is in the range result exactly when it is a stored document whose slot lies in the range. */
  lemma {:induction false} RangeOfMember(docs: map<nat, Booking>, startDate: int, endDate: int, n: nat, id: nat, b: Booking)
    ensures (id, b) in RangeOf(docs, startDate, endDate, n)
        <==> id < n && id in docs && docs[id] == b && InRange(b, startDate, endDate)
  {
    if n > 0 {
      RangeOfMember(docs, startDate, endDate, n - 1, id, b);
    }
  }

  /** Ids in the range result are strictly ascending, so no document is listed twice. */
  lemma {:induction false} RangeOfAscending(docs: map<nat, Booking>, startDate: int, endDate: int, n: nat)
    ensures forall i, j :: 0 <= i < j < |RangeOf(docs, startDate, endDate, n)| ==>
      RangeOf(docs, startDate, endDate, n)[i].0 < RangeOf(docs, startDate, endDate, n)[j].0
    ensures forall k :: 0 <= k < |RangeOf(docs, startDate, endDate, n)| ==> RangeOf(docs, startDate, endDate, n)[k].0 < n
  {
    if n > 0 {
      RangeOfAscending(docs, startDate, endDate, n - 1);
      var prefix := RangeOf(docs, startDate, endDate, n - 1);
      var r := RangeOf(docs, startDate, endDate, n);
      assert forall k :: 0 <= k < |prefix| ==> r[k] == prefix[k];
      forall i, j | 0 <= i < j < |r|
        ensures r[i].0 < r[j].0
      {
        if j == |prefix| {
          assert r[j].0 == n - 1;
        }
      }
    }
  }

  class BookingService {
    /** `BOOKING_TIME_MS`, which the slot validator checks against. */
    const slotMs: int
    /** The collection: document id to stored booking. */
    var docs: map<nat, Booking>
    /** The id the next inserted document receives. */
    var nextId: nat

    ghost predicate Valid()
      reads this
    {
      (forall id | id in docs :: id < nextId) && UniqueSlots(docs)
    }

    constructor(slotMs: int)
      ensures Valid()
      ensures this.slotMs == slotMs && docs == map[] && nextId == 0
    {
      this.slotMs := slotMs;
      docs := map[];
      nextId := 0;
    }

    /**
     * `createBooking(data)`: `bookingModel.create`, which validates the cast
     * payload and then inserts it unless its slot is taken.
     */
    method CreateBooking(data: BookingMutate) returns (r: Result<(nat, Booking), ServiceError>)
      requires Valid()
      modifies this
      ensures Valid()
      ensures var v := Validate(Cast(data), slotMs);
        && (v.Err? ==> r == Err(ValidationError(v.error)) && unchanged(this))
        && (v.Ok? && !SlotFree(old(docs), data.dateTime, None) ==> r == Err(DuplicateKey(data.dateTime)) && unchanged(this))
        && (v.Ok? && SlotFree(old(docs), data.dateTime, None) ==>
              && r == Ok((old(nextId), v.value))
              && docs == old(docs)[old(nextId) := v.value]
              && nextId == old(nextId) + 1)
    {
      var v := Validate(Cast(data), slotMs);
      if v.Err? {
        return Err(ValidationError(v.error));
      }
      if !SlotFree(docs, data.dateTime, None) {
        return Err(DuplicateKey(data.dateTime));
      }
      var id := nextId;
      docs := docs[id := v.value];
      nextId := nextId + 1;
      r := Ok((id, v.value));
    }

    /** `getBookingByFilter(query)`: some document the filter matches, or none when none does. */
    method GetBookingByFilter(f: Filter) returns (r: Option<(nat, Booking)>)
      ensures r.None? <==> forall id | id in docs :: !Matches(id, docs[id], f)
      ensures r.Some? ==> r.value.0 in docs && docs[r.value.0] == r.value.1 && Matches(r.value.0, r.value.1, f)
    {
      if exists id :: id in docs && Matches(id, docs[id], f) {
        var id :| id in docs && Matches(id, docs[id], f);
        r := Some((id, docs[id]));
      } else {
        r := None;
      }
    }

    /** `getBookingsByRange(range)`: the documents whose slot lies in the inclusive range, of any status. */
    method GetBookingsByRange(startDate: int, endDate: int) returns (r: seq<(nat, Booking)>)
      requires Valid()
      ensures r == RangeOf(docs, startDate, endDate, nextId)
      ensures forall id, b :: (id, b) in r <==> id in docs && docs[id] == b && InRange(b, startDate, endDate)
    {
      r := [];
      var n := 0;
      while n < nextId
        invariant n <= nextId
        invariant r == RangeOf(docs, startDate, endDate, n)
      {
        if n in docs && InRange(docs[n], startDate, endDate) {
          r := r + [(n, docs[n])];
        }
        n := n + 1;
      }
      forall id, b
        ensures (id, b) in r <==> id in docs && docs[id] == b && InRange(b, startDate, endDate)
      {
        RangeOfMember(docs, startDate, endDate, nextId, id, b);
      }
    }

    /**
     * `updateBookingById(id, data)`: `findByIdAndUpdate` with `{ new: true }`.
     * An unknown id gives no document and changes nothing; otherwise the
     * present fields are set through the setters, with no validator run,
     * unless the new slot is another document's.
     */
    method UpdateBookingById(id: nat, p: Patch) returns (r: Result<Option<Booking>, ServiceError>)
      requires Valid()
      modifies this
      ensures Valid()
      ensures nextId == old(nextId)
      ensures id !in old(docs) ==> r == Ok(None) && docs == old(docs)
      ensures id in old(docs) && !SlotFree(old(docs), ApplyPatch(old(docs)[id], p).dateTime, Some(id)) ==>
        r == Err(DuplicateKey(ApplyPatch(old(docs)[id], p).dateTime)) && docs == old(docs)
      ensures id in old(docs) && SlotFree(old(docs), ApplyPatch(old(docs)[id], p).dateTime, Some(id)) ==>
        && r == Ok(Some(ApplyPatch(old(docs)[id], p)))
        && docs == old(docs)[id := ApplyPatch(old(docs)[id], p)]
    {
      if id !in docs {
        return Ok(None);
      }
      var updated := ApplyPatch(docs[id], p);
      if !SlotFree(docs, updated.dateTime, Some(id)) {
        return Err(DuplicateKey(updated.dateTime));
      }
      docs := docs[id := updated];
      r := Ok(Some(updated));
    }
  }

  /** An update that keeps the slot never meets the unique index. */
  lemma SameSlotIsFree(docs: map<nat, Booking>, id: nat, p: Patch)
    requires UniqueSlots(docs) && id in docs
    requires p.dateTime.None? || p.dateTime == Some(docs[id].dateTime)
    ensures SlotFree(docs, ApplyPatch(docs[id], p).dateTime, Some(id))
  {
  }

  /** Under the unique index, a slot filter matches at most one document. */
  lemma SlotFilterUnique(docs: map<nat, Booking>, t: int, i: nat, j: nat)
    requires UniqueSlots(docs)
    requires i in docs && Matches(i, docs[i], BySlot(t))
    requires j in docs && Matches(j, docs[j], BySlot(t))
    ensures i == j
  {
  }
}
