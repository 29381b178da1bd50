/**
 * `bookingRouter`: the six booking handlers, as a state machine over the
 * booking store and the payment gateway. A handler's reply is its status
 * code and body; a handler that throws (a rejected write, a failed gateway
 * call, a property read on `null`) is answered with 500 by the framework.
 * Request bodies, params and queries reach a handler only after the
 * contract's schemas accepted them, which the handlers' preconditions state.
 */
module BookingRouter {
  import opened Wrappers
  import opened JsString
  import opened EmailRegex
  import opened Values
  import opened Status
  import opened Constants
  import opened Slots
  import opened BookingMutateSchema
  import opened BookingPaymentSchema
  import opened BookingModel
  import opened BookingStore
  import opened Payments

  const NotFound: string := "Booking not found"
  const PaymentNotProcessed: string := "Booking payment not processed"
  const PaymentNotSucceeded: string := "Payment not succeeded"
  const SlotAlreadyBooked: string := "Slot already booked"
  const AlreadyPaid: string := "Booking already paid"

  datatype Body =
    | Message(text: string)                      // contractErrorSchema
    | Stored(id: nat, booking: Booking)          // one booking document
    | StatusOf(bookingStatus: BookingStatus)     // bookingStatusReturn
    | Secret(clientSecret: string)               // bookingPaymentSchema
    | SlotList(slots: seq<int>)                  // availableSlotArraySchema
    | BookingList(bookings: seq<(nat, Booking)>) // an array of booking documents
    | Thrown                                     // an exception the handler does not catch

  datatype Reply = Reply(code: int, body: Body)

  // ---- Pure parts of the handlers ----

  /** The model accepts a create payload the contract accepted exactly when these hold. */
  predicate ModelAccepts(body: BookingMutate) {
    |body.email| <= MaxEmailLength && MinNameLength <= |Trim(body.name)|
  }

  /** The document a fresh insert stores: the payload through the setters, status as given. */
  function Inserted(body: BookingMutate): Booking {
    Booking(body.dateTime, ToLower(body.email), Trim(body.name), body.status, None)
  }

  /** `{ ...body, status: BookingStatus.PENDING }`, the update that reactivates a cancelled slot. */
  function ReactivationPatch(body: BookingMutate): Patch {
    Patch(Some(body.dateTime), Some(body.email), Some(body.name), Some(Pending), None)
  }

  /**
   * Reactivation keeps the cancelled document's slot and payment intent, takes
   * the new contact details through the setters, and forces PENDING whatever
   * status the payload asked for.
   */
  lemma ReactivationRecord(b: Booking, body: BookingMutate)
    requires IsEmail(body.email) && b.dateTime == body.dateTime
    ensures ApplyPatch(b, ReactivationPatch(body))
        == Booking(b.dateTime, ToLower(body.email), Trim(body.name), Pending, b.paymentIntentId)
  {
    NormalizeEmailOfEmail(body.email);
  }

  /** The slot keys a non-cancelled booking in the list holds. */
  function BookedKeys(bookings: seq<(nat, Booking)>): (r: set<int>)
    ensures forall t :: t in r <==> exists i :: 0 <= i < |bookings| && bookings[i].1.status != Cancelled && bookings[i].1.dateTime == t
  {
    set i | 0 <= i < |bookings| && bookings[i].1.status != Cancelled :: SlotKey(bookings[i].1.dateTime)
  }

  /** `allSlots.filter(s => !bookedSet.has(slotKey(s.slot)))`, over the first `n` slots. */
  function AvailableSlots(all: seq<int>, booked: set<int>, n: nat): seq<int>
    requires n <= |all|
  {
    if n == 0 then []
    else AvailableSlots(all, booked, n - 1) + (if SlotKey(all[n - 1]) in booked then [] else [all[n - 1]])
  }

  /** A slot survives the filter exactly when it was generated and is not booked. */
  lemma {:induction false} AvailableSlotsMember(all: seq<int>, booked: set<int>, n: nat, x: int)
    requires n <= |all|
    ensures x in AvailableSlots(all, booked, n) <==> x in all[..n] && x !in booked
  {
    if n > 0 {
      AvailableSlotsMember(all, booked, n - 1, x);
      assert all[..n] == all[..n - 1] + [all[n - 1]];
    }
  }

  /** The filter keeps the generated order: ascending slots stay ascending. */
  lemma {:induction false} AvailableSlotsAscending(all: seq<int>, booked: set<int>, n: nat)
    requires n <= |all|
    requires StrictlyAscending(all)
    ensures StrictlyAscending(AvailableSlots(all, booked, n))
  {
    if n > 0 {
      AvailableSlotsAscending(all, booked, n - 1);
      var prefix := AvailableSlots(all, booked, n - 1);
      var r := AvailableSlots(all, booked, n);
      assert forall k :: 0 <= k < |prefix| ==> r[k] == prefix[k];
      forall i, j | 0 <= i < j < |r|
        ensures r[i] < r[j]
      {
        if j == |prefix| {
          AvailableSlotsMember(all, booked, n - 1, r[i]);
          assert r[i] in prefix;
          var k :| 0 <= k < n - 1 && all[k] == r[i];
        }
      }
    }
  }

  /** Some document that is not cancelled holds slot `t`. */
  predicate Blocked(docs: map<nat, Booking>, t: int) {
    exists id :: id in docs && docs[id].dateTime == t && docs[id].status != Cancelled
  }

  /**
   * Over the bookings of a range query, a slot of the range is in the booked
   * set exactly when some stored document that is not cancelled holds it.
   */
  lemma BookedKeysBlocked(docs: map<nat, Booking>, startDate: int, endDate: int, n: nat, t: int)
    requires forall id | id in docs :: id < n
    requires startDate <= t <= endDate
    ensures t in BookedKeys(RangeOf(docs, startDate, endDate, n)) <==> Blocked(docs, t)
  {
    var bookings := RangeOf(docs, startDate, endDate, n);
    if Blocked(docs, t) {
      var id :| id in docs && docs[id].dateTime == t && docs[id].status != Cancelled;
      RangeOfMember(docs, startDate, endDate, n, id, docs[id]);
      var i :| 0 <= i < |bookings| && bookings[i] == (id, docs[id]);
    }
    if t in BookedKeys(bookings) {
      var i :| 0 <= i < |bookings| && bookings[i].1.status != Cancelled && bookings[i].1.dateTime == t;
      assert bookings[i] in bookings;
      RangeOfMember(docs, startDate, endDate, n, bookings[i].0, bookings[i].1);
    }
  }

  /** The reply to a payment request: the secret, or `''` when the gateway gave none. */
  function SecretReply(clientSecret: Option<string>): string {
    clientSecret.GetOr("")
  }

  /** A gateway without a client secret makes the router answer a body its own payment schema rejects. */
  lemma NullSecretReplyRejected()
    ensures ParsePayment(EncodePayment(SecretReply(None))) == Values.Invalid([Issue([Key("clientSecret")], SecretMessage)])
  {
    EmptySecretRejected();
  }

  /** A nonempty client secret is answered as a body the payment schema accepts unchanged. */
  lemma SecretReplyAccepted(clientSecret: string)
    requires clientSecret != ""
    ensures ParsePayment(EncodePayment(SecretReply(Some(clientSecret)))) == Values.Valid(clientSecret)
  {
    ParseEncodePayment(clientSecret);
  }

  // ---- The handlers ----

  class Router {
    const config: Config
    const service: BookingService
    const gateway: PaymentGateway

    /**
     * The store keeps one document per slot, and every payment intent a
     * booking records is one the gateway created.
     */
    ghost predicate Valid()
      reads this, service, gateway
    {
      && ValidConfig(config)
      && service.slotMs == config.slotMs
      && service.Valid()
      && gateway.Valid()
      && forall id | id in service.docs && service.docs[id].paymentIntentId.Some? ::
           service.docs[id].paymentIntentId.value in gateway.intents
    }

    constructor(config: Config)
      requires ValidConfig(config)
      ensures Valid()
      ensures this.config == config && fresh(service) && fresh(gateway)
      ensures service.docs == map[] && gateway.intents == map[]
    {
      this.config := config;
      service := new BookingService(config.slotMs);
      gateway := new PaymentGateway();
    }

    /** `cancelBooking`: any existing booking becomes CANCELLED, whatever its status. */
    method CancelBooking(id: nat) returns (reply: Reply)
      requires Valid()
      modifies service
      ensures Valid()
      ensures service.nextId == old(service.nextId)
      ensures id !in old(service.docs) ==>
        reply == Reply(404, Message(NotFound)) && service.docs == old(service.docs)
      ensures id in old(service.docs) ==>
        && reply == Reply(200, StatusOf(Cancelled))
        && service.docs == old(service.docs)[id := old(service.docs)[id].(status := Cancelled)]
    {
      if id in service.docs {
        SameSlotIsFree(service.docs, id, StatusPatch(Cancelled));
        StatusPatchOnlyStatus(service.docs[id], Cancelled);
      }
      var booking := service.UpdateBookingById(id, StatusPatch(Cancelled));
      if booking.Ok? && booking.value.None? {
        return Reply(404, Message(NotFound));
      }
      if booking.Ok? {
        reply := Reply(200, StatusOf(booking.value.value.status));
      } else {
        reply := Reply(500, Thrown);
      }
    }

    /**
     * `confirmBooking`: CONFIRMED is written only for an existing booking
     * whose recorded payment intent the gateway reports as succeeded.
     */
    method ConfirmBooking(id: nat) returns (reply: Reply)
      requires Valid()
      modifies service, gateway
      ensures Valid()
      ensures gateway.intents == old(gateway.intents) && gateway.nextIntent == old(gateway.nextIntent)
      ensures service.nextId == old(service.nextId)
      ensures id !in old(service.docs) ==>
        && reply == Reply(404, Message(NotFound))
        && service.docs == old(service.docs) && gateway.requests == old(gateway.requests)
      ensures id in old(service.docs) && old(service.docs)[id].paymentIntentId.None? ==>
        && reply == Reply(400, Message(PaymentNotProcessed))
        && service.docs == old(service.docs) && gateway.requests == old(gateway.requests)
      ensures id in old(service.docs) && old(service.docs)[id].paymentIntentId.Some? ==>
        var intent := old(service.docs)[id].paymentIntentId.value;
        && gateway.requests == old(gateway.requests) + [Retrieve(intent)]
        && (!IsSucceeded(gateway.intents[intent]) ==>
              reply == Reply(400, Message(PaymentNotSucceeded)) && service.docs == old(service.docs))
        && (IsSucceeded(gateway.intents[intent]) ==>
              && reply == Reply(200, StatusOf(Confirmed))
              && service.docs == old(service.docs)[id := old(service.docs)[id].(status := Confirmed)])
    {
      var found := service.GetBookingByFilter(ById(id));
      if found.None? {
        return Reply(404, Message(NotFound));
      }
      var booking := found.value.1;
      if booking.paymentIntentId.None? {
        return Reply(400, Message(PaymentNotProcessed));
      }
      var paymentIntent := gateway.RetrievePaymentIntent(booking.paymentIntentId.value);
      if paymentIntent.None? {
        return Reply(500, Thrown);
      }
      if !IsSucceeded(paymentIntent.value) {
        return Reply(400, Message(PaymentNotSucceeded));
      }
      SameSlotIsFree(service.docs, id, StatusPatch(Confirmed));
      StatusPatchOnlyStatus(service.docs[id], Confirmed);
      var updated := service.UpdateBookingById(id, StatusPatch(Confirmed));
      if updated.Ok? && updated.value.Some? {
        reply := Reply(200, StatusOf(updated.value.value.status));
      } else {
        reply := Reply(500, Thrown);
      }
    }

    /**
     * `createBooking`: a free slot gets a new document, a cancelled one is
     * reactivated as PENDING in place, and any other is refused. A payload
     * the model's validators refuse makes the insert throw.
     */
    method CreateBooking(body: BookingMutate) returns (reply: Reply)
      requires Valid()
      requires ValidMutate(body, config.slotMs)
      modifies service
      ensures Valid()
      ensures SlotFree(old(service.docs), body.dateTime, None) && ModelAccepts(body) ==>
        && reply == Reply(201, Stored(old(service.nextId), Inserted(body)))
        && service.docs == old(service.docs)[old(service.nextId) := Inserted(body)]
        && service.nextId == old(service.nextId) + 1
      ensures SlotFree(old(service.docs), body.dateTime, None) && !ModelAccepts(body) ==>
        reply == Reply(500, Thrown) && service.docs == old(service.docs) && service.nextId == old(service.nextId)
      ensures !SlotFree(old(service.docs), body.dateTime, None) ==> service.nextId == old(service.nextId)
      ensures forall k | k in old(service.docs) && old(service.docs)[k].dateTime == body.dateTime ::
        if old(service.docs)[k].status == Cancelled then
          var reactivated := Booking(body.dateTime, ToLower(body.email), Trim(body.name), Pending, old(service.docs)[k].paymentIntentId);
          reply == Reply(201, Stored(k, reactivated)) && service.docs == old(service.docs)[k := reactivated]
        else
          reply == Reply(400, Message(SlotAlreadyBooked)) && service.docs == old(service.docs)
    {
      var bookingExists := service.GetBookingByFilter(BySlot(body.dateTime));
      if bookingExists.None? {
        reply := Insert(body);
        return;
      }
      var (id, existing) := bookingExists.value;
      if existing.status == Cancelled {
        reply := Reactivate(id, body);
        return;
      }
      reply := Reply(400, Message(SlotAlreadyBooked));
    }

    /** The fresh-insert path of `createBooking`, on a slot no document holds. */
    method Insert(body: BookingMutate) returns (reply: Reply)
      requires Valid()
      requires ValidMutate(body, config.slotMs) && SlotFree(service.docs, body.dateTime, None)
      modifies service
      ensures Valid()
      ensures ModelAccepts(body) ==>
        && reply == Reply(201, Stored(old(service.nextId), Inserted(body)))
        && service.docs == old(service.docs)[old(service.nextId) := Inserted(body)]
        && service.nextId == old(service.nextId) + 1
      ensures !ModelAccepts(body) ==>
        reply == Reply(500, Thrown) && service.docs == old(service.docs) && service.nextId == old(service.nextId)
    {
      CastAccepted(body, config.slotMs);
      ghost var validated := Validate(Cast(body), config.slotMs);
      assert validated.Ok? <==> ModelAccepts(body);
      assert validated.Ok? ==> validated.value == Inserted(body);
      var newBooking := service.CreateBooking(body);
      if newBooking.Ok? {
        reply := Reply(201, Stored(newBooking.value.0, newBooking.value.1));
      } else {
        reply := Reply(500, Thrown);
      }
    }

    /** The reactivation path of `createBooking`, on the cancelled document `id` holding the slot. */
    method Reactivate(id: nat, body: BookingMutate) returns (reply: Reply)
      requires Valid()
      requires ValidMutate(body, config.slotMs)
      requires id in service.docs && service.docs[id].dateTime == body.dateTime && service.docs[id].status == Cancelled
      modifies service
      ensures Valid()
      ensures service.nextId == old(service.nextId)
      ensures
        var reactivated := Booking(body.dateTime, ToLower(body.email), Trim(body.name), Pending, old(service.docs)[id].paymentIntentId);
        reply == Reply(201, Stored(id, reactivated)) && service.docs == old(service.docs)[id := reactivated]
    {
      SameSlotIsFree(service.docs, id, ReactivationPatch(body));
      ReactivationRecord(service.docs[id], body);
      var updatedBooking := service.UpdateBookingById(id, ReactivationPatch(body));
      if updatedBooking.Ok? && updatedBooking.value.Some? {
        reply := Reply(201, Stored(id, updatedBooking.value.value));
      } else {
        reply := Reply(500, Thrown);
      }
    }

    /**
     * `listAvailableSlots`: the business slots of the range, in order, less
     * those a non-cancelled booking holds.
     */
    method ListAvailableSlots(startDate: int, endDate: int) returns (reply: Reply)
      requires Valid()
      ensures reply.code == 200 && reply.body.SlotList?
      ensures forall x :: x in reply.body.slots <==>
        && IsBusinessSlot(x, startDate, endDate, config.slotMs, config.businessStartMs, config.businessEndMs)
        && !Blocked(service.docs, x)
      ensures StrictlyAscending(reply.body.slots)
    {
      var bookedSlots := service.GetBookingsByRange(startDate, endDate);
      var bookedSet := BookedKeys(bookedSlots);
      var allSlots := GenerateBusinessSlots(startDate, endDate, config.slotMs, config.businessStartMs, config.businessEndMs);
      var available := AvailableSlots(allSlots, bookedSet, |allSlots|);
      BusinessSlotsAscending(startDate, endDate, config.slotMs, config.businessStartMs, config.businessEndMs);
      AvailableSlotsAscending(allSlots, bookedSet, |allSlots|);
      forall x
        ensures x in available <==>
          IsBusinessSlot(x, startDate, endDate, config.slotMs, config.businessStartMs, config.businessEndMs)
          && !Blocked(service.docs, x)
      {
        AvailableSlotsMember(allSlots, bookedSet, |allSlots|, x);
        assert allSlots[..|allSlots|] == allSlots;
        BusinessSlotsMember(startDate, endDate, config.slotMs, config.businessStartMs, config.businessEndMs, x);
        if x in allSlots {
          BookedKeysBlocked(service.docs, startDate, endDate, service.nextId, x);
        }
      }
      reply := Reply(200, SlotList(available));
    }

    /** `listBookedSlots`: every booking in the inclusive range, of any status. */
    method ListBookedSlots(startDate: int, endDate: int) returns (reply: Reply)
      requires Valid()
      ensures reply.code == 200 && reply.body.BookingList?
      ensures reply.body.bookings == RangeOf(service.docs, startDate, endDate, service.nextId)
      ensures forall id, b :: (id, b) in reply.body.bookings <==>
        id in service.docs && service.docs[id] == b && startDate <= b.dateTime <= endDate
    {
      var bookedSlots := service.GetBookingsByRange(startDate, endDate);
      reply := Reply(200, BookingList(bookedSlots));
    }

    /**
     * `processPayment`: an existing booking that is not CONFIRMED gets a new
     * payment intent for the booking price, recorded on the booking; the
     * reply carries the intent's client secret, or `''` when it has none.
     */
    method ProcessPayment(id: nat, clientSecret: Option<string>) returns (reply: Reply)
      requires Valid()
      modifies service, gateway
      ensures Valid()
      ensures service.nextId == old(service.nextId)
      ensures id !in old(service.docs) ==>
        && reply == Reply(404, Message(NotFound))
        && service.docs == old(service.docs) && gateway.requests == old(gateway.requests)
        && gateway.intents == old(gateway.intents) && gateway.nextIntent == old(gateway.nextIntent)
      ensures id in old(service.docs) && old(service.docs)[id].status == Confirmed ==>
        && reply == Reply(400, Message(AlreadyPaid))
        && service.docs == old(service.docs) && gateway.requests == old(gateway.requests)
        && gateway.intents == old(gateway.intents) && gateway.nextIntent == old(gateway.nextIntent)
      ensures id in old(service.docs) && old(service.docs)[id].status != Confirmed ==>
        && reply == Reply(200, Secret(SecretReply(clientSecret)))
        && old(gateway.nextIntent) !in old(gateway.intents)
        && gateway.intents == old(gateway.intents)[old(gateway.nextIntent) := RequiresPaymentMethod]
        && gateway.nextIntent == old(gateway.nextIntent) + 1
        && gateway.requests == old(gateway.requests) + [Create(config.priceInCents, config.currency, config.paymentTypes)]
        && service.docs == old(service.docs)[id := old(service.docs)[id].(paymentIntentId := Some(old(gateway.nextIntent)))]
    {
      var booking := service.GetBookingByFilter(ById(id));
      if booking.None? {
        return Reply(404, Message(NotFound));
      }
      if booking.value.1.status == Confirmed {
        return Reply(400, Message(AlreadyPaid));
      }
      var paymentIntent := gateway.CreatePaymentIntent(config.priceInCents, config.currency, config.paymentTypes, clientSecret);
      SameSlotIsFree(service.docs, id, IntentPatch(paymentIntent.id));
      IntentPatchOnlyIntent(service.docs[id], paymentIntent.id);
      var _ := service.UpdateBookingById(id, IntentPatch(paymentIntent.id));
      reply := Reply(200, Secret(SecretReply(paymentIntent.clientSecret)));
    }

    /**
     * A client that pays and confirms straight away is refused: the intent
     * `processPayment` records still awaits its payment method, so
     * `confirmBooking` finds it not succeeded and leaves the booking as it was.
     */
    method PayThenConfirm(id: nat, clientSecret: Option<string>) returns (paid: Reply, confirmed: Reply)
      requires Valid()
      requires id in service.docs && service.docs[id].status != Confirmed
      modifies service, gateway
      ensures Valid()
      ensures paid == Reply(200, Secret(SecretReply(clientSecret)))
      ensures confirmed == Reply(400, Message(PaymentNotSucceeded))
      ensures service.docs == old(service.docs)[id := old(service.docs)[id].(paymentIntentId := Some(old(gateway.nextIntent)))]
      ensures gateway.intents == old(gateway.intents)[old(gateway.nextIntent) := RequiresPaymentMethod]
    {
      paid := ProcessPayment(id, clientSecret);
      confirmed := ConfirmBooking(id);
    }
  }
}
