# Booking core of beyondBMI, modelled in Dafny

beyondBMI is an API that sells fixed-length appointment slots. A client can:

- list the free slots in a date range;
- book a slot with an email address and a name;
- start a payment for a booking;
- confirm a booking once the payment has succeeded;
- cancel a booking.

This project models the part of the API that decides all of this:

- **Slots.** `generateBusinessSlots` produces the aligned slots inside each day's business hours, and `isAlignedToSlot` checks that a date lies on a slot boundary.
- **Request and response schemas.** The zod schemas the contract validates with:
  - the booking payload;
  - the stored document;
  - the route params and the date-range query;
  - the available-slot list;
  - the status reply, the payment reply and the error reply;
  - the boolean-from-string helper.
- **Regexes.** The email and ObjectId regexes, as predicates on strings.
- **The Mongoose model.** Its setters (lowercase and trim), its validators, its status default, its strict mode, and the unique index on the slot start.
- **`BookingService`.** A class whose collection is a map from document id to stored booking, with the unique index kept as a class invariant.
- **`StripeService`.** A payment gateway class with a map from intent id to status, and a log of the calls it received.
- **The six router handlers.** Methods of a `Router` class that owns one service and one gateway. Each handler states its reply code and body together with the new store (its documents and its id counter). Handlers that call the gateway also state the gateway's new intents, its id counter and its call log.

Each schema is a function from a JSON-like `Value` to either the parsed value or the list of issues zod would report. Most schemas have an encoder and a round-trip lemma (`Parse(Encode(x)) == Valid(x)`), and state that an accepted input is the encoding of its result. The date-range query and the boolean-from-string helper coerce their input, so they have no encoder. Their acceptance is stated directly as an if-and-only-if on the input.

The slot generator is a loop method proved equal to a recursive specification function. Membership, order and emptiness are proved about that function.

The router handlers state every branch of the source: 404, 400, 201, 200, and 500 where the source would throw. They run on the corrected slot path and the corrected intent update recorded under "## Findings", not on the code as written.

## Model

| member | source | states |
|---|---|---|
| JsString.Trim | libs/booking/src/server/models/booking.ts:30 | `trim` leaves no whitespace at either end and removes only whitespace |
| JsString.TrimIdempotent | libs/booking/src/server/models/booking.ts:30 | trimming a trimmed value changes nothing |
| JsString.ToLower | libs/booking/src/server/models/booking.ts:26 | the result is lowercase and of the same length, and a string that is already lowercase comes back unchanged |
| JsString.ToLowerIdempotent | libs/common/src/validations/bool-from-string.ts:15 | lowercasing twice is lowercasing once |
| EmailRegex.IsEmailMatchesPattern | libs/common/src/regex/email.ts:14 | the executable email check holds exactly when the string is `local@domain.tld`, each part a nonempty run of characters that are neither whitespace nor `@` |
| EmailRegex.LowerKeepsEmail | libs/booking/src/server/models/booking.ts:25-32 | lowercasing neither makes nor breaks an email |
| EmailRegex.EmailTrimmed | libs/booking/src/server/models/booking.ts:25-32 | an email has no whitespace, so `trim` leaves it unchanged |
| EmailRegex.EmptyIsNotEmail | libs/common/src/regex/tests/email.unit.test.ts:52-54 | the empty string is not an email |
| EmailRegex.SubdomainIsEmail | libs/common/src/regex/tests/email.unit.test.ts:14-23 | an address with a subdomain is an email |
| EmailRegex.MissingAtIsNotEmail | libs/common/src/regex/tests/email.unit.test.ts:25-31 | an address without `@` is not an email |
| EmailRegex.DoubleAtIsNotEmail | libs/common/src/regex/tests/email.unit.test.ts:56-62 | an address with two `@` is not an email |
| EmailRegex.SpaceIsNotEmail | libs/common/src/regex/tests/email.unit.test.ts:33-42 | an address with a space is not an email |
| EmailRegex.MissingTopLevelDomainIsNotEmail | libs/common/src/regex/tests/email.unit.test.ts:44-50 | an address without a dot in its domain is not an email |
| ObjectIdRegex.ObjectIdChars | libs/mongoose/src/regex/object-id.ts:8 | an ObjectId is exactly 24 characters, each a hexadecimal digit of either case |
| ObjectIdRegex.SampleObjectId | libs/mongoose/src/regex/tests/object-id.unit.test.ts:6-10 | a 24-digit mixed-case hexadecimal id is accepted |
| ObjectIdRegex.ShortIsNotObjectId | libs/mongoose/src/regex/tests/object-id.unit.test.ts:12-16 | 23 digits are rejected |
| ObjectIdRegex.NonHexIsNotObjectId | libs/mongoose/src/regex/tests/object-id.unit.test.ts:24-28 | a non-hexadecimal character is rejected |
| Status.NameRoundTrip | libs/booking/src/common/enums/status.ts:14-40 | each status's string value maps back to that status |
| Status.FromNameKnown | libs/booking/src/common/enums/status.ts:14-40 | a string names a status exactly when it is one of the four enum values |
| SlotAlignment.AlignedShift | libs/booking/src/common/utils/is-aligned-to-slot.ts:14-20 | an aligned instant moved by whole slots stays aligned |
| SlotAlignment.OffsetNotAligned | libs/booking/src/common/utils/is-aligned-to-slot.ts:14-20 | an aligned instant moved by less than one slot is not aligned |
| SlotAlignment.NonDateNotAligned | libs/booking/src/common/utils/is-aligned-to-slot.ts:15-17 | anything that is not a valid Date is not aligned |
| Zod.CheckIssues | libs/booking/src/common/validations/booking-mutate.ts:48-62 | a string's issues are exactly the messages of the checks it fails, with no issue exactly when it passes them all |
| Zod.AlignedDateSchema | libs/booking/src/common/validations/booking-mutate.ts:36-38 | accepted exactly when the value is an aligned Date; a Date that is not aligned reports the refine message, anything else the type message |
| Zod.CoerceDateSchema | libs/booking/src/common/validations/booking-query.ts:45-51 | accepted exactly when coercion gives a time inside the Date range |
| Zod.StringSchema | libs/booking/src/common/validations/booking-mutate.ts:48-51 | accepted exactly when the value is a string passing every check; otherwise the type issue or the failed checks' issues |
| Zod.DateSchema | libs/booking/src/common/validations/available-slot.ts:25 | accepted exactly when the value is a valid Date, giving its time; anything else, absent included, gives one issue with the schema's message |
| Zod.StatusSchema | libs/booking/src/common/validations/booking-status.ts:20-22 | accepted exactly when the value is one of the four status names; otherwise the listing message |
| BoolFromString.ParseBoolFromString | libs/common/src/validations/bool-from-string.ts:13-17 | accepted exactly when the lowercased string is `true` or `false`, giving whether it is `true` |
| BoolFromString.CaseInsensitive | libs/common/src/validations/bool-from-string.ts:15 | the result does not depend on case |
| BoolFromString.RoundTrip | libs/common/src/validations/bool-from-string.ts:13-17 | `"true"` and `"false"` parse to their booleans |
| ContractErrorSchema.ParseContractError | libs/common/src/validations/contract-error.ts:10-15 | accepted exactly when `message` is a string; otherwise the issue sits at `message` |
| ContractErrorSchema.ParseEncodeError | libs/common/src/validations/contract-error.ts:10-15 | every message round-trips |
| ContractErrorSchema.ParseIgnoresUnknownKeys | libs/common/src/validations/contract-error.ts:10 | the non-strict object ignores other keys |
| BookingStatusSchema.ParseBookingStatus | libs/booking/src/common/validations/booking-status.ts:20-22 | a status name is accepted as its status; anything else gives one issue with the listing message |
| BookingStatusSchema.ParseEncodeStatusReturn | libs/booking/src/common/validations/booking-status.ts:31-38 | every status reply round-trips |
| BookingStatusSchema.ParseStatusReturnAccepts | libs/booking/src/common/validations/booking-status.ts:31-38 | the reply is accepted exactly when it is an object whose only key is `bookingStatus`, holding one of the four status names |
| BookingStatusSchema.StatusReturnIssue | libs/booking/src/common/validations/booking-status.ts:36 | a missing or unknown `bookingStatus` is refused with the listing message at `bookingStatus` |
| BookingStatusSchema.ExtraKeyRejected | libs/booking/src/common/validations/booking-status.ts:38 | the strict reply rejects any extra key with an unrecognized-keys issue naming it |
| BookingPaymentSchema.ParsePayment | libs/booking/src/common/validations/booking-payment.ts:15-27 | an accepted reply has a nonempty secret and is exactly its encoding |
| BookingPaymentSchema.ParseEncodePayment | libs/booking/src/common/validations/booking-payment.ts:15-27 | every nonempty secret round-trips |
| BookingPaymentSchema.EmptySecretRejected | libs/booking/src/common/validations/booking-payment.ts:25 | an empty secret is rejected at `clientSecret` with the min-length message |
| BookingPaymentSchema.MissingSecretRejected | libs/booking/src/common/validations/booking-payment.ts:23-24 | an object without `clientSecret` is refused with the type message at `clientSecret` |
| BookingPaymentSchema.NonStringSecretRejected | libs/booking/src/common/validations/booking-payment.ts:24 | a non-string secret is rejected at `clientSecret` with the type message |
| BaseDocumentSchema.ParseBaseDocument | libs/mongoose/src/validations/base-document.ts:19-36 | an accepted object has an ObjectId `_id`, and its shape keys are exactly the encoding of the result |
| BaseDocumentSchema.FieldIssuesEmpty | libs/mongoose/src/validations/base-document.ts:19-36 | no issue exactly when `_id`, `createdAt` and `updatedAt` all satisfy their rules |
| BaseDocumentSchema.IdFormatIssue | libs/mongoose/src/validations/base-document.ts:25 | a string `_id` that is not an ObjectId fails with the ObjectId message alone, reported at `_id` |
| BaseDocumentSchema.TimestampIssue | libs/mongoose/src/validations/base-document.ts:30-35 | a `createdAt` or `updatedAt` that is absent or not a valid Date, such as a date string, is refused with its own message at its own key |
| BaseDocumentSchema.ParseEncode | libs/mongoose/src/validations/base-document.ts:19-36 | every base document with an ObjectId round-trips |
| BaseDocumentSchema.ParseIgnoresUnknownKeys | libs/mongoose/src/validations/base-document.ts:19 | keys outside the shape change nothing |
| BookingQuerySchema.ParseQueryParams | libs/booking/src/common/validations/booking-query.ts:11-20 | an accepted params object holds exactly one ObjectId `bookingId` |
| BookingQuerySchema.ParseEncodeParams | libs/booking/src/common/validations/booking-query.ts:11-20 | every ObjectId round-trips |
| BookingQuerySchema.MalformedIdMessage | libs/booking/src/common/validations/booking-query.ts:18 | a malformed id reports the ObjectId message at `bookingId` |
| BookingQuerySchema.RefineIssues | libs/booking/src/common/validations/booking-query.ts:54-65 | no refine issue exactly when start is not after end and the range is at most 31 days |
| BookingQuerySchema.ParseQuerySearch | libs/booking/src/common/validations/booking-query.ts:39-65 | accepted exactly when the object has only the two keys, both coerce to Dates, and the range is ordered and at most 31 days long; the result holds the coerced times |
| BookingQuerySchema.AcceptedRangeBounded | libs/booking/src/common/validations/booking-query.ts:54-65 | an accepted range is ordered and spans at most 31 days |
| BookingQuerySchema.ReversedRangeIssue | libs/booking/src/common/validations/booking-query.ts:54-57 | a reversed range reports only the order message, at `startDate` |
| BookingQuerySchema.LongRangeIssue | libs/booking/src/common/validations/booking-query.ts:58-65 | a range over 31 days reports only the length message, at `endDate` |
| BookingQuerySchema.UnknownKeyIssue | libs/booking/src/common/validations/booking-query.ts:53 | with valid dates, unknown keys give only the unrecognized-keys issue, and the refines do not run |
| BookingQuerySchema.MissingDatesIssues | libs/booking/src/common/validations/booking-query.ts:45-51 | an empty query reports both date messages |
| AvailableSlotSchema.ParseAvailableSlot | libs/booking/src/common/validations/available-slot.ts:15-27 | an accepted element is exactly `{slot: <its Date>}` |
| AvailableSlotSchema.ParseAvailableSlotValid | libs/booking/src/common/validations/available-slot.ts:15-27 | accepted exactly when the element is a one-key object holding a valid Date |
| AvailableSlotSchema.ParseAvailableSlots | libs/booking/src/common/validations/available-slot.ts:43 | an array is accepted exactly when every element is a slot, giving the slots in order |
| AvailableSlotSchema.ElementIssuesEmpty | libs/booking/src/common/validations/available-slot.ts:43 | the array reports no element issue exactly when every element is valid |
| AvailableSlotSchema.MissingSlotInArray | libs/booking/src/common/validations/available-slot.ts:25-43 | an element object without `slot` makes the array fail, with the slot message at `[i, 'slot']` |
| AvailableSlotSchema.ParseEncodeSlots | libs/booking/src/common/validations/available-slot.ts:43 | every list of slot starts round-trips |
| BookingMutateSchema.EmailChecksMeaning | libs/booking/src/common/validations/booking-mutate.ts:48-51 | the email checks pass exactly when the email has at most 254 characters and matches the email regex |
| BookingMutateSchema.NameChecksMeaning | libs/booking/src/common/validations/booking-mutate.ts:59-62 | the name checks pass exactly when the name has 2 to 120 characters |
| BookingMutateSchema.ParseBookingMutate | libs/booking/src/common/validations/booking-mutate.ts:26-69 | an accepted payload is valid and is exactly the encoding of the result |
| BookingMutateSchema.ParseAccepts | libs/booking/src/common/validations/booking-mutate.ts:26-69 | accepted exactly when the input encodes some valid payload |
| BookingMutateSchema.ParseEncode | libs/booking/src/common/validations/booking-mutate.ts:26-69 | every valid payload round-trips |
| BookingMutateSchema.EncodeDecode | libs/booking/src/common/validations/booking-mutate.ts:26-69 | decoding an encoded payload gives it back, and the encoding's keys are exactly the shape |
| BookingMutateSchema.MutateFieldIssues | libs/booking/src/common/validations/booking-mutate.ts:26-69 | each field is reported at its own path exactly when it breaks its rule, and extra keys are reported together |
| BookingMutateSchema.MutateMessages | libs/booking/src/common/validations/booking-mutate.ts:36-67 | each broken rule reports its declared message under its field |
| BookingSchema.ParseBooking | libs/booking/src/common/validations/booking.ts:18-66 | an accepted booking is valid, and the input's shape keys are exactly its encoding |
| BookingSchema.FieldIssuesEmpty | libs/booking/src/common/validations/booking.ts:18-66 | no issue exactly when each of the four fields satisfies its rule, the status being optional |
| BookingSchema.ParseEncode | libs/booking/src/common/validations/booking.ts:18-66 | every valid booking round-trips, with or without a status |
| BookingSchema.BookingFieldIssues | libs/booking/src/common/validations/booking.ts:18-66 | on an object, each of the four fields is reported at its own path exactly when it breaks its rule |
| BookingSchema.StartDateMessages | libs/booking/src/common/validations/booking.ts:50-52 | a valid Date off the slot grid is reported at `startDate` with the alignment message; anything that is not a valid Date, with the type message |
| BookingSchema.ParseIgnoresUnknownKeys | libs/booking/src/common/validations/booking.ts:18 | the non-strict object ignores keys outside its shape |
| BookingSchema.ParseBookingDocument | libs/booking/src/common/validations/booking.ts:84 | an accepted document parses as a booking and as a base document, giving the same parts |
| BookingSchema.DocumentExtendsBoth | libs/booking/src/common/validations/booking.ts:84 | a document is valid exactly when it is a valid booking and a valid base document |
| BookingMongoDbSchema.ParseBookingMongoDb | libs/booking/src/common/validations/booking-mongodb.ts:14 | an accepted document is valid and is exactly its encoding |
| BookingMongoDbSchema.ParseEncode | libs/booking/src/common/validations/booking-mongodb.ts:14 | every valid document round-trips |
| BookingMongoDbSchema.ExtendsBoth | libs/booking/src/common/validations/booking-mongodb.ts:14 | a document is valid exactly when its payload keys form a valid payload, it is a valid base document, and it has no other key |
| Slots.SlotKeyInjective | libs/booking/src/common/utils/slots.ts:11 | two slots have the same key exactly when they are the same instant |
| Slots.StartOfDay | libs/booking/src/common/utils/slots.ts:49 | the UTC midnight at or before the instant, less than a day before it |
| Slots.RoundUpToSlot | libs/booking/src/common/utils/slots.ts:20 | the smallest aligned instant at or after the input; no Date when the slot length is 0 |
| Slots.RoundUpAligned | libs/booking/src/common/utils/slots.ts:20 | an aligned instant rounds to itself |
| Slots.GenerateBusinessSlots | libs/booking/src/common/utils/slots.ts:40-66 | the nested loops produce exactly the specification's slot list |
| Slots.BusinessSlotsMember | libs/booking/src/common/utils/slots.ts:40-66 | an instant is produced exactly when it is aligned, starts in the range, ends by its end, and lies inside its own day's business hours |
| Slots.BusinessSlotsAscending | libs/booking/src/common/utils/slots.ts:40-66 | the slots are strictly ascending, so none repeats |
| Slots.DayWindowFirst | libs/booking/src/common/utils/slots.ts:53-61 | a day's slots are one slot apart, starting at the first aligned instant at or after the later of the business start and the range start |
| Slots.BusinessSlotsEmpty | libs/booking/src/common/utils/slots.ts:40-66 | a reversed range, a zero slot length or an empty business window gives no slot |
| Slots.FullDayScenario | libs/booking/src/common/utils/tests/slots.unit.test.ts:25-56 | a whole day gives 18 slots from 09:00 to 17:30 |
| Slots.PartialWindowScenario | libs/booking/src/common/utils/tests/slots.unit.test.ts:58-72 | 10:10 to 12:40 gives 4 slots from 10:30 to 12:00 |
| Slots.TwoDayScenario | libs/booking/src/common/utils/tests/slots.unit.test.ts:83-101 | two whole days give 36 slots |
| BookingModel.NormalizeEmail | libs/booking/src/server/models/booking.ts:26-30 | a stored email is lowercase and trimmed |
| BookingModel.NormalizeEmailIdempotent | libs/booking/src/server/models/booking.ts:26-30 | setting an already set email changes nothing |
| BookingModel.NormalizeEmailOfEmail | libs/booking/src/server/models/booking.ts:26-30 | an email is stored lowercased, with its length and its being an email kept |
| BookingModel.EmailError | libs/booking/src/server/models/booking.ts:25-32 | on the set value: required fails exactly when the email is absent or empty, maxlength exactly when it is a valid email over 120 characters, and no error exactly when it is an email of at most 120 |
| BookingModel.NameError | libs/booking/src/server/models/booking.ts:40-46 | on the trimmed value: no error exactly when it has 2 to 120 characters; required exactly when it is empty; minlength exactly when it has one character |
| BookingModel.StartDateError | libs/booking/src/server/models/booking.ts:57-64 | no error exactly when the date is present and aligned; required exactly when it is absent |
| BookingModel.StatusError | libs/booking/src/server/models/booking.ts:72-80 | no error exactly when the status is absent or one of the enum values |
| BookingModel.StoredStatus | libs/booking/src/server/models/booking.ts:73 | an absent status stores PENDING; a given one stores itself |
| BookingModel.Validate | libs/booking/src/server/models/booking.ts:16-83 | a document is stored exactly when no path fails, with the email and name through their setters and the status defaulted |
| BookingModel.ValidateAccepts | libs/booking/src/server/models/booking.ts:16-83 | stored exactly when every path passes; a refusal names at least one path |
| BookingModel.ValidateStoredValid | libs/booking/src/server/models/booking.ts:16-83 | every stored document satisfies all the path rules on its set values |
| BookingModel.DefaultStatus | libs/booking/src/server/models/booking.ts:73 | omitting the status stores PENDING |
| BookingModel.CastAsWrittenRejected | apps/api/src/app/services/booking.ts:43-45 | as written, every create fails with `startDate` required |
| BookingModel.CastAccepted | apps/api/src/app/services/booking.ts:43-45 | a payload the contract accepted is stored exactly when its email has at most 120 characters and its trimmed name at least 2, and is then stored lowercased and trimmed |
| BookingModel.LongEmailRejected | libs/booking/src/server/models/booking.ts:28 | an email of 121 to 254 characters passes the payload schema but the model rejects it with maxlength |
| BookingModel.IntentPatchDropped | apps/api/src/app/routes/booking.ts:186 | as written, recording a payment intent leaves the document unchanged |
| BookingModel.ApplyPatch | apps/api/src/app/services/booking.ts:96-98 | each present field is set, with the email and name through their setters; absent fields keep their values |
| BookingModel.StatusPatchOnlyStatus | apps/api/src/app/routes/booking.ts:45 | a status update changes only the status |
| BookingModel.IntentPatchOnlyIntent | apps/api/src/app/routes/booking.ts:186 | the corrected intent update changes only the payment intent |
| BookingStore.RangeOfMember | apps/api/src/app/services/booking.ts:76-80 | an entry is in the range result exactly when it is a stored document whose slot lies in the inclusive range |
| BookingStore.RangeOfAscending | apps/api/src/app/services/booking.ts:76-80 | the range result lists each document once, in id order |
| BookingStore.BookingService.CreateBooking | apps/api/src/app/services/booking.ts:43-45 | failed validators give the error map, and a taken slot gives a duplicate-key error, both with nothing stored; otherwise the validated document is stored under a fresh id; the unique index holds throughout |
| BookingStore.BookingService.GetBookingByFilter | apps/api/src/app/services/booking.ts:59-61 | none exactly when no document matches; otherwise a stored document that matches |
| BookingStore.BookingService.GetBookingsByRange | apps/api/src/app/services/booking.ts:76-80 | the loop returns exactly the stored documents in the inclusive range, in id order |
| BookingStore.BookingService.UpdateBookingById | apps/api/src/app/services/booking.ts:96-98 | an unknown id gives no document and changes nothing; a slot another document holds gives a duplicate-key error; otherwise only that document changes, to the patched one, which is returned |
| BookingStore.SameSlotIsFree | libs/booking/src/server/models/booking.ts:91 | an update that keeps the slot never conflicts with the unique index |
| BookingStore.SlotFilterUnique | libs/booking/src/server/models/booking.ts:91 | under the unique index, a slot filter matches at most one document |
| Payments.PaymentGateway.CreatePaymentIntent | apps/api/src/app/services/stripe.ts:38-48 | a fresh intent id awaiting a payment method; the call is logged with its arguments |
| Payments.PaymentGateway.RetrievePaymentIntent | apps/api/src/app/services/stripe.ts:68-70 | the intent's current status, exactly when the intent exists; the call is logged and no intent changes |
| Payments.IsSucceeded | apps/api/src/app/services/stripe.ts:57-59 | only the `succeeded` status counts, so a new intent, still awaiting its payment method, has not succeeded |
| BookingRouter.ReactivationRecord | apps/api/src/app/routes/booking.ts:110-116 | reactivating keeps the slot and the old payment intent, sets the new email and name through the setters, and forces PENDING |
| BookingRouter.BookedKeysBlocked | apps/api/src/app/routes/booking.ts:133-137 | over the bookings of a range query, a slot of the range is booked exactly when a stored document that is not cancelled holds it |
| BookingRouter.AvailableSlotsMember | apps/api/src/app/routes/booking.ts:141 | a slot survives the filter exactly when it was generated and is not booked |
| BookingRouter.AvailableSlotsAscending | apps/api/src/app/routes/booking.ts:141 | the filter keeps the ascending order |
| BookingRouter.NullSecretReplyRejected | apps/api/src/app/routes/booking.ts:188 | when the gateway gives no client secret, the router's `''` reply fails its own payment schema |
| BookingRouter.SecretReplyAccepted | apps/api/src/app/routes/booking.ts:188 | a nonempty client secret is answered with a body the payment schema accepts unchanged |
| BookingRouter.Router.CancelBooking | apps/api/src/app/routes/booking.ts:44-58 | 404 and nothing changes for an unknown id; otherwise 200 with CANCELLED, and only that booking's status changes; no id is used up |
| BookingRouter.Router.ConfirmBooking | apps/api/src/app/routes/booking.ts:68-87 | 404 for an unknown id and 400 without an intent, both with no gateway call; otherwise one retrieve call, then 400 unless the intent succeeded, and 200 with CONFIRMED, setting only that booking's status, when it did; no intent and no id is created |
| BookingRouter.Router.CreateBooking | apps/api/src/app/routes/booking.ts:100-120 | a free slot gives 201 with the inserted booking, or 500 when the model rejects it; a cancelled booking on the slot is reactivated with 201; any other booking on the slot gives 400 with nothing changed; a new id is used up only by the insert |
| BookingRouter.Router.Insert | apps/api/src/app/routes/booking.ts:105-108 | the fresh insert stores the payload through the setters under the next id and advances the counter, or answers 500 and changes nothing when the model rejects it |
| BookingRouter.Router.Reactivate | apps/api/src/app/routes/booking.ts:110-116 | only the cancelled booking changes, to the reactivated record, answered with 201; no id is used up |
| BookingRouter.Router.ListAvailableSlots | apps/api/src/app/routes/booking.ts:130-144 | 200 with exactly the business slots of the range that no booking other than a cancelled one holds, in ascending order |
| BookingRouter.Router.ListBookedSlots | apps/api/src/app/routes/booking.ts:153-157 | 200 with exactly the stored bookings, of any status, whose slot is in the inclusive range, each listed once, in id order |
| BookingRouter.Router.ProcessPayment | apps/api/src/app/routes/booking.ts:170-189 | 404 for an unknown id and 400 for a confirmed booking, both with no gateway call and the intents unchanged; otherwise one create call with the configured price, currency and payment types, exactly one new intent under the next intent id, awaiting its payment method, recorded on that booking only, and 200 with the secret or `''` |
| BookingRouter.Router.PayThenConfirm | apps/api/src/app/routes/booking.ts:78-81 | confirming right after paying answers 400 "payment not succeeded": the new intent still awaits its payment method, so the booking keeps its status |

## Left out

- HTTP, ts-rest, Express, logging, MongoDB I/O and `async` are not modelled: each handler and service call runs atomically. Concurrent requests are left out, so a race between the slot lookup and the insert is not modelled. Optimistic concurrency (`optimisticConcurrency: true`) and its version key are not modelled either.
- The `timestamps` option (`createdAt`, `updatedAt`) is not modelled for stored documents, because the clock is outside the model. The zod base-document schema does model those two fields.
- Document ids are natural numbers from a counter, and payment intent ids come from the gateway's counter. ObjectId generation and Stripe's id strings are not modelled. A route's `bookingId` is such an id once the params schema has accepted it.
- `find` returns documents in insertion order, modelled as id order. MongoDB's natural order is not guaranteed.
- The Stripe SDK is an abstract gateway. A new intent's client secret is a parameter, and payment progress is `Progress`. Network failures of the gateway are not modelled.
- Dates are integer milliseconds and an Invalid Date is its own value. `Math.ceil` on floating point is modelled exactly on integers. `z.coerce.date` string parsing (`Date.parse`) is a parameter of the query schema.
- Strings are sequences of Unicode scalar values, while JavaScript strings are sequences of UTF-16 code units. A character outside the Basic Multilingual Plane, such as an emoji, has length 1 here and length 2 in JavaScript. So the 254-character email bound, the 2-to-120-character name bounds and the model's `maxlength`/`minlength` count differently for such text. Lone surrogates cannot be represented at all.
- `toLowerCase` is modelled on ASCII letters only. `\s` and `trim` use the ECMAScript whitespace set.
- The host is assumed to run in UTC. date-fns `startOfDay` and `addDays` work in the host's local time zone, so on a host with a non-zero offset the day boundaries of `generateBusinessSlots` differ from the model's UTC midnights.
- Zod.CoerceToTime: every array and object coerces to an Invalid Date. In JavaScript, `new Date(x)` turns an array or object into its string form first, so `new Date(['2020'])` parses as the year 2020.
- Slots.GenerateBusinessSlots: requires a slot length of at least 0. With a negative `slotMs` the source's inner loop steps backward. Once its test holds, it keeps holding until the date leaves the valid time range. The only caller passes the positive slot length constant.
- A JSON object is a map, so key order is not modelled. With it goes the order of keys inside one unrecognized-keys issue.
- Mongoose `CastError`s (a non-string email, an unparseable date) are not modelled. The router only passes payloads the contract already validated.
- The constants files (slot length, business hours, price, currency, payment types) are not part of this model. They are a `Config` value; `TestConfig` holds the values the router tests mock.
- `libs/booking/src/common/contracts/booking.ts` is not part of this model. Its request schemas are stated as each handler's preconditions: `ValidMutate` on the create body, and `bookingId` and the date range as already parsed values.
- BookingRouter.Router.CreateBooking: the slot lookup and the range query use the corrected slot path. As written, `findOne({dateTime})` and the range filter on `dateTime` match no stored document, because the schema's path is `startDate`. The insert also casts the payload's `dateTime` onto the `startDate` path. As written, the strict model drops `dateTime`, so every create answers 500 (`BookingModel.CastAsWrittenRejected`). The handler contracts state the corrected behaviour only.
- BookingRouter.Router.ProcessPayment / BookingRouter.Router.ConfirmBooking: the new intent is recorded on the booking with the corrected update. As written, the strict update drops `paymentIntentId` (`BookingModel.IntentPatchDropped`), so `confirmBooking` answers 400 "Booking payment not processed" for every existing booking. Its retrieve, 400 "Payment not succeeded" and 200 branches are never reached after `processPayment`. The handler contracts state the corrected behaviour only.
- BookingModel.ApplyPatchIdempotent: Dafny proves it without help. It is kept as a statement of the update's idempotence.

## Findings

| source | as written | input that shows it | evidently intended | confidence | as-written member | corrected member |
|---|---|---|---|---|---|---|
| apps/api/src/app/services/booking.ts:43-45 | `create(data)` passes the payload's `dateTime`, but the strict model's slot path is `startDate` (libs/booking/src/server/models/booking.ts:57, 82) | any payload the contract accepts, e.g. a valid email and name and an aligned `dateTime` | the payload's `dateTime` is stored as the slot start | not executed | BookingModel.CastAsWrittenRejected | BookingModel.CastAccepted |
| apps/api/src/app/routes/booking.ts:186 | the update `{ paymentIntentId }` names no schema path, so the strict update drops it and `confirmBooking` always answers 400 "Booking payment not processed" | any existing booking id after `processPayment` | the created intent's id is recorded on the booking | not executed | BookingModel.IntentPatchDropped | BookingModel.IntentPatchOnlyIntent |
