/**
 * The Mongoose schema of a stored booking: the setters that normalise the
 * email and the name, the validators of each path (the first failing one
 * gives the path's message, `required` running first), the `PENDING`
 * default of `status`, and how a payload is cast onto the schema's paths.
 *
 * The router, the service and the mutate schema call the slot start
 * `dateTime`; the Mongoose schema calls the same field `startDate`. The
 * stored record keeps one slot field, `dateTime`, and its errors are
 * reported under the schema's path name `startDate`.
 */
module BookingModel {
  import opened Wrappers
  import opened JsString
  import opened EmailRegex
  import opened SlotAlignment
  import opened Status
  import opened BookingMutateSchema

  const EmailRequired: string := "\"email\" is required"
  const EmailInvalid: string := "\"email\" must be a valid email"
  const EmailTooLong: string := "\"email\" must be at most 120 characters long"
  const NameRequired: string := "\"name\" is required"
  const NameTooLong: string := "\"name\" must be at most 120 characters long"
  const NameTooShort: string := "\"name\" must be at least 2 characters long"
  const StartDateRequired: string := "\"startDate\" is required"
  const StartDateMisaligned: string :=
    "\"startDate\" must be aligned to 30-minute boundaries (e.g. HH:00:00.000 or HH:30:00.000, UTC)"

  const MaxEmailLength: int := 120
  const MaxNameLength: int := 120
  const MinNameLength: int := 2

  /** The schema's paths, under which validation errors are reported. */
  const Paths: set<string> := {"email", "name", "startDate", "status"}

  /**
   * A payload after casting onto the schema: a path the payload does not
   * set is `None`. `dateTime` is the value of the slot path.
   */
  datatype ModelInput = ModelInput(
    email: Option<string>,
    name: Option<string>,
    dateTime: Option<int>,
    status: Option<string>)

  /**
   * A stored booking. `paymentIntentId` is the id of the payment intent the
   * payment handler attaches; intent ids are numbers in this model.
   */
  datatype Booking = Booking(
    dateTime: int,
    email: string,
    name: string,
    status: BookingStatus,
    paymentIntentId: Option<nat>)

  // ---- Setters ----

  /** The email path's `lowercase` then `trim` setters. */
  function NormalizeEmail(s: string): (r: string)
    ensures IsLowerCase(r) && IsTrimmed(r)
  {
    LowerThenTrim(s);
    Trim(ToLower(s))
  }

  lemma LowerThenTrim(s: string)
    ensures IsLowerCase(Trim(ToLower(s)))
  {
    LowerSlice(s, TrimLeftIndex(ToLower(s), 0), Trim(ToLower(s)));
  }

  /** An email that is already lowercase and trimmed is stored as given. */
  lemma NormalizeEmailFixed(s: string)
    requires IsLowerCase(s) && IsTrimmed(s)
    ensures NormalizeEmail(s) == s
  {
    assert ToLower(s) == s;
    TrimmedFixed(s);
  }

  /** Setting an already set email leaves it alone. */
  lemma NormalizeEmailIdempotent(s: string)
    ensures NormalizeEmail(NormalizeEmail(s)) == NormalizeEmail(s)
  {
    NormalizeEmailFixed(NormalizeEmail(s));
  }

  /** Any email is stored lowercased, and keeps its length and its being an email. */
  lemma NormalizeEmailOfEmail(s: string)
    requires IsEmail(s)
    ensures NormalizeEmail(s) == ToLower(s)
    ensures IsEmail(NormalizeEmail(s)) && |NormalizeEmail(s)| == |s|
  {
    LowerKeepsEmail(s);
    EmailTrimmed(ToLower(s));
  }

  // ---- Validators, path by path; the first failing one gives the error ----

  /** The `kind` of a Mongoose `ValidatorError`: which validator failed. */
  datatype ValidatorKind = Required | Regexp | MaxLength | MinLength | Enum | UserDefined

  /** The message the schema declares for a path's validator. */
  function Message(path: string, kind: ValidatorKind): string {
    match kind
    case Required =>
      if path == "email" then EmailRequired
      else if path == "name" then NameRequired
      else StartDateRequired
    case Regexp => EmailInvalid
    case MaxLength => if path == "email" then EmailTooLong else NameTooLong
    case MinLength => NameTooShort
    case Enum => StatusMessage
    case UserDefined => StartDateMisaligned
  }

  /** `email`: required, then `match: emailRegex`, then `maxlength: 120`, on the set value. */
  function EmailError(email: Option<string>): (r: Option<ValidatorKind>)
    ensures r.None? <==> email.Some? && IsEmail(NormalizeEmail(email.value)) && |NormalizeEmail(email.value)| <= MaxEmailLength
    ensures r == Some(Required) <==> email.None? || NormalizeEmail(email.value) == ""
    ensures r == Some(MaxLength) <==> email.Some? && IsEmail(NormalizeEmail(email.value)) && |NormalizeEmail(email.value)| > MaxEmailLength
  {
    if email.None? then Some(Required)
    else
      var e := NormalizeEmail(email.value);
      if e == "" then Some(Required)
      else if !IsEmail(e) then Some(Regexp)
      else if |e| > MaxEmailLength then Some(MaxLength)
      else None
  }

  /** `name`: required, then `maxlength: 120`, then `minlength: 2`, on the trimmed value. */
  function NameError(name: Option<string>): (r: Option<ValidatorKind>)
    ensures r.None? <==> name.Some? && MinNameLength <= |Trim(name.value)| <= MaxNameLength
    ensures r == Some(Required) <==> name.None? || Trim(name.value) == ""
    ensures r == Some(MinLength) <==> name.Some? && |Trim(name.value)| == 1
  {
    if name.None? then Some(Required)
    else
      var n := Trim(name.value);
      if n == "" then Some(Required)
      else if |n| > MaxNameLength then Some(MaxLength)
      else if |n| < MinNameLength then Some(MinLength)
      else None
  }

  /** `startDate`: required, then the alignment validator. */
  function StartDateError(dateTime: Option<int>, slotMs: int): (r: Option<ValidatorKind>)
    ensures r.None? <==> dateTime.Some? && IsAlignedInstant(dateTime.value, slotMs)
    ensures r == Some(Required) <==> dateTime.None?
  {
    if dateTime.None? then Some(Required)
    else if !IsAlignedInstant(dateTime.value, slotMs) then Some(UserDefined)
    else None
  }

  /** `status`: an absent value takes the default; a present one must be an enum value. */
  function StatusError(status: Option<string>): (r: Option<ValidatorKind>)
    ensures r.None? <==> status.None? || FromName(status.value).Known?
    ensures r.Some? ==> r.value == Enum
  {
    if status.Some? && FromName(status.value).Unknown? then Some(Enum) else None
  }

  /** The status a valid document stores: the default `PENDING` when none is given. */
  function StoredStatus(status: Option<string>): (r: BookingStatus)
    requires StatusError(status).None?
    ensures status.None? ==> r == Pending
    ensures status.Some? ==> Name(r) == status.value
  {
    if status.None? then Pending else FromName(status.value).status
  }

  function PathError(input: ModelInput, slotMs: int, path: string): Option<ValidatorKind> {
    if path == "email" then EmailError(input.email)
    else if path == "name" then NameError(input.name)
    else if path == "startDate" then StartDateError(input.dateTime, slotMs)
    else if path == "status" then StatusError(input.status)
    else None
  }

  /** A `ValidatorError`: the failed validator and its message. */
  datatype ValidatorError = ValidatorError(kind: ValidatorKind, message: string)

  /** `err.errors`: each failing path with its validator and message. */
  function Errors(input: ModelInput, slotMs: int): (r: map<string, ValidatorError>)
    ensures forall path :: path in r <==> path in Paths && PathError(input, slotMs, path).Some?
    ensures forall path | path in r :: r[path].kind == PathError(input, slotMs, path).value
  {
    map path | path in Paths && PathError(input, slotMs, path).Some? ::
      var kind := PathError(input, slotMs, path).value;
      ValidatorError(kind, Message(path, kind))
  }

  /** What every stored document satisfies. */
  predicate StoredValid(b: Booking, slotMs: int) {
    && IsEmail(b.email) && |b.email| <= MaxEmailLength && IsLowerCase(b.email)
    && MinNameLength <= |b.name| <= MaxNameLength && IsTrimmed(b.name)
    && IsAlignedInstant(b.dateTime, slotMs)
  }

  /**
   * `doc.validateSync()` after the setters and the default: either the
   * document to store, with the set values, or the failing paths with
   * their errors.
   */
  function Validate(input: ModelInput, slotMs: int): (r: Result<Booking, map<string, ValidatorError>>)
    ensures r.Ok? <==> && EmailError(input.email).None? && NameError(input.name).None?
                       && StartDateError(input.dateTime, slotMs).None? && StatusError(input.status).None?
    ensures r.Err? ==> r.error == Errors(input, slotMs)
    ensures r.Ok? ==> && r.value.email == NormalizeEmail(input.email.value)
                      && r.value.name == Trim(input.name.value)
                      && r.value.dateTime == input.dateTime.value
                      && Name(r.value.status) == input.status.GetOr(Name(Pending))
                      && r.value.paymentIntentId.None?
  {
    if && EmailError(input.email).None? && NameError(input.name).None?
       && StartDateError(input.dateTime, slotMs).None? && StatusError(input.status).None?
    then
      Ok(Booking(input.dateTime.value, NormalizeEmail(input.email.value), Trim(input.name.value), StoredStatus(input.status), None))
    else
      Err(Errors(input, slotMs))
  }

  /** A document is stored exactly when no path fails; a refused one reports at least one path. */
  lemma ValidateAccepts(input: ModelInput, slotMs: int)
    ensures Validate(input, slotMs).Ok? <==> forall path | path in Paths :: PathError(input, slotMs, path).None?
    ensures Validate(input, slotMs).Err? ==> Validate(input, slotMs).error != map[]
  {
    var e := PathError(input, slotMs, "email");
    var n := PathError(input, slotMs, "name");
    var d := PathError(input, slotMs, "startDate");
    var st := PathError(input, slotMs, "status");
    assert e == EmailError(input.email) && n == NameError(input.name);
    assert d == StartDateError(input.dateTime, slotMs) && st == StatusError(input.status);
    if e.None? && n.None? && d.None? && st.None? {
      forall path | path in Paths
        ensures PathError(input, slotMs, path).None?
      {
      }
    } else {
      var errors := Errors(input, slotMs);
      if e.Some? {
        assert "email" in errors;
      } else if n.Some? {
        assert "name" in errors;
      } else if d.Some? {
        assert "startDate" in errors;
      } else {
        assert "status" in errors;
      }
    }
  }

  /** Every stored document satisfies the schema's rules on its set values. */
  lemma ValidateStoredValid(input: ModelInput, slotMs: int)
    requires Validate(input, slotMs).Ok?
    ensures StoredValid(Validate(input, slotMs).value, slotMs)
  {
    TrimIdempotent(input.name.value);
  }

  /** Omitting `status` stores `PENDING`. */
  lemma DefaultStatus(input: ModelInput, slotMs: int)
    requires input.status.None?
    requires Validate(input, slotMs).Ok?
    ensures Validate(input, slotMs).value.status == Pending
  {
    var b := Validate(input, slotMs).value;
    assert Name(b.status) == "pending";
  }

  // ---- Casting a request payload onto the schema ----

  /**
   * The create payload as the router hands it over, cast as written:
   * `strict: true` drops `dateTime`, which is not a path of the schema, so
   * `startDate` is never set.
   */
  function CastAsWritten(b: BookingMutate): (r: ModelInput)
    ensures r.dateTime.None? && r.email == Some(b.email) && r.name == Some(b.name)
  {
    ModelInput(Some(b.email), Some(b.name), None, Some(Name(b.status)))
  }

  /** As written, no create payload is ever stored: the slot path is always missing. */
  lemma CastAsWrittenRejected(b: BookingMutate, slotMs: int)
    ensures Validate(CastAsWritten(b), slotMs).Err?
    ensures "startDate" in Validate(CastAsWritten(b), slotMs).error
    ensures Validate(CastAsWritten(b), slotMs).error["startDate"] == ValidatorError(Required, StartDateRequired)
  {
    assert PathError(CastAsWritten(b), slotMs, "startDate") == Some(Required);
  }

  /** The create payload with its `dateTime` cast onto the slot path. */
  function Cast(b: BookingMutate): (r: ModelInput)
    ensures r.dateTime == Some(b.dateTime) && r.email == Some(b.email) && r.name == Some(b.name)
    ensures r.status == Some(Name(b.status))
  {
    ModelInput(Some(b.email), Some(b.name), Some(b.dateTime), Some(Name(b.status)))
  }

  /**
   * A payload the mutate schema accepts is stored exactly when its email
   * fits the model's 120 characters and its trimmed name still has two;
   * the stored email is the lowercased one.
   */
  lemma CastAccepted(b: BookingMutate, slotMs: int)
    requires ValidMutate(b, slotMs)
    ensures Validate(Cast(b), slotMs).Ok? <==> |b.email| <= MaxEmailLength && MinNameLength <= |Trim(b.name)|
    ensures Validate(Cast(b), slotMs).Ok? ==>
      Validate(Cast(b), slotMs).value == Booking(b.dateTime, ToLower(b.email), Trim(b.name), b.status, None)
  {
    NormalizeEmailOfEmail(b.email);
    NameRoundTrip(b.status);
    var input := Cast(b);
    assert PathError(input, slotMs, "startDate").None?;
    assert PathError(input, slotMs, "status").None?;
    assert |Trim(b.name)| <= |b.name| <= MaxNameLength;
    if Validate(input, slotMs).Ok? {
      var stored := Validate(input, slotMs).value;
      assert Name(stored.status) == Name(b.status);
    }
  }

  /**
   * The API admits emails of up to 254 characters but the model stops at
   * 120: a longer accepted email is refused with the `maxlength` message.
   */
  lemma LongEmailRejected(b: BookingMutate, slotMs: int)
    requires ValidMutate(b, slotMs) && |b.email| > MaxEmailLength
    ensures ParseBookingMutate(Encode(b), slotMs) == Values.Valid(b)
    ensures Validate(Cast(b), slotMs).Err?
    ensures "email" in Validate(Cast(b), slotMs).error
    ensures Validate(Cast(b), slotMs).error["email"] == ValidatorError(MaxLength, EmailTooLong)
  {
    ParseEncode(b, slotMs);
    LongEmailMaxLength(b, slotMs);
  }

  lemma LongEmailMaxLength(b: BookingMutate, slotMs: int)
    requires IsEmail(b.email) && |b.email| > MaxEmailLength
    ensures Validate(Cast(b), slotMs).Err?
    ensures "email" in Validate(Cast(b), slotMs).error
    ensures Validate(Cast(b), slotMs).error["email"] == ValidatorError(MaxLength, EmailTooLong)
  {
    NormalizeEmailOfEmail(b.email);
    assert PathError(Cast(b), slotMs, "email") == Some(MaxLength);
  }

  // ---- Updates ----

  /**
   * The fields of a `findByIdAndUpdate`: each is set when present. Updates
   * run the setters but not the validators.
   */
  datatype Patch = Patch(
    dateTime: Option<int>,
    email: Option<string>,
    name: Option<string>,
    status: Option<BookingStatus>,
    paymentIntentId: Option<nat>)

  function StatusPatch(s: BookingStatus): Patch {
    Patch(None, None, None, Some(s), None)
  }

  function IntentPatch(id: nat): Patch {
    Patch(None, None, None, None, Some(id))
  }

  /**
   * The update as written: `strict: true` also strips the paths the schema
   * lacks from an update, `dateTime` and `paymentIntentId` among them.
   */
  function CastUpdateAsWritten(p: Patch): (r: Patch)
    ensures r.dateTime.None? && r.paymentIntentId.None?
    ensures r.email == p.email && r.name == p.name && r.status == p.status
  {
    p.(dateTime := None, paymentIntentId := None)
  }

  /** As written, recording a payment intent updates nothing. */
  lemma IntentPatchDropped(b: Booking, id: nat)
    ensures ApplyPatch(b, CastUpdateAsWritten(IntentPatch(id))) == b
  {
  }

  /** `$set` of the present fields, through the email and name setters. */
  function ApplyPatch(b: Booking, p: Patch): (r: Booking)
    ensures r.dateTime == p.dateTime.GetOr(b.dateTime)
    ensures r.email == if p.email.Some? then NormalizeEmail(p.email.value) else b.email
    ensures r.name == if p.name.Some? then Trim(p.name.value) else b.name
    ensures r.status == p.status.GetOr(b.status)
    ensures r.paymentIntentId == if p.paymentIntentId.Some? then p.paymentIntentId else b.paymentIntentId
  {
    Booking(
      p.dateTime.GetOr(b.dateTime),
      if p.email.Some? then NormalizeEmail(p.email.value) else b.email,
      if p.name.Some? then Trim(p.name.value) else b.name,
      p.status.GetOr(b.status),
      if p.paymentIntentId.Some? then p.paymentIntentId else b.paymentIntentId)
  }

  /** Applying the same update twice is applying it once. */
  lemma ApplyPatchIdempotent(b: Booking, p: Patch)
    ensures ApplyPatch(ApplyPatch(b, p), p) == ApplyPatch(b, p)
  {
  }

  /** An update that sets only the status changes only the status. */
  lemma StatusPatchOnlyStatus(b: Booking, s: BookingStatus)
    ensures ApplyPatch(b, StatusPatch(s)) == b.(status := s)
  {
  }

  /** An update that sets only the payment intent changes only the payment intent. */
  lemma IntentPatchOnlyIntent(b: Booking, id: nat)
    ensures ApplyPatch(b, IntentPatch(id)) == b.(paymentIntentId := Some(id))
  {
  }
}
