/** The lifecycle states of a booking and their wire names. */
module Status {

  datatype BookingStatus = Cancelled | Confirmed | Completed | Pending

  /** The enum's string value. */
  function Name(s: BookingStatus): string {
    match s
    case Cancelled => "cancelled"
    case Confirmed => "confirmed"
    case Completed => "completed"
    case Pending => "pending"
  }

  /** The enum values in declaration order, as `Object.values` lists them. */
  const AllStatuses: seq<BookingStatus> := [Cancelled, Confirmed, Completed, Pending]

  /** Reads a wire name back; anything other than the four names has no status. */
  function FromName(name: string): (r: StatusOrNone)
    ensures r.Known? ==> Name(r.status) == name
  {
    if name == "cancelled" then Known(Cancelled)
    else if name == "confirmed" then Known(Confirmed)
    else if name == "completed" then Known(Completed)
    else if name == "pending" then Known(Pending)
    else Unknown
  }

  datatype StatusOrNone = Known(status: BookingStatus) | Unknown

  /** Names are distinct, so reading a written name gives the status back. */
  lemma NameRoundTrip(s: BookingStatus)
    ensures FromName(Name(s)) == Known(s)
  {
  }

  /** A string is a status name exactly when it is one of the four names. */
  lemma FromNameKnown(name: string)
    ensures FromName(name).Known? <==> exists s :: s in AllStatuses && Name(s) == name
  {
    if FromName(name).Known? {
      assert FromName(name).status in AllStatuses;
    }
  }

  /** The schema's message: the values joined by ", " in declaration order. */
  const StatusMessage: string := "\"status\" must be one of: cancelled, confirmed, completed, pending"
}
