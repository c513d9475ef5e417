/**
 * The Booking schema: a public booking request as the database stores it.
 * Casting applies the path setters (`trim`, `lowercase`) and the `status`
 * default; validation then checks `required` and the two closed enumerations.
 */
module BookingModel {
  import opened Wrappers
  import opened Text
  import opened Schema

  datatype EventType = Wedding | Corporate | Festival | PrivateParty | BarGig | Other

  datatype Status = Pending | Confirmed | Declined | Completed

  /** The stored string of an event type. */
  function EventTypeName(t: EventType): string {
    match t
    case Wedding => "wedding"
    case Corporate => "corporate"
    case Festival => "festival"
    case PrivateParty => "private-party"
    case BarGig => "bar-gig"
    case Other => "other"
  }

  /** The `eventType` enumeration, in schema order. */
  const EventTypeNames: seq<string> :=
    ["wedding", "corporate", "festival", "private-party", "bar-gig", "other"]

  /** The enum validator of `eventType`: accepts exactly the six names. */
  function ParseEventType(s: string): (r: Option<EventType>)
    ensures r.Some? <==> s in EventTypeNames
    ensures r.Some? ==> EventTypeName(r.value) == s
  {
    if s == "wedding" then Some(Wedding)
    else if s == "corporate" then Some(Corporate)
    else if s == "festival" then Some(Festival)
    else if s == "private-party" then Some(PrivateParty)
    else if s == "bar-gig" then Some(BarGig)
    else if s == "other" then Some(Other)
    else None
  }

  lemma EventTypeRoundTrip(t: EventType)
    ensures ParseEventType(EventTypeName(t)) == Some(t)
  {
  }

  /** The stored string of a status. */
  function StatusName(s: Status): string {
    match s
    case Pending => "pending"
    case Confirmed => "confirmed"
    case Declined => "declined"
    case Completed => "completed"
  }

  const StatusNames: seq<string> := ["pending", "confirmed", "declined", "completed"]

  /** The enum validator of `status`: accepts exactly the four names. */
  function ParseStatus(s: string): (r: Option<Status>)
    ensures r.Some? <==> s in StatusNames
    ensures r.Some? ==> StatusName(r.value) == s
  {
    if s == "pending" then Some(Pending)
    else if s == "confirmed" then Some(Confirmed)
    else if s == "declined" then Some(Declined)
    else if s == "completed" then Some(Completed)
    else None
  }

  lemma StatusRoundTrip(s: Status)
    ensures ParseStatus(StatusName(s)) == Some(s)
  {
  }

  /** A request body: every path may be absent. Dates are instants as integers. */
  datatype BookingInput = BookingInput(
    name: Option<string>,
    email: Option<string>,
    phone: Option<string>,
    eventDate: Option<int>,
    eventType: Option<string>,
    venue: Option<string>,
    address: Option<string>,
    city: Option<string>,
    state: Option<string>,
    expectedAttendance: Option<int>,
    budget: Option<string>,
    message: Option<string>,
    status: Option<string>)

  /** A stored booking; `id` is its `_id` and `createdAt` its creation timestamp. */
  datatype Booking = Booking(
    id: nat,
    createdAt: int,
    name: string,
    email: string,
    phone: Option<string>,
    eventDate: int,
    eventType: EventType,
    venue: string,
    address: string,
    city: string,
    state: string,
    expectedAttendance: Option<int>,
    budget: Option<string>,
    message: string,
    status: Status)

  /** The status after the default: `pending` when absent, else the parsed value. */
  function StatusOf(v: Option<string>): Option<Status> {
    match v
    case None => Some(Pending)
    case Some(s) => ParseStatus(s)
  }

  /**
   * What validation demands of a body: each required path present and
   * non-empty after its setters ran, `eventType` one of the six names, and
   * `status`, when given, one of the four. Nothing else is checked.
   */
  predicate Acceptable(body: BookingInput) {
    && Filled(Trimmed(body.name)) && Filled(EmailNormalised(body.email))
    && body.eventDate.Some?
    && body.eventType.Some? && body.eventType.value in EventTypeNames
    && Filled(Trimmed(body.venue)) && Filled(body.address) && Filled(body.city)
    && Filled(body.state) && Filled(body.message)
    && (body.status.None? || body.status.value in StatusNames)
  }

  /**
   * `new Booking(body)` followed by `save()`: the stored document, or None
   * when validation fails.
   */
  function ValidateBooking(body: BookingInput, id: nat, createdAt: int): (r: Option<Booking>)
    ensures r.Some? <==> Acceptable(body)
    // in particular: a missing required path, an unknown event type or an unknown status is rejected
    ensures (|| body.name.None? || body.email.None? || body.eventDate.None? || body.eventType.None?
             || body.venue.None? || body.address.None? || body.city.None? || body.state.None?
             || body.message.None?) ==> r.None?
    ensures body.eventType.Some? && body.eventType.value !in EventTypeNames ==> r.None?
    ensures body.status.Some? && body.status.value !in StatusNames ==> r.None?
    // what is stored
    ensures r.Some? ==>
      && r.value.id == id && r.value.createdAt == createdAt
      && r.value.name == Trim(body.name.value)
      && r.value.email == Lower(Trim(body.email.value))
      && r.value.phone == Trimmed(body.phone)
      && r.value.eventDate == body.eventDate.value
      && Some(r.value.eventType) == ParseEventType(body.eventType.value)
      && r.value.venue == Trim(body.venue.value)
      && Some(r.value.address) == body.address && Some(r.value.city) == body.city
      && Some(r.value.state) == body.state && Some(r.value.message) == body.message
      && r.value.expectedAttendance == body.expectedAttendance
      && r.value.budget == body.budget
      && r.value.status == (if body.status.None? then Pending else ParseStatus(body.status.value).value)
  {
    var name := Trimmed(body.name);
    var email := EmailNormalised(body.email);
    var venue := Trimmed(body.venue);
    var eventType := if body.eventType.Some? then ParseEventType(body.eventType.value) else None;
    var status := StatusOf(body.status);
    if Filled(name) && Filled(email) && body.eventDate.Some? && eventType.Some?
       && Filled(venue) && Filled(body.address) && Filled(body.city) && Filled(body.state)
       && Filled(body.message) && status.Some?
    then
      Some(Booking(id, createdAt, name.value, email.value, Trimmed(body.phone), body.eventDate.value,
                   eventType.value, venue.value, body.address.value, body.city.value,
                   body.state.value, body.expectedAttendance, body.budget,
                   body.message.value, status.value))
    else None
  }

  /** The optional paths never decide acceptance: clearing them keeps a body valid or invalid. */
  lemma OptionalPathsIrrelevant(body: BookingInput, id: nat, createdAt: int)
    ensures ValidateBooking(body, id, createdAt).Some?
        <==> ValidateBooking(body.(phone := None, expectedAttendance := None, budget := None), id, createdAt).Some?
  {
  }

  /** Validation is idempotent on what it stores: a stored booking, sent back as a body, is stored unchanged. */
  lemma {:induction false} ValidateStored(b: Booking)
    requires b.name != "" && Trim(b.name) == b.name
    requires b.venue != "" && Trim(b.venue) == b.venue
    requires b.email != "" && Lower(Trim(b.email)) == b.email
    requires b.phone.Some? ==> Trim(b.phone.value) == b.phone.value
    requires b.address != "" && b.city != "" && b.state != "" && b.message != ""
    ensures ValidateBooking(AsBody(b), b.id, b.createdAt) == Some(b)
  {
    var body := AsBody(b);
    EventTypeRoundTrip(b.eventType);
    StatusRoundTrip(b.status);
    assert Trimmed(body.name) == Some(b.name);
    assert Trimmed(body.venue) == Some(b.venue);
    assert EmailNormalised(body.email) == Some(b.email);
    assert Trimmed(body.phone) == b.phone;
    assert StatusOf(body.status) == Some(b.status);
    assert Acceptable(body);
  }

  /** A stored booking written back as a request body. */
  function AsBody(b: Booking): BookingInput {
    BookingInput(Some(b.name), Some(b.email), b.phone, Some(b.eventDate),
                 Some(EventTypeName(b.eventType)), Some(b.venue), Some(b.address),
                 Some(b.city), Some(b.state), b.expectedAttendance, b.budget,
                 Some(b.message), Some(StatusName(b.status)))
  }
}
