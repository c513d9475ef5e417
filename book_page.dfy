/**
 * The public booking page: the event-type choices, the form and its
 * one-field-at-a-time updates, the body posted to the bookings route, and
 * the reset after a request was sent.
 */
module BookPage {
  import opened Wrappers
  import opened Http
  import opened BookingModel
  import opened AdminBookingsPage

  /** A choice of the event-type select. */
  datatype Choice = Choice(value: string, text: string)

  /** The select's choices, in display order. */
  const EventTypeChoices: seq<Choice> := [
    Choice("wedding", "Wedding"),
    Choice("corporate", "Corporate Event"),
    Choice("festival", "Festival"),
    Choice("private-party", "Private Party"),
    Choice("bar-gig", "Bar/Club Gig"),
    Choice("other", "Other")]

  /**
   * The choices offer exactly the schema's six event types in schema order,
   * each labelled as the admin bookings page labels it.
   */
  lemma ChoicesMatchSchema()
    ensures |EventTypeChoices| == |EventTypeNames|
    ensures forall i :: 0 <= i < |EventTypeChoices| ==> EventTypeChoices[i].value == EventTypeNames[i]
    ensures forall i :: 0 <= i < |EventTypeChoices| ==>
      EventTypeDisplay(EventTypeChoices[i].value) == EventTypeChoices[i].text
    ensures forall i :: 0 <= i < |EventTypeChoices| ==> ParseEventType(EventTypeChoices[i].value).Some?
  {
  }

  /** The form's inputs, as the `name` attribute identifies them. */
  datatype Field =
    | Name | Email | Phone | EventDate | EventKind | Venue | Address | City | State
    | ExpectedAttendance | Budget | Message

  /** The form's state: the text of every input. */
  datatype BookingForm = BookingForm(
    name: string,
    email: string,
    phone: string,
    eventDate: string,
    eventType: string,
    venue: string,
    address: string,
    city: string,
    state: string,
    expectedAttendance: string,
    budget: string,
    message: string)

  /** The form as the page starts, and as "Submit Another Request" leaves it. */
  const EmptyForm := BookingForm("", "", "", "", "", "", "", "", "", "", "", "")

  /** The text of one input. */
  function FieldOf(form: BookingForm, f: Field): string {
    match f
    case Name => form.name
    case Email => form.email
    case Phone => form.phone
    case EventDate => form.eventDate
    case EventKind => form.eventType
    case Venue => form.venue
    case Address => form.address
    case City => form.city
    case State => form.state
    case ExpectedAttendance => form.expectedAttendance
    case Budget => form.budget
    case Message => form.message
  }

  /** `{ ...prev, [name]: value }`. */
  function WithField(form: BookingForm, f: Field, v: string): (r: BookingForm)
    ensures FieldOf(r, f) == v
    ensures forall g :: g != f ==> FieldOf(r, g) == FieldOf(form, g)
  {
    match f
    case Name => form.(name := v)
    case Email => form.(email := v)
    case Phone => form.(phone := v)
    case EventDate => form.(eventDate := v)
    case EventKind => form.(eventType := v)
    case Venue => form.(venue := v)
    case Address => form.(address := v)
    case City => form.(city := v)
    case State => form.(state := v)
    case ExpectedAttendance => form.(expectedAttendance := v)
    case Budget => form.(budget := v)
    case Message => form.(message := v)
  }

  /** Two forms with the same text in every input are the same form. */
  lemma FormsEqual(a: BookingForm, b: BookingForm)
    requires forall f :: FieldOf(a, f) == FieldOf(b, f)
    ensures a == b
  {
    assert FieldOf(a, Name) == FieldOf(b, Name) && FieldOf(a, Email) == FieldOf(b, Email);
    assert FieldOf(a, Phone) == FieldOf(b, Phone) && FieldOf(a, EventDate) == FieldOf(b, EventDate);
    assert FieldOf(a, EventKind) == FieldOf(b, EventKind) && FieldOf(a, Venue) == FieldOf(b, Venue);
    assert FieldOf(a, Address) == FieldOf(b, Address) && FieldOf(a, City) == FieldOf(b, City);
    assert FieldOf(a, State) == FieldOf(b, State);
    assert FieldOf(a, ExpectedAttendance) == FieldOf(b, ExpectedAttendance);
    assert FieldOf(a, Budget) == FieldOf(b, Budget) && FieldOf(a, Message) == FieldOf(b, Message);
  }

  /** Typing a field's current text again changes nothing; the last edit of a field wins. */
  lemma WithFieldLaws(form: BookingForm, f: Field, v: string, w: string)
    ensures WithField(form, f, FieldOf(form, f)) == form
    ensures WithField(WithField(form, f, v), f, w) == WithField(form, f, w)
  {
    FormsEqual(WithField(form, f, FieldOf(form, f)), form);
    FormsEqual(WithField(WithField(form, f, v), f, w), WithField(form, f, w));
  }

  /**
   * `bookingData` as the route receives it. `parseInt` stands for the
   * browser's `parseInt`, `None` where it gives NaN (sent as `null`);
   * `castDate` for the schema's cast of the date text, `None` where it
   * gives no date. An empty attendance is left out of the body; every other
   * input is passed as typed, and no status is sent.
   */
  function BookingBody(form: BookingForm, parseInt: string -> Option<int>, castDate: string -> Option<int>): (body: BookingInput)
    ensures form.expectedAttendance == "" ==> body.expectedAttendance.None?
    ensures form.expectedAttendance != "" ==> body.expectedAttendance == parseInt(form.expectedAttendance)
    ensures body.name == Some(form.name) && body.email == Some(form.email) && body.phone == Some(form.phone)
    ensures body.eventDate == castDate(form.eventDate) && body.eventType == Some(form.eventType)
    ensures body.venue == Some(form.venue) && body.address == Some(form.address)
    ensures body.city == Some(form.city) && body.state == Some(form.state)
    ensures body.budget == Some(form.budget) && body.message == Some(form.message)
    ensures body.status.None?
  {
    BookingInput(Some(form.name), Some(form.email), Some(form.phone), castDate(form.eventDate),
                 Some(form.eventType), Some(form.venue), Some(form.address), Some(form.city),
                 Some(form.state),
                 if form.expectedAttendance != "" then parseInt(form.expectedAttendance) else None,
                 Some(form.budget), Some(form.message), None)
  }

  /** A request from this page is stored as pending, with the attendance and the chosen event type. */
  lemma PageRequestsArePending(form: BookingForm, parseInt: string -> Option<int>, castDate: string -> Option<int>,
                               id: nat, createdAt: int)
    requires Acceptable(BookingBody(form, parseInt, castDate))
    ensures var b := ValidateBooking(BookingBody(form, parseInt, castDate), id, createdAt).value;
      && b.status == Pending
      && EventTypeName(b.eventType) == form.eventType
      && b.expectedAttendance == BookingBody(form, parseInt, castDate).expectedAttendance
  {
  }

  /** The select starts on its placeholder: a form sent without choosing an event type is rejected. */
  lemma NoEventTypeRejected(form: BookingForm, parseInt: string -> Option<int>, castDate: string -> Option<int>)
    requires form.eventType == ""
    ensures !Acceptable(BookingBody(form, parseInt, castDate))
  {
    assert "" !in EventTypeNames;
  }

  const SubmitFailed: string := "Failed to submit booking request. Please try again."

  /** The page's state. */
  class PageState {
    var form: BookingForm
    var loading: bool
    var submitted: bool
    var error: Option<string>

    constructor()
      ensures form == EmptyForm && !loading && !submitted && error == None
    {
      form := EmptyForm;
      loading := false;
      submitted := false;
      error := None;
    }

    /** `handleInputChange` for the input named `f`, now holding `v`. */
    method HandleInputChange(f: Field, v: string)
      modifies this
      ensures FieldOf(form, f) == v
      ensures forall g :: g != f ==> FieldOf(form, g) == FieldOf(old(form), g)
      ensures loading == old(loading) && submitted == old(submitted) && error == old(error)
    {
      form := WithField(form, f, v);
    }

    /** `handleSubmit`, given the reply to the POST; `request` is the body sent. */
    method HandleSubmit(parseInt: string -> Option<int>, castDate: string -> Option<int>, reply: Reply<Booking>)
      returns (request: BookingInput)
      modifies this
      ensures request == BookingBody(old(form), parseInt, castDate)
      ensures reply.Succeeded? ==> submitted && error == None
      ensures !reply.Succeeded? ==> submitted == old(submitted) && error == Some(SubmitFailed)
      ensures form == old(form) && !loading
    {
      loading := true;
      error := None;
      request := BookingBody(form, parseInt, castDate);
      if reply.Succeeded? {
        submitted := true;
      } else {
        error := Some(SubmitFailed);
      }
      loading := false;
    }

    /** The "Submit Another Request" button. */
    method SubmitAnother()
      modifies this
      ensures !submitted
      ensures forall f :: FieldOf(form, f) == ""
      ensures loading == old(loading) && error == old(error)
    {
      submitted := false;
      form := EmptyForm;
    }
  }
}
