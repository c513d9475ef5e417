/**
 * The admin bookings page: the local list of bookings, the status filter,
 * the per-status counts on the filter buttons, the status actions it offers,
 * and the two label maps.
 */
module AdminBookingsPage {
  import opened Wrappers
  import opened Http
  import opened Lists
  import opened BookingModel

  /** A booking as the page receives it in JSON: the enumerations are plain strings. */
  datatype BookingView = BookingView(
    id: nat,
    name: string,
    email: string,
    phone: Option<string>,
    eventDate: int,
    eventType: string,
    venue: string,
    address: string,
    city: string,
    state: string,
    expectedAttendance: Option<int>,
    budget: Option<string>,
    message: string,
    status: string,
    createdAt: int)

  /** The JSON the bookings route sends for a stored booking. */
  function AsView(b: Booking): (v: BookingView)
    ensures v.id == b.id && v.createdAt == b.createdAt
    ensures v.status in StatusNames && ParseStatus(v.status) == Some(b.status)
    ensures v.eventType in EventTypeNames && ParseEventType(v.eventType) == Some(b.eventType)
  {
    StatusRoundTrip(b.status);
    EventTypeRoundTrip(b.eventType);
    BookingView(b.id, b.name, b.email, b.phone, b.eventDate, EventTypeName(b.eventType), b.venue,
                b.address, b.city, b.state, b.expectedAttendance, b.budget, b.message,
                StatusName(b.status), b.createdAt)
  }

  /** The selected filter button. */
  datatype StatusFilter = All | Only(status: Status)

  /** `booking.status === filter`. */
  function HasStatus(s: string): BookingView -> bool {
    (b: BookingView) => b.status == s
  }

  /** `filteredBookings`. */
  function FilteredBookings(bookings: seq<BookingView>, filter: StatusFilter): (r: seq<BookingView>)
    ensures filter.All? ==> r == bookings
    ensures filter.Only? ==> forall b :: b in r <==> b in bookings && b.status == StatusName(filter.status)
    ensures filter.Only? ==> |r| == StatusCount(bookings, filter.status)
  {
    match filter
    case All =>
      FilterAll(bookings, (b: BookingView) => true);
      Filter(bookings, (b: BookingView) => true)
    case Only(s) => Filter(bookings, HasStatus(StatusName(s)))
  }

  /** The number on a status button. */
  function StatusCount(bookings: seq<BookingView>, s: Status): nat {
    |Filter(bookings, HasStatus(StatusName(s)))|
  }

  /**
   * The selection keeps the original order and every copy: selecting from
   * two lists one after the other is selecting from their concatenation.
   */
  lemma FilteredKeepsOrder(a: seq<BookingView>, b: seq<BookingView>, filter: StatusFilter)
    ensures FilteredBookings(a + b, filter) == FilteredBookings(a, filter) + FilteredBookings(b, filter)
  {
    if filter.Only? {
      FilterConcat(a, b, HasStatus(StatusName(filter.status)));
    }
  }

  /** When every status is one of the four, the four buttons' counts add up to the 'all' count. */
  lemma {:induction false} CountsSumToTotal(bookings: seq<BookingView>)
    requires forall i :: 0 <= i < |bookings| ==> bookings[i].status in StatusNames
    ensures StatusCount(bookings, Pending) + StatusCount(bookings, Confirmed)
          + StatusCount(bookings, Declined) + StatusCount(bookings, Completed) == |bookings|
  {
    if bookings != [] {
      CountsSumToTotal(bookings[1..]);
      StatusCountCons(bookings, Pending);
      StatusCountCons(bookings, Confirmed);
      StatusCountCons(bookings, Declined);
      StatusCountCons(bookings, Completed);
      OneStatusMatches(bookings[0].status);
    }
  }

  /** A listed status name is the name of exactly one status. */
  lemma OneStatusMatches(x: string)
    requires x in StatusNames
    ensures (if x == StatusName(Pending) then 1 else 0) + (if x == StatusName(Confirmed) then 1 else 0)
          + (if x == StatusName(Declined) then 1 else 0) + (if x == StatusName(Completed) then 1 else 0) == 1
  {
    var t := ParseStatus(x).value;
    StatusRoundTrip(Pending);
    StatusRoundTrip(Confirmed);
    StatusRoundTrip(Declined);
    StatusRoundTrip(Completed);
    assert x == StatusName(t);
  }

  lemma StatusCountCons(bookings: seq<BookingView>, s: Status)
    requires bookings != []
    ensures StatusCount(bookings, s)
         == StatusCount(bookings[1..], s) + if bookings[0].status == StatusName(s) then 1 else 0
  {
  }

  /** `getStatusColor`: one class per status, a grey default for anything else. */
  function StatusColor(status: string): (c: string)
    ensures status !in StatusNames ==> c == "bg-gray-100 text-gray-800"
    ensures status in StatusNames ==> c != "bg-gray-100 text-gray-800"
  {
    match status
    case "pending" => "bg-yellow-100 text-yellow-800"
    case "confirmed" => "bg-green-100 text-green-800"
    case "declined" => "bg-red-100 text-red-800"
    case "completed" => "bg-blue-100 text-blue-800"
    case _ => "bg-gray-100 text-gray-800"
  }

  /** The four statuses get four different colours. */
  lemma StatusColorsDistinct(s: Status, t: Status)
    requires s != t
    ensures StatusColor(StatusName(s)) != StatusColor(StatusName(t))
  {
  }

  /** `getEventTypeDisplay`. */
  function EventTypeDisplay(eventType: string): (shown: string)
    ensures eventType !in EventTypeNames ==> shown == "Other"
  {
    match eventType
    case "wedding" => "Wedding"
    case "corporate" => "Corporate Event"
    case "festival" => "Festival"
    case "private-party" => "Private Party"
    case "bar-gig" => "Bar/Club Gig"
    case _ => "Other"
  }

  /** The status buttons shown for a booking, as target statuses. */
  function OfferedTransitions(status: string): (targets: seq<Status>)
    ensures status == "pending" ==> targets == [Confirmed, Declined]
    ensures status == "confirmed" ==> targets == [Completed]
    ensures status != "pending" && status != "confirmed" ==> targets == []
  {
    if status == "pending" then [Confirmed, Declined]
    else if status == "confirmed" then [Completed]
    else []
  }

  /** The workflow the page allows. */
  predicate AllowedTransition(from: Status, to: Status) {
    || (from == Pending && to == Confirmed)
    || (from == Pending && to == Declined)
    || (from == Confirmed && to == Completed)
  }

  /** Every offered action is an allowed transition, and every allowed transition is offered. */
  lemma OfferedExactlyAllowed(from: Status, to: Status)
    ensures to in OfferedTransitions(StatusName(from)) <==> AllowedTransition(from, to)
  {
  }

  /** A declined or completed booking gets no action. */
  lemma FinalStatusesHaveNoAction(from: Status)
    requires from == Declined || from == Completed
    ensures OfferedTransitions(StatusName(from)) == []
  {
  }

  /** The list after a successful status change: only the matching entry's status differs. */
  function WithStatus(bookings: seq<BookingView>, id: nat, newStatus: string): (r: seq<BookingView>)
    ensures |r| == |bookings|
    ensures forall i :: 0 <= i < |bookings| ==>
      r[i] == if bookings[i].id == id then bookings[i].(status := newStatus) else bookings[i]
  {
    seq(|bookings|, i requires 0 <= i < |bookings| =>
      if bookings[i].id == id then bookings[i].(status := newStatus) else bookings[i])
  }

  const UpdateFailed: string := "Failed to update booking status"
  const LoadFailed: string := "Failed to load bookings"

  /** The page's state. */
  class PageState {
    var bookings: seq<BookingView>
    var filter: StatusFilter
    var error: Option<string>
    var updatingStatus: Option<nat>
    var alert: Option<string>
    var loading: bool

    constructor()
      ensures bookings == [] && filter == All && error == None && updatingStatus == None
      ensures alert == None && loading
    {
      bookings := [];
      filter := All;
      error := None;
      updatingStatus := None;
      alert := None;
      loading := true;
    }

    /** `fetchBookings`, given the route's reply. */
    method FetchBookings(reply: Reply<seq<BookingView>>)
      modifies this
      ensures reply.Succeeded? ==> bookings == reply.data && error == old(error)
      ensures !reply.Succeeded? ==> bookings == old(bookings) && error == Some(LoadFailed)
      ensures !loading
      ensures filter == old(filter) && updatingStatus == old(updatingStatus) && alert == old(alert)
    {
      if reply.Succeeded? {
        bookings := reply.data;
      } else {
        error := Some(LoadFailed);
      }
      loading := false;
    }

    /** `updateBookingStatus`, given the reply of the status PUT. */
    method UpdateBookingStatus(bookingId: nat, newStatus: string, reply: Reply<BookingView>)
      modifies this
      ensures reply.Succeeded? ==> bookings == WithStatus(old(bookings), bookingId, newStatus) && alert == old(alert)
      ensures !reply.Succeeded? ==> bookings == old(bookings) && alert == Some(UpdateFailed)
      ensures updatingStatus == None
      ensures filter == old(filter) && error == old(error) && loading == old(loading)
    {
      updatingStatus := Some(bookingId);
      if reply.Succeeded? {
        bookings := WithStatus(bookings, bookingId, newStatus);
      } else {
        alert := Some(UpdateFailed);
      }
      updatingStatus := None;
    }

    /** A filter button. */
    method SetFilter(f: StatusFilter)
      modifies this
      ensures filter == f
      ensures bookings == old(bookings) && error == old(error) && alert == old(alert)
      ensures updatingStatus == old(updatingStatus) && loading == old(loading)
    {
      filter := f;
    }
  }
}
