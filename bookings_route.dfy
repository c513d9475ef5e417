/**
 * `/api/bookings`: GET lists every booking, newest first; POST validates a
 * body through the Booking schema and inserts it, stamped with the current
 * instant.
 */
module BookingsRoute {
  import opened Wrappers
  import opened Http
  import opened Sorting
  import opened BookingModel

  /** `.sort({ createdAt: -1 })`. */
  predicate NewerFirst(a: Booking, b: Booking) {
    a.createdAt >= b.createdAt
  }

  lemma NewerFirstTotalPreorder()
    ensures TotalPreorder(NewerFirst)
  {
  }

  /** GET's listing. */
  function Listing(bookings: seq<Booking>): seq<Booking> {
    SortBy(bookings, NewerFirst)
  }

  /** The listing holds every booking, newest first. */
  lemma ListingCorrect(bookings: seq<Booking>)
    ensures multiset(Listing(bookings)) == multiset(bookings)
    ensures SortedBy(Listing(bookings), NewerFirst)
  {
    NewerFirstTotalPreorder();
    SortBySorted(bookings, NewerFirst);
  }

  const CreateFailed: string := "Failed to create booking"

  /** The booking collection. */
  class BookingStore {
    var docs: seq<Booking>
    var nextId: nat

    /** Every `_id` is below the next fresh one. */
    ghost predicate Valid()
      reads this
    {
      forall j :: 0 <= j < |docs| ==> docs[j].id < nextId
    }

    constructor(initial: seq<Booking>, next: nat)
      requires forall j :: 0 <= j < |initial| ==> initial[j].id < next
      ensures Valid() && docs == initial && nextId == next
    {
      docs := initial;
      nextId := next;
    }

    /** GET. */
    method Get() returns (resp: Response<seq<Booking>>)
      ensures resp == Response(200, Data(Listing(docs)))
      ensures multiset(resp.payload.value) == multiset(docs)
      ensures SortedBy(resp.payload.value, NewerFirst)
    {
      ListingCorrect(docs);
      resp := Response(200, Data(Listing(docs)));
    }

    /** POST at instant `now`: `new Booking(body).save()`; a validation error is answered with 500. */
    method Post(body: BookingInput, now: int) returns (resp: Response<Booking>)
      requires Valid()
      modifies this
      ensures Valid()
      ensures !Acceptable(body) ==>
        docs == old(docs) && nextId == old(nextId) && resp == Response(500, Error(CreateFailed))
      ensures Acceptable(body) ==>
        && ValidateBooking(body, old(nextId), now).Some?
        && var b := ValidateBooking(body, old(nextId), now).value;
        && docs == old(docs) + [b] && nextId == old(nextId) + 1
        && resp == Response(201, Data(b))
        // the body is stored as given: a supplied status is kept, `pending` only fills an absent one
        && (body.status.Some? ==> StatusName(b.status) == body.status.value)
        && (body.status.None? ==> b.status == Pending)
    {
      var validated := ValidateBooking(body, nextId, now);
      if validated.None? {
        return Response(500, Error(CreateFailed));
      }
      var b := validated.value;
      docs := docs + [b];
      nextId := nextId + 1;
      resp := Response(201, Data(b));
    }
  }
}
