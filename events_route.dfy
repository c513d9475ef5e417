/**
 * `/api/events`: GET lists the upcoming events (date not before the current
 * instant) in ascending date order; POST validates a body through the Event
 * schema and inserts it. GET takes no parameters and never looks at
 * `isPublic`.
 */
module EventsRoute {
  import opened Wrappers
  import opened Http
  import opened Sorting
  import opened Lists
  import opened EventModel

  /** `.sort({ date: 1 })`. */
  predicate DateLe(a: Event, b: Event) {
    a.date <= b.date
  }

  /** `{ date: { $gte: now } }`. */
  function NotBefore(now: int): Event -> bool {
    (e: Event) => e.date >= now
  }

  /** GET's listing at instant `now`. */
  function Upcoming(events: seq<Event>, now: int): seq<Event> {
    SortBy(Filter(events, NotBefore(now)), DateLe)
  }

  lemma DateTotalPreorder()
    ensures TotalPreorder(DateLe)
  {
  }

  /** The listing is sound and complete for the filter, and in date order. */
  lemma UpcomingCorrect(events: seq<Event>, now: int)
    ensures forall e :: e in Upcoming(events, now) <==> e in events && e.date >= now
    ensures SortedBy(Upcoming(events, now), DateLe)
    ensures multiset(Upcoming(events, now)) == multiset(Filter(events, NotBefore(now)))
  {
    var f := Filter(events, NotBefore(now));
    forall e ensures e in Upcoming(events, now) <==> e in f {
      SortByMembers(f, DateLe, e);
    }
    DateTotalPreorder();
    SortBySorted(f, DateLe);
  }

  /** A private upcoming event is listed all the same. */
  lemma PrivateUpcomingListed(events: seq<Event>, now: int, e: Event)
    requires e in events && e.date >= now && e.isPublic == Some(false)
    ensures e in Upcoming(events, now)
  {
    UpcomingCorrect(events, now);
  }

  const CreateFailed: string := "Failed to create event"

  /** The event collection. */
  class EventStore {
    var docs: seq<Event>
    var nextId: nat

    /** Every `_id` is below the next fresh one. */
    ghost predicate Valid()
      reads this
    {
      forall j :: 0 <= j < |docs| ==> docs[j].id < nextId
    }

    constructor(initial: seq<Event>, next: nat)
      requires forall j :: 0 <= j < |initial| ==> initial[j].id < next
      ensures Valid() && docs == initial && nextId == next
    {
      docs := initial;
      nextId := next;
    }

    /** GET at instant `now`. */
    method Get(now: int) returns (resp: Response<seq<Event>>)
      ensures resp == Response(200, Data(Upcoming(docs, now)))
      ensures forall e :: e in resp.payload.value <==> e in docs && e.date >= now
      ensures SortedBy(resp.payload.value, DateLe)
    {
      UpcomingCorrect(docs, now);
      resp := Response(200, Data(Upcoming(docs, now)));
    }

    /** POST: `new Event(body).save()`; a validation error is answered with 500. */
    method Post(body: EventInput) returns (resp: Response<Event>)
      requires Valid()
      modifies this
      ensures Valid()
      ensures !Acceptable(body) ==>
        docs == old(docs) && nextId == old(nextId) && resp == Response(500, Error(CreateFailed))
      ensures Acceptable(body) ==>
        && ValidateEvent(body, old(nextId)).Some?
        && var e := ValidateEvent(body, old(nextId)).value;
        && docs == old(docs) + [e] && nextId == old(nextId) + 1
        && resp == Response(201, Data(e))
    {
      var validated := ValidateEvent(body, nextId);
      if validated.None? {
        return Response(500, Error(CreateFailed));
      }
      var e := validated.value;
      docs := docs + [e];
      nextId := nextId + 1;
      resp := Response(201, Data(e));
    }
  }
}
