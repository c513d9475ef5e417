/**
 * The Event schema: a show on the calendar. `isPublic` defaults to true when
 * the body leaves it out; `bookingId` refers informally to the booking an
 * event was created from.
 */
module EventModel {
  import opened Wrappers
  import opened Text
  import opened Schema

  /** A request body: every path may be absent. */
  datatype EventInput = EventInput(
    title: Option<string>,
    description: Option<string>,
    date: Option<int>,
    venue: Option<string>,
    address: Option<string>,
    city: Option<string>,
    state: Option<string>,
    ticketUrl: Option<string>,
    price: Option<string>,
    imageUrl: Option<string>,
    isPublic: Option<bool>,
    bookingId: Option<string>)

  /**
   * A stored event. `isPublic` is None for a document written before the
   * path existed; documents created through the schema always carry it.
   * An absent and a null `bookingId` are both None.
   */
  datatype Event = Event(
    id: nat,
    title: string,
    description: string,
    date: int,
    venue: string,
    address: string,
    city: string,
    state: string,
    ticketUrl: Option<string>,
    price: Option<string>,
    imageUrl: Option<string>,
    isPublic: Option<bool>,
    bookingId: Option<string>)

  /** What validation demands: the seven required paths present and non-empty after trimming where declared. */
  predicate Acceptable(body: EventInput) {
    && Filled(Trimmed(body.title)) && Filled(body.description) && body.date.Some?
    && Filled(Trimmed(body.venue)) && Filled(body.address) && Filled(body.city)
    && Filled(body.state)
  }

  /** `new Event(body)` followed by `save()`: the stored document, or None when validation fails. */
  function ValidateEvent(body: EventInput, id: nat): (r: Option<Event>)
    ensures r.Some? <==> Acceptable(body)
    ensures (|| body.title.None? || body.description.None? || body.date.None? || body.venue.None?
             || body.address.None? || body.city.None? || body.state.None?) ==> r.None?
    ensures r.Some? ==>
      && r.value.id == id
      // trimmed paths
      && r.value.title == Trim(body.title.value) && r.value.venue == Trim(body.venue.value)
      && r.value.ticketUrl == Trimmed(body.ticketUrl) && r.value.bookingId == Trimmed(body.bookingId)
      // paths stored as given
      && Some(r.value.description) == body.description && Some(r.value.date) == body.date
      && Some(r.value.address) == body.address && Some(r.value.city) == body.city
      && Some(r.value.state) == body.state
      && r.value.price == body.price && r.value.imageUrl == body.imageUrl
      // the default
      && r.value.isPublic == Some(body.isPublic.GetOr(true))
  {
    var title := Trimmed(body.title);
    var venue := Trimmed(body.venue);
    if Filled(title) && Filled(body.description) && body.date.Some? && Filled(venue)
       && Filled(body.address) && Filled(body.city) && Filled(body.state)
    then
      Some(Event(id, title.value, body.description.value, body.date.value, venue.value,
                 body.address.value, body.city.value, body.state.value,
                 Trimmed(body.ticketUrl), body.price, body.imageUrl,
                 Some(if body.isPublic.Some? then body.isPublic.value else true),
                 Trimmed(body.bookingId)))
    else None
  }

  /** The optional paths never decide acceptance. */
  lemma OptionalPathsIrrelevant(body: EventInput, id: nat)
    ensures ValidateEvent(body, id).Some?
        <==> ValidateEvent(body.(ticketUrl := None, price := None, imageUrl := None,
                                 isPublic := None, bookingId := None), id).Some?
  {
  }
}
