/**
 * The public shows page's location block for one event: the venue, address
 * and city/state lines that are non-empty, or "Venue TBA" when all four
 * texts are empty.
 */
module ShowsPage {
  import opened Wrappers
  import opened EventModel

  const VenueTba: string := "Venue TBA"

  /** What the block shows. */
  datatype Location =
    | Tba
    | Lines(venueLine: Option<string>, addressLine: Option<string>, cityStateLine: Option<string>)

  /** The city/state line: the comma appears only between two non-empty parts. */
  function CityState(city: string, state: string): (line: string)
    ensures city != "" && state != "" ==> line == city + ", " + state
    ensures city == "" ==> line == state
    ensures state == "" ==> line == city
  {
    city + (if city != "" && state != "" then ", " else "") + state
  }

  /** The block for an event with these four texts. */
  function LocationOf(venue: string, address: string, city: string, state: string): (l: Location)
    ensures l.Tba? <==> venue == "" && address == "" && city == "" && state == ""
    ensures l.Lines? ==> (l.venueLine.Some? <==> venue != "") && (l.venueLine.Some? ==> l.venueLine.value == venue)
    ensures l.Lines? ==> (l.addressLine.Some? <==> address != "") && (l.addressLine.Some? ==> l.addressLine.value == address)
    ensures l.Lines? ==> (l.cityStateLine.Some? <==> city != "" || state != "")
    ensures l.Lines? && l.cityStateLine.Some? ==> l.cityStateLine.value == CityState(city, state)
  {
    if venue != "" || address != "" || city != "" || state != "" then
      Lines(if venue != "" then Some(venue) else None,
            if address != "" then Some(address) else None,
            if city != "" || state != "" then Some(CityState(city, state)) else None)
    else Tba
  }

  /** The block never shows "Venue TBA" beside a location line: a block with lines has at least one. */
  lemma LinesNonEmpty(venue: string, address: string, city: string, state: string)
    ensures LocationOf(venue, address, city, state).Lines? ==>
      var l := LocationOf(venue, address, city, state);
      l.venueLine.Some? || l.addressLine.Some? || l.cityStateLine.Some?
  {
  }

  /** The block of a listed event. */
  function EventLocation(e: Event): Location {
    LocationOf(e.venue, e.address, e.city, e.state)
  }

  /**
   * An event stored through the schema has all four texts, so it shows all
   * three lines with the comma, and "Venue TBA" only appears for documents
   * written some other way.
   */
  lemma StoredEventShowsAllLines(body: EventInput, id: nat)
    requires ValidateEvent(body, id).Some?
    ensures var e := ValidateEvent(body, id).value;
      EventLocation(e) == Lines(Some(e.venue), Some(e.address), Some(e.city + ", " + e.state))
  {
    var e := ValidateEvent(body, id).value;
    assert e.venue != "" && e.address != "" && e.city != "" && e.state != "";
  }
}
