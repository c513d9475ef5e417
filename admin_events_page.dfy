/**
 * The admin events page: the local list of events, deletion behind a
 * confirmation dialog, and the public/private toggle.
 */
module AdminEventsPage {
  import opened Wrappers
  import opened Http
  import opened Lists
  import opened EventModel

  /** `event._id !== eventId`. */
  function OtherThan(id: nat): Event -> bool {
    (e: Event) => e.id != id
  }

  /** The list after a successful delete: exactly the events with another id, in their order. */
  function WithoutEvent(events: seq<Event>, id: nat): (r: seq<Event>)
    ensures forall e :: e in r <==> e in events && e.id != id
  {
    Filter(events, OtherThan(id))
  }

  /** The list after a successful toggle: only the matching entries' `isPublic` is replaced. */
  function WithVisibility(events: seq<Event>, id: nat, isPublic: bool): (r: seq<Event>)
    ensures |r| == |events|
    ensures forall i :: 0 <= i < |events| ==>
      r[i] == if events[i].id == id then events[i].(isPublic := Some(isPublic)) else events[i]
  {
    seq(|events|, i requires 0 <= i < |events| =>
      if events[i].id == id then events[i].(isPublic := Some(isPublic)) else events[i])
  }

  /**
   * The rest keep their order: deleting from a concatenation deletes from
   * each part, and a list without the id is kept as it is.
   */
  lemma DeleteKeepsOrder(a: seq<Event>, b: seq<Event>, id: nat)
    ensures WithoutEvent(a + b, id) == WithoutEvent(a, id) + WithoutEvent(b, id)
    ensures (forall i :: 0 <= i < |a| ==> a[i].id != id) ==> WithoutEvent(a, id) == a
  {
    FilterConcat(a, b, OtherThan(id));
    if forall i :: 0 <= i < |a| ==> a[i].id != id {
      FilterAll(a, OtherThan(id));
    }
  }

  /** Toggling twice from the flag the page shows gives the list back. */
  lemma ToggleTwice(events: seq<Event>, id: nat, current: bool)
    requires forall i :: 0 <= i < |events| && events[i].id == id ==> events[i].isPublic == Some(current)
    ensures WithVisibility(WithVisibility(events, id, !current), id, current) == events
  {
  }

  /** A deleted id is gone, and deleting it again changes nothing. */
  lemma DeleteIdempotent(events: seq<Event>, id: nat)
    ensures WithoutEvent(WithoutEvent(events, id), id) == WithoutEvent(events, id)
    ensures forall e :: e in WithoutEvent(events, id) ==> e.id != id
  {
    var once := WithoutEvent(events, id);
    FilterAll(once, OtherThan(id));
  }

  const DeleteFailed: string := "Failed to delete event"
  const VisibilityFailed: string := "Failed to update event visibility"

  /** The page's state. */
  class PageState {
    var events: seq<Event>
    var deleting: Option<nat>
    var updatingVisibility: Option<nat>
    var alert: Option<string>

    constructor(loaded: seq<Event>)
      ensures events == loaded && deleting == None && updatingVisibility == None && alert == None
    {
      events := loaded;
      deleting := None;
      updatingVisibility := None;
      alert := None;
    }

    /**
     * `handleDelete`: `confirmed` is the answer to the dialog, `reply` the
     * DELETE's reply; `requested` says whether the DELETE was sent.
     */
    method HandleDelete(eventId: nat, confirmed: bool, reply: Reply<()>) returns (requested: bool)
      modifies this
      ensures requested == confirmed
      ensures !confirmed ==> events == old(events) && alert == old(alert) && deleting == old(deleting)
      ensures confirmed && reply.Succeeded? ==> events == WithoutEvent(old(events), eventId) && alert == old(alert)
      ensures confirmed && !reply.Succeeded? ==> events == old(events) && alert == Some(DeleteFailed)
      ensures confirmed ==> deleting == None
      ensures updatingVisibility == old(updatingVisibility)
    {
      if !confirmed {
        return false;
      }
      requested := true;
      deleting := Some(eventId);
      if reply.Succeeded? {
        events := WithoutEvent(events, eventId);
      } else {
        alert := Some(DeleteFailed);
      }
      deleting := None;
    }

    /**
     * `toggleEventVisibility`: `sent` is the `isPublic` of the PUT's body,
     * `reply` the PUT's reply.
     */
    method ToggleEventVisibility(eventId: nat, currentIsPublic: bool, reply: Reply<Event>) returns (sent: bool)
      modifies this
      ensures sent == !currentIsPublic
      ensures reply.Succeeded? ==> events == WithVisibility(old(events), eventId, !currentIsPublic) && alert == old(alert)
      ensures !reply.Succeeded? ==> events == old(events) && alert == Some(VisibilityFailed)
      ensures updatingVisibility == None && deleting == old(deleting)
    {
      updatingVisibility := Some(eventId);
      sent := !currentIsPublic;
      if reply.Succeeded? {
        events := WithVisibility(events, eventId, !currentIsPublic);
      } else {
        alert := Some(VisibilityFailed);
      }
      updatingVisibility := None;
    }
  }
}
