/**
 * Migration 001: every event written before `isPublic` existed is made
 * public, and its `bookingId` is set to null. Events that already carry
 * `isPublic` are not touched.
 */
module MigrationEventPublic {
  import opened Wrappers
  import opened Text
  import opened Lists
  import opened EventModel
  import opened EventsRoute

  /** What a migration reports. */
  datatype MigrationResult = MigrationResult(
    success: bool,
    message: string,
    modifiedCount: Option<nat>,
    errors: Option<seq<string>>)

  /** How connecting went: connected, connected without a database handle, or `connectToDatabase` rejected. */
  datatype Connection = Connected | NoDatabase | ConnectFailed(reason: string)

  const NoDatabaseMessage: string := "Database connection not established"
  const NotNeededMessage: string := "Migration not needed - all events already have isPublic field"

  /** `{ isPublic: { $exists: false } }`. */
  predicate LacksPublic(e: Event) {
    e.isPublic.None?
  }

  /** `countDocuments` of the filter. */
  function CountLacking(events: seq<Event>): nat {
    |Filter(events, LacksPublic)|
  }

  /** The `$set` applied to one matching document. */
  function Backfilled(e: Event): (r: Event)
    ensures LacksPublic(e) ==> r == e.(isPublic := Some(true), bookingId := None)
    ensures !LacksPublic(e) ==> r == e
  {
    if e.isPublic.None? then e.(isPublic := Some(true), bookingId := None) else e
  }

  /** `updateMany`: every matching document patched, in place. */
  function Backfill(events: seq<Event>): (r: seq<Event>)
    ensures |r| == |events|
    ensures forall i :: 0 <= i < |events| ==> r[i] == Backfilled(events[i])
  {
    seq(|events|, i requires 0 <= i < |events| => Backfilled(events[i]))
  }

  /** After the backfill no event lacks `isPublic`. */
  lemma BackfillComplete(events: seq<Event>)
    ensures CountLacking(Backfill(events)) == 0
  {
    FilterNone(Backfill(events), LacksPublic);
  }

  /** Running the backfill twice is running it once. */
  lemma BackfillIdempotent(events: seq<Event>)
    ensures Backfill(Backfill(events)) == Backfill(events)
  {
  }

  /** Ids and every field except the two patched ones are kept; a document with `isPublic` keeps its `bookingId`. */
  lemma BackfillKeeps(events: seq<Event>, i: nat)
    requires i < |events|
    ensures Backfill(events)[i].id == events[i].id
    ensures Backfill(events)[i].isPublic.Some?
    ensures events[i].isPublic.Some? ==> Backfill(events)[i].bookingId == events[i].bookingId
    ensures events[i].isPublic.None? ==> Backfill(events)[i].bookingId.None?
  {
  }

  /** The count over a longer prefix. */
  lemma CountLackingSnoc(events: seq<Event>, i: nat)
    requires i < |events|
    ensures CountLacking(events[..i + 1]) == CountLacking(events[..i]) + if LacksPublic(events[i]) then 1 else 0
  {
    assert events[..i + 1] == events[..i] + [events[i]];
    FilterConcat(events[..i], [events[i]], LacksPublic);
  }

  /**
   * The `updateMany` pass, one document at a time: the patched documents
   * and `modifiedCount`, the number of documents that lacked `isPublic`.
   */
  method BackfillDocs(before: seq<Event>) returns (docs: seq<Event>, modified: nat)
    ensures docs == Backfill(before)
    ensures modified == CountLacking(before)
  {
    docs := before;
    modified := 0;
    var i := 0;
    while i < |docs|
      invariant 0 <= i <= |docs| == |before|
      invariant forall j :: 0 <= j < i ==> docs[j] == Backfilled(before[j])
      invariant forall j :: i <= j < |docs| ==> docs[j] == before[j]
      invariant modified == CountLacking(before[..i])
    {
      CountLackingSnoc(before, i);
      if docs[i].isPublic.None? {
        docs := docs[i := docs[i].(isPublic := Some(true), bookingId := None)];
        modified := modified + 1;
      }
      i := i + 1;
    }
    assert before[..i] == before;
  }

  /** `addEventPublicField()` against the event collection. */
  method AddEventPublicField(store: EventStore, conn: Connection) returns (r: MigrationResult)
    requires store.Valid()
    modifies store
    ensures store.Valid() && store.nextId == old(store.nextId)
    ensures conn.NoDatabase? ==>
      store.docs == old(store.docs) && r == MigrationResult(false, "Migration failed", None, Some([NoDatabaseMessage]))
    ensures conn.ConnectFailed? ==>
      store.docs == old(store.docs) && r == MigrationResult(false, "Migration failed", None, Some([conn.reason]))
    ensures conn.Connected? && CountLacking(old(store.docs)) == 0 ==>
      store.docs == old(store.docs) && r == MigrationResult(true, NotNeededMessage, Some(0), None)
    ensures conn.Connected? && CountLacking(old(store.docs)) > 0 ==>
      var n := CountLacking(old(store.docs));
      store.docs == Backfill(old(store.docs))
      && r == MigrationResult(true, "Successfully migrated " + NatToString(n) + " events", Some(n), None)
  {
    match conn
    case ConnectFailed(reason) =>
      return MigrationResult(false, "Migration failed", None, Some([reason]));
    case NoDatabase =>
      return MigrationResult(false, "Migration failed", None, Some([NoDatabaseMessage]));
    case Connected =>
    var lacking := CountLacking(store.docs);
    if lacking == 0 {
      return MigrationResult(true, NotNeededMessage, Some(0), None);
    }
    var docs, modified := BackfillDocs(store.docs);
    store.docs := docs;
    r := MigrationResult(true, "Successfully migrated " + NatToString(modified) + " events", Some(modified), None);
  }

  /** A second run finds nothing to do: it reports 0 and writes nothing. */
  lemma SecondRunNotNeeded(events: seq<Event>)
    ensures CountLacking(Backfill(events)) == 0
    ensures Backfill(Backfill(events)) == Backfill(events)
  {
    BackfillComplete(events);
  }
}
