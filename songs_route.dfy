/**
 * `/api/songs`: GET lists every song, newest first; POST validates a
 * body through the Song schema and inserts it, stamped with the current
 * instant. An absent `isOriginal` is stored as true.
 */
module SongsRoute {
  import opened Wrappers
  import opened Http
  import opened Sorting
  import opened SongModel

  /** `.sort({ createdAt: -1 })`. */
  predicate NewerFirst(a: Song, b: Song) {
    a.createdAt >= b.createdAt
  }

  lemma NewerFirstTotalPreorder()
    ensures TotalPreorder(NewerFirst)
  {
  }

  /** GET's listing. */
  function Listing(songs: seq<Song>): seq<Song> {
    SortBy(songs, NewerFirst)
  }

  /** The listing holds every song, newest first. */
  lemma ListingCorrect(songs: seq<Song>)
    ensures multiset(Listing(songs)) == multiset(songs)
    ensures SortedBy(Listing(songs), NewerFirst)
  {
    NewerFirstTotalPreorder();
    SortBySorted(songs, NewerFirst);
  }

  const CreateFailed: string := "Failed to create song"

  /** The song collection. */
  class SongStore {
    var docs: seq<Song>
    var nextId: nat

    /** Every `_id` is below the next fresh one. */
    ghost predicate Valid()
      reads this
    {
      forall j :: 0 <= j < |docs| ==> docs[j].id < nextId
    }

    constructor(initial: seq<Song>, next: nat)
      requires forall j :: 0 <= j < |initial| ==> initial[j].id < next
      ensures Valid() && docs == initial && nextId == next
    {
      docs := initial;
      nextId := next;
    }

    /** GET. */
    method Get() returns (resp: Response<seq<Song>>)
      ensures resp == Response(200, Data(Listing(docs)))
      ensures multiset(resp.payload.value) == multiset(docs)
      ensures SortedBy(resp.payload.value, NewerFirst)
    {
      ListingCorrect(docs);
      resp := Response(200, Data(Listing(docs)));
    }

    /** POST at instant `now`: `new Song(body).save()`; a validation error is answered with 500. */
    method Post(body: SongInput, now: int) returns (resp: Response<Song>)
      requires Valid()
      modifies this
      ensures Valid()
      // existing songs are never modified
      ensures |docs| >= |old(docs)| && docs[..|old(docs)|] == old(docs)
      ensures !Acceptable(body) ==>
        docs == old(docs) && nextId == old(nextId) && resp == Response(500, Error(CreateFailed))
      ensures Acceptable(body) ==>
        && ValidateSong(body, old(nextId), now).Some?
        && var b := ValidateSong(body, old(nextId), now).value;
        && docs == old(docs) + [b] && nextId == old(nextId) + 1
        && resp == Response(201, Data(b))
        && b.createdAt == now && b.isOriginal == body.isOriginal.GetOr(true)
    {
      var validated := ValidateSong(body, nextId, now);
      if validated.None? {
        return Response(500, Error(CreateFailed));
      }
      var b := validated.value;
      docs := docs + [b];
      nextId := nextId + 1;
      resp := Response(201, Data(b));
    }
  }
}
