/**
 * The admin songs page: the originals/covers filter, the streaming-link
 * list, and deletion from the local list.
 */
module AdminSongsPage {
  import opened Wrappers
  import opened Http
  import opened Lists
  import opened Schema
  import opened SongModel

  datatype SongFilter = AllSongs | Originals | Covers

  function IsOriginal(s: Song): bool {
    s.isOriginal
  }

  /** `filteredSongs`. */
  function FilteredSongs(songs: seq<Song>, filter: SongFilter): (r: seq<Song>)
    ensures filter.AllSongs? ==> r == songs
    ensures filter.Originals? ==> forall s :: s in r <==> s in songs && s.isOriginal
    ensures filter.Covers? ==> forall s :: s in r <==> s in songs && !s.isOriginal
  {
    match filter
    case AllSongs =>
      FilterAll(songs, (s: Song) => true);
      Filter(songs, (s: Song) => true)
    case Originals => Filter(songs, IsOriginal)
    case Covers => Filter(songs, Not(IsOriginal))
  }

  /** Originals and covers partition the list: disjoint, together every song, and the counts add up. */
  lemma OriginalsCoversPartition(songs: seq<Song>)
    ensures forall s :: !(s in FilteredSongs(songs, Originals) && s in FilteredSongs(songs, Covers))
    ensures multiset(FilteredSongs(songs, Originals)) + multiset(FilteredSongs(songs, Covers)) == multiset(songs)
    ensures |FilteredSongs(songs, Originals)| + |FilteredSongs(songs, Covers)| == |FilteredSongs(songs, AllSongs)|
  {
    FilterPartition(songs, IsOriginal);
  }

  /** A streaming link as the page lists it. */
  datatype Link = Link(name: string, url: string)

  /** The fixed order of the three services. */
  function ServiceRank(name: string): nat {
    if name == "Spotify" then 0 else if name == "YouTube" then 1 else 2
  }

  /** `getStreamingLinks`: the present URLs, Spotify first, then YouTube, then SoundCloud. */
  function StreamingLinks(song: Song): (links: seq<Link>)
    ensures Filled(song.spotifyUrl) <==> Link("Spotify", song.spotifyUrl.GetOr("")) in links
    ensures Filled(song.youtubeUrl) <==> Link("YouTube", song.youtubeUrl.GetOr("")) in links
    ensures Filled(song.soundcloudUrl) <==> Link("SoundCloud", song.soundcloudUrl.GetOr("")) in links
    ensures forall l :: l in links ==>
      || (l.name == "Spotify" && song.spotifyUrl == Some(l.url))
      || (l.name == "YouTube" && song.youtubeUrl == Some(l.url))
      || (l.name == "SoundCloud" && song.soundcloudUrl == Some(l.url))
    ensures forall i, j :: 0 <= i < j < |links| ==> ServiceRank(links[i].name) < ServiceRank(links[j].name)
  {
    (if Filled(song.spotifyUrl) then [Link("Spotify", song.spotifyUrl.value)] else [])
    + (if Filled(song.youtubeUrl) then [Link("YouTube", song.youtubeUrl.value)] else [])
    + (if Filled(song.soundcloudUrl) then [Link("SoundCloud", song.soundcloudUrl.value)] else [])
  }

  /** `song._id !== songId`. */
  function OtherThan(id: nat): Song -> bool {
    (s: Song) => s.id != id
  }

  /** The list after a successful delete: exactly the songs with another id. */
  function WithoutSong(songs: seq<Song>, id: nat): (r: seq<Song>)
    ensures forall s :: s in r <==> s in songs && s.id != id
  {
    Filter(songs, OtherThan(id))
  }

  /** Deleting from a concatenation deletes from each part, so the rest keep their order. */
  lemma DeleteKeepsOrder(a: seq<Song>, b: seq<Song>, id: nat)
    ensures WithoutSong(a + b, id) == WithoutSong(a, id) + WithoutSong(b, id)
  {
    FilterConcat(a, b, OtherThan(id));
  }

  const DeleteFailed: string := "Failed to delete song"

  /** The page's state. */
  class PageState {
    var songs: seq<Song>
    var filter: SongFilter
    var deleting: Option<nat>
    var alert: Option<string>

    constructor(loaded: seq<Song>)
      ensures songs == loaded && filter == AllSongs && deleting == None && alert == None
    {
      songs := loaded;
      filter := AllSongs;
      deleting := None;
      alert := None;
    }

    /** `handleDelete`: `confirmed` is the answer to the dialog; `requested` says whether the DELETE was sent. */
    method HandleDelete(songId: nat, confirmed: bool, reply: Reply<()>) returns (requested: bool)
      modifies this
      ensures requested == confirmed
      ensures confirmed && reply.Succeeded? ==> songs == WithoutSong(old(songs), songId) && alert == old(alert)
      ensures confirmed && !reply.Succeeded? ==> songs == old(songs) && alert == Some(DeleteFailed)
      ensures !confirmed ==> songs == old(songs) && alert == old(alert) && deleting == old(deleting)
      ensures confirmed ==> deleting == None
      ensures filter == old(filter)
    {
      if !confirmed {
        return false;
      }
      requested := true;
      deleting := Some(songId);
      if reply.Succeeded? {
        songs := WithoutSong(songs, songId);
      } else {
        alert := Some(DeleteFailed);
      }
      deleting := None;
    }
  }
}
