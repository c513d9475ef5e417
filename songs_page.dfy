/**
 * The public songs page: streaming links with their button colours, the
 * video button, and the video modal.
 */
module SongsPage {
  import opened Wrappers
  import opened Schema
  import opened SongModel
  import opened AdminSongsPage

  /** A streaming link with its button colour. */
  datatype ColoredLink = ColoredLink(name: string, url: string, color: string)

  /** The colour a service's button always carries. */
  function ServiceColor(name: string): string {
    if name == "Spotify" then "bg-green-600"
    else if name == "YouTube" then "bg-red-600"
    else "bg-orange-600"
  }

  /** `getStreamingLinks` of this page. */
  function ColoredStreamingLinks(song: Song): (links: seq<ColoredLink>)
    ensures forall l :: l in links ==> l.color == ServiceColor(l.name)
  {
    (if Filled(song.spotifyUrl) then [ColoredLink("Spotify", song.spotifyUrl.value, "bg-green-600")] else [])
    + (if Filled(song.youtubeUrl) then [ColoredLink("YouTube", song.youtubeUrl.value, "bg-red-600")] else [])
    + (if Filled(song.soundcloudUrl) then [ColoredLink("SoundCloud", song.soundcloudUrl.value, "bg-orange-600")] else [])
  }

  /** The link without its colour. */
  function Uncolored(l: ColoredLink): Link {
    Link(l.name, l.url)
  }

  /**
   * The two pages list the same links in the same order: present URLs only,
   * Spotify, YouTube, SoundCloud.
   */
  lemma SameLinksAsAdmin(song: Song)
    ensures |ColoredStreamingLinks(song)| == |StreamingLinks(song)|
    ensures forall i :: 0 <= i < |StreamingLinks(song)| ==>
      Uncolored(ColoredStreamingLinks(song)[i]) == StreamingLinks(song)[i]
  {
    var c := ColoredStreamingLinks(song);
    var p := StreamingLinks(song);
    var n := (if Filled(song.spotifyUrl) then 1 else 0) + (if Filled(song.youtubeUrl) then 1 else 0);
    assert |c| == |p|;
    forall i | 0 <= i < |p| ensures Uncolored(c[i]) == p[i] {
      if i == 0 && Filled(song.spotifyUrl) {
        assert c[i] == ColoredLink("Spotify", song.spotifyUrl.value, "bg-green-600");
      } else if i < n {
        assert c[i] == ColoredLink("YouTube", song.youtubeUrl.value, "bg-red-600");
      } else {
        assert c[i] == ColoredLink("SoundCloud", song.soundcloudUrl.value, "bg-orange-600");
      }
    }
  }

  /** The "Watch Video" button is shown only for a song with a video URL. */
  function ShowVideoButton(song: Song): (shown: bool)
    ensures shown <==> song.videoUrl.Some? && song.videoUrl.value != ""
  {
    Filled(song.videoUrl)
  }

  /** The `videoModal` state. */
  class VideoModal {
    var open: bool
    var url: string

    constructor()
      ensures !open && url == ""
    {
      open := false;
      url := "";
    }

    /** `openVideoModal(u)`. */
    method Open(u: string)
      modifies this
      ensures open && url == u
    {
      open := true;
      url := u;
    }

    /** `closeVideoModal()`: back to the initial state. */
    method Close()
      modifies this
      ensures !open && url == ""
    {
      open := false;
      url := "";
    }
  }
}
